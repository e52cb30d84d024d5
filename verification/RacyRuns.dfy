/** A run in which the shared error variable of the PKI job loses a failure. */
module RacyRuns {
  import opened Options
  import opened Pki
  import opened MountNames
  import opened Faults
  import opened Environment
  import opened Invariants
  import opened System
  import opened Theorems
  import PkiJob

  function RacyRun(): seq<Event> {
    [StartJob, StepMain(Fine), StepMain(Fine), StepMain(Fine), StepMain(Fine), StepMain(Lost),
     StepGoroutine(Fine), StepMain(Fine), StepMain(Fine)]
  }

  // The store with the root engine as far as `log`.
  function WithRoot(st: Store, log: seq<Entry>, issuer: Option<Cert>, clock: nat): Store {
    st.(mounts := st.mounts[RootMount := Mount(log, issuer, None)], clock := clock)
  }

  function RacyJob(st: Store, m: PkiJob.Main): PkiJob.Job {
    PkiJob.Start(0).(main := m, wantInterm := IntermMount !in st.mounts)
  }

  function RacyLog(n: nat): seq<Entry>
    requires n <= 3
  {
    [Entry(Enable, JobRun(0)), Entry(Tune, JobRun(0)), Entry(Root, JobRun(0))][..n]
  }

  // The first calls of a first run, all served, bring the root engine to its root key.
  lemma RacyCallsBeforeTheKey(st: Store)
    requires RootMount !in st.mounts
    ensures PkiJob.MainStep(PkiJob.Start(0), st, Fine) == (Some(RacyJob(st, PkiJob.EnableRoot)), st)
    ensures PkiJob.MainStep(RacyJob(st, PkiJob.EnableRoot), st, Fine) ==
      (Some(RacyJob(st, PkiJob.TuneRoot)), WithRoot(st, RacyLog(1), None, st.clock))
    ensures PkiJob.MainStep(RacyJob(st, PkiJob.TuneRoot), WithRoot(st, RacyLog(1), None, st.clock), Fine) ==
      (Some(RacyJob(st, PkiJob.GenerateRootKey)), WithRoot(st, RacyLog(2), None, st.clock))
  {
    assert RacyLog(1) == [Entry(Enable, JobRun(0))];
    assert RacyLog(1) + [Entry(Tune, JobRun(0))] == RacyLog(2);
    assert st.mounts[RootMount := Mount(RacyLog(1), None, None)][RootMount := Mount(RacyLog(2), None, None)] ==
      st.mounts[RootMount := Mount(RacyLog(2), None, None)];
  }

  function RacyRoot(st: Store): Cert {
    Cert(st.clock, st.clock, true)
  }

  function RacyRootStore(st: Store): Store {
    WithRoot(st, RacyLog(3), Some(RacyRoot(st)), st.clock + 1)
  }

  function RacyWithKey(st: Store): PkiJob.Job {
    RacyJob(st, PkiJob.UrlsRoot).(persister := PkiJob.Creating(RacyRoot(st)))
  }

  // Generating the key starts the goroutine; the next call is lost and leaves `err` set.
  lemma RacyCallsAroundTheKey(st: Store)
    requires RootMount !in st.mounts
    ensures PkiJob.MainStep(RacyJob(st, PkiJob.GenerateRootKey), WithRoot(st, RacyLog(2), None, st.clock), Fine) ==
      (Some(RacyWithKey(st)), RacyRootStore(st))
    ensures PkiJob.MainStep(RacyWithKey(st), RacyRootStore(st), Lost) ==
      (Some(RacyWithKey(st).(main := PkiJob.UrlsRootTest, err := PkiJob.Other, urlsLost := true)), RacyRootStore(st))
  {
    assert RacyLog(2) + [Entry(Root, JobRun(0))] == RacyLog(3);
    assert st.mounts[RootMount := Mount(RacyLog(2), None, None)]
        [RootMount := Mount(RacyLog(3), Some(RacyRoot(st)), None)] ==
      st.mounts[RootMount := Mount(RacyLog(3), Some(RacyRoot(st)), None)];
  }

  // The goroutine's Create clears `err`, so the main flow goes on to the role.
  lemma RacyCallsAfterTheKey(st: Store, j: PkiJob.Job, v: Store)
    requires Name(st.home, "sip-root-ca") !in st.secrets && v == RacyRootStore(st)
    requires j == RacyWithKey(st).(main := PkiJob.UrlsRootTest, err := PkiJob.Other, urlsLost := true)
    ensures var (j1, v1) := PkiJob.PersisterStep(j, v, Fine);
      && j1 == Some(j.(persister := PkiJob.NilTest(RacyRoot(st)), err := PkiJob.Nil))
      && v1.mounts == v.mounts
    ensures forall k, u: Store :: k == j.(persister := PkiJob.NilTest(RacyRoot(st)), err := PkiJob.Nil) ==>
      PkiJob.MainStep(k, u, Fine) == (Some(k.(main := PkiJob.RoleRoot)), u.(masked := true))
  {
  }

  lemma RacyRole(t: World)
    requires t.job.Some? && t.job.value.main.RoleRoot? && t.job.value.run == 0
    requires RootMount in t.store.mounts && t.store.mounts[RootMount].log == RacyLog(3)
    ensures var st := Next(t, StepMain(Fine)).store;
      RootMount in st.mounts && Stages(st.mounts[RootMount].log) == ROOT_GAP_SCRIPT
  {
    var st := Next(t, StepMain(Fine)).store;
    assert st.mounts[RootMount].log == RacyLog(3) + [Entry(Role, JobRun(0))];
  }

  lemma GoroutineEvent(w: World, f: Fault, j: PkiJob.Job, st: Store)
    requires w.job.Some? && PkiJob.PersisterStep(w.job.value, w.store, f) == (Some(j), st)
    ensures Next(w, StepGoroutine(f)) == w.(store := st, job := Some(j))
  {
  }

  lemma MainEvent(w: World, f: Fault, j: PkiJob.Job, st: Store)
    requires w.job.Some? && PkiJob.MainStep(w.job.value, w.store, f) == (Some(j), st)
    ensures Next(w, StepMain(f)) == w.(store := st, job := Some(j))
  {
  }

  lemma RacyRunEnds(v: World, u: World, t: World, es: seq<Event>)
    requires es == RacyRun() && u == Next(v, StepGoroutine(Fine)) && t == Next(u, StepMain(Fine))
    ensures Run(v, es[6..]) == Next(t, StepMain(Fine))
  {
    RunFrom(v, es, 6);
    RunFrom(u, es, 7);
    RunFrom(t, es, 8);
    assert es[9..] == [];
  }

  lemma RacyRunMakesTheKey(w: World, es: seq<Event>) returns (w5: World)
    requires Init(w) && es == RacyRun()
    ensures Run(w, es) == Run(w5, es[5..]) && w5.store == RacyRootStore(w.store) && w5.job == Some(RacyWithKey(w.store))
  {
    var st := w.store;
    RacyCallsBeforeTheKey(st);
    RacyCallsAroundTheKey(st);
    var w1 := w.(job := Some(PkiJob.Start(0)), nextRun := 1);
    var w2 := w1.(job := Some(RacyJob(st, PkiJob.EnableRoot)));
    var w3 := w1.(job := Some(RacyJob(st, PkiJob.TuneRoot)), store := WithRoot(st, RacyLog(1), None, st.clock));
    var w4 := w1.(job := Some(RacyJob(st, PkiJob.GenerateRootKey)), store := WithRoot(st, RacyLog(2), None, st.clock));
    w5 := w1.(job := Some(RacyWithKey(st)), store := RacyRootStore(st));
    RacyEvents(w1, w2, w3, w4);
    MainEvent(w4, Fine, w5.job.value, w5.store);
    RacyRunChains(w, w1, w2, w3, w4, w5, es);
  }

  lemma RacyRunLosesTheUrls(w: World, es: seq<Event>) returns (v: World)
    requires Init(w) && es == RacyRun()
    ensures Run(w, es) == Run(v, es[6..]) && v.store == RacyRootStore(w.store)
    ensures v.job ==
      Some(RacyWithKey(w.store).(main := PkiJob.UrlsRootTest, err := PkiJob.Other, urlsLost := true))
  {
    var w5 := RacyRunMakesTheKey(w, es);
    RacyCallsAroundTheKey(w.store);
    v := Next(w5, StepMain(Lost));
    MainEvent(w5, Lost, v.job.value, v.store);
    RunFrom(w5, es, 5);
  }

  lemma RacyEvents(w1: World, w2: World, w3: World, w4: World)
    requires w1.job.Some? && w2.job.Some? && w3.job.Some? && w4.job.Some?
    requires PkiJob.MainStep(w1.job.value, w1.store, Fine) == (w2.job, w2.store) && w2 == w1.(store := w2.store, job := w2.job)
    requires PkiJob.MainStep(w2.job.value, w2.store, Fine) == (w3.job, w3.store) && w3 == w2.(store := w3.store, job := w3.job)
    requires PkiJob.MainStep(w3.job.value, w3.store, Fine) == (w4.job, w4.store) && w4 == w3.(store := w4.store, job := w4.job)
    ensures w2 == Next(w1, StepMain(Fine)) && w3 == Next(w2, StepMain(Fine)) && w4 == Next(w3, StepMain(Fine))
  {
    MainEvent(w1, Fine, w2.job.value, w2.store);
    MainEvent(w2, Fine, w3.job.value, w3.store);
    MainEvent(w3, Fine, w4.job.value, w4.store);
  }

  lemma RacyRunChains(w: World, w1: World, w2: World, w3: World, w4: World, w5: World, es: seq<Event>)
    requires es == RacyRun() && w1 == Next(w, StartJob)
    requires w2 == Next(w1, StepMain(Fine)) && w3 == Next(w2, StepMain(Fine)) && w4 == Next(w3, StepMain(Fine))
    requires w5 == Next(w4, StepMain(Fine))
    ensures Run(w, es) == Run(w5, es[5..])
  {
    assert es[0..] == es;
    RunFrom(w, es, 0);
    RunFrom(w1, es, 1);
    RunFrom(w2, es, 2);
    RunFrom(w3, es, 3);
    RunFrom(w4, es, 4);
  }

  lemma RunFrom(w: World, es: seq<Event>, k: nat)
    requires k < |es|
    ensures Run(w, es[k..]) == Run(Next(w, es[k]), es[k + 1..])
  {
    assert es[k..][1..] == es[k + 1..];
  }

  // The race is real: from any initial world without that secret, one lost call and an early
  // goroutine leave the root engine with its role and without its URLs.
  lemma RacyRunSkipsTheUrls(w: World, es: seq<Event>)
    requires Init(w) && Name(w.store.home, "sip-root-ca") !in w.store.secrets && es == RacyRun()
    ensures RootMount in Reached(w, es).mounts
    ensures Stages(Reached(w, es).mounts[RootMount].log) == ROOT_GAP_SCRIPT
  {
    var st := w.store;
    var v := RacyRunLosesTheUrls(w, es);
    var j := v.job.value;
    RacyCallsAfterTheKey(st, j, v.store);
    var u := RacyWrite(st, v, j);
    MainEvent(u, Fine, u.job.value.(main := PkiJob.RoleRoot), u.store.(masked := true));
    var t := Next(u, StepMain(Fine));
    RacyRole(t);
    RacyRunEnds(v, u, t, es);
  }

  lemma RacyWrite(st: Store, v: World, j: PkiJob.Job) returns (u: World)
    requires Name(st.home, "sip-root-ca") !in st.secrets && v.store == RacyRootStore(st) && v.job == Some(j)
    requires j == RacyWithKey(st).(main := PkiJob.UrlsRootTest, err := PkiJob.Other, urlsLost := true)
    ensures u == Next(v, StepGoroutine(Fine)) && u.store.mounts == v.store.mounts
    ensures u.job == Some(j.(persister := PkiJob.NilTest(RacyRoot(st)), err := PkiJob.Nil))
  {
    RacyCallsAfterTheKey(st, j, v.store);
    u := Next(v, StepGoroutine(Fine));
    GoroutineEvent(v, Fine, u.job.value, u.store);
  }
}
