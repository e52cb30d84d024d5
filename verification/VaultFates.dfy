/** How runs of the init job without faults end, and what can be opened after a run that had some. */
module VaultFates {
  import opened Options
  import opened Faults
  import opened VaultInit
  import opened VaultRuns

  // --- Runs without faults ---

  // What a run without faults needs: three names and a client for the first; the minted key in the
  // secret where Vault is initialized; no left-over secret without entries where it is not.
  predicate Ready(w: World) {
    && |w.job.names| >= 3
    && w.job.client
    && (if w.cluster.minted.None? || w.job.path.Initializing?
        then forall held :: held in w.cluster.secrets ==> w.cluster.secrets[held] != map[]
        else Openable(w.cluster))
  }

  predicate GoesWell(w: World) {
    (Running(w.job) && w.job.phase != Wait(true) && Ready(w)) || w.job.phase == Ended(Exit)
  }

  lemma CalmMainStep(w: World, m: Minted)
    requires Inv(w) && GoesWell(w)
    ensures GoesWell(MainStep(w, Fine, m))
  {
    Concerns(w);
    var w' := MainStep(w, Fine, m);
    forall held | held in w'.cluster.secrets && held !in w.cluster.secrets
      ensures w'.cluster.secrets[held] != map[]
    {
      assert Field(held) in w'.cluster.secrets[held];
    }
    if w.job.phase.Get? {
      assert Field(w.job.phase.held) in w.cluster.secrets[w.job.phase.held][Field(w.job.phase.held) := ""];
    }
  }

  lemma CalmWorkerStep(w: World, i: nat, built: bool)
    requires Inv(w) && GoesWell(w)
    ensures GoesWell(WorkerStep(w, i, built, Fine))
  {
    Concerns(w);
    WorkerStepEffect(w, i, built, Fine);
    if Running(w.job) && i < 3 && w.job.workers[i].Connected? {
      assert BeginsAt(w.job, i);
      assert HasKey(w.job);
      assert w.cluster.minted.Some? && w.cluster.minted.value.key == w.job.key;
    }
  }

  lemma {:induction false} CalmRunsGoWell(w: World, es: seq<Event>)
    requires Inv(w) && GoesWell(w) && AllCalm(es)
    ensures GoesWell(Run(w, es))
    decreases |es|
  {
    if es == [] {
    } else {
      var e := es[0];
      assert Calm(e);
      if e.Main? {
        CalmMainStep(w, e.minted);
      } else {
        CalmWorkerStep(w, e.i, e.built);
      }
      NextKeeps(w, e);
      CalmRunsGoWell(Next(w, e), es[1..]);
    }
  }

  // --- With fewer than three names ---

  // On its way to the look-up that panics, or waiting after it; no worker will meet a wrong key.
  predicate HeadsForHang(w: World) {
    && Running(w.job) && w.job.client && |w.job.names| < 3
    && (w.job.phase.Health? ==> w.cluster.minted.None? || w.job.names[0] !in w.cluster.open)
    && (w.cluster.minted.Some? && !w.job.path.Initializing? ==> Openable(w.cluster))
  }

  lemma HangMainStep(w: World, m: Minted)
    requires Inv(w) && HeadsForHang(w)
    ensures HeadsForHang(MainStep(w, Fine, m))
  {
    Concerns(w);
    if w.job.phase.Wait? {
      assert BeginsAt(w.job, 0) && BeginsAt(w.job, 1) && BeginsAt(w.job, 2);
      assert w.job.counter != 0;
    }
  }

  lemma HangWorkerStep(w: World, i: nat, built: bool)
    requires Inv(w) && HeadsForHang(w)
    ensures HeadsForHang(WorkerStep(w, i, built, Fine))
  {
    Concerns(w);
    WorkerStepEffect(w, i, built, Fine);
    if i < 3 {
      assert BeginsAt(w.job, i);
    }
  }

  lemma {:induction false} CalmRunsHeadForHang(w: World, es: seq<Event>)
    requires Inv(w) && HeadsForHang(w) && AllCalm(es)
    ensures HeadsForHang(Run(w, es))
    decreases |es|
  {
    if es == [] {
    } else {
      var e := es[0];
      assert Calm(e);
      if e.Main? {
        HangMainStep(w, e.minted);
      } else {
        HangWorkerStep(w, e.i, e.built);
      }
      NextKeeps(w, e);
      CalmRunsHeadForHang(Next(w, e), es[1..]);
    }
  }

  // What a launch needs so that no call of a run without faults fails: a client, and work to do with
  // a key and secrets that are in order.
  predicate Fit(w: World) {
    && w.job.client
    && (if w.cluster.minted.None?
        then |w.job.names| >= 3 ==> forall held :: held in w.cluster.secrets ==> w.cluster.secrets[held] != map[]
        else Openable(w.cluster) && w.job.names[0] !in w.cluster.open)
  }

  ghost predicate CanGoOn(w: World) {
    exists e :: Calm(e) && Moves(w, e)
  }

  // A launch with work to do: with three names every schedule of its goroutines leads to the normal
  // exit, and with fewer every schedule leads to the hang. Until there the process can move, and
  // StepsAreBounded says that it cannot move for long.
  lemma ExitsOrHangsByNames(w: World, es: seq<Event>)
    requires Inv(w) && w.job.phase.Health? && Fit(w) && AllCalm(es)
    ensures var w' := Run(w, es);
      if |w.job.names| >= 3 then w'.job.phase == Ended(Exit) || (Running(w'.job) && CanGoOn(w'))
      else Running(w'.job) && (Hung(w'.job) || CanGoOn(w'))
  {
    var w' := Run(w, es);
    Concerns(w);
    RunKeeps(w, es);
    if |w.job.names| >= 3 {
      CalmRunsGoWell(w, es);
    } else {
      CalmRunsHeadForHang(w, es);
    }
    if Running(w'.job) && !Hung(w'.job) {
      CanMove(w');
    }
  }

  predicate AllEager(es: seq<Event>) {
    forall k :: 0 <= k < |es| ==> Eager(es[k])
  }

  // Every run has a schedule without faults to an end or to the hang.
  lemma {:induction false} Completes(w: World) returns (es: seq<Event>)
    requires Inv(w) && |w.job.workers| == 3
    ensures AllEager(es)
    ensures !Running(Run(w, es).job) || Hung(Run(w, es).job)
    decreases Rank(w.job)
  {
    if !Running(w.job) || Hung(w.job) {
      es := [];
    } else {
      CanMove(w);
      var e :| Eager(e) && Moves(w, e);
      StepsAreBounded(w, e);
      NextKeeps(w, e);
      var more := Completes(Next(w, e));
      Unfold(w, e, more);
      es := [e] + more;
    }
  }

  // Of launches with work to do, those hang that have fewer than three names, and no others.
  lemma HangsIffFewNames(w: World)
    requires Inv(w) && w.job.phase.Health? && Fit(w)
    ensures (exists es :: AllCalm(es) && Hung(Run(w, es).job)) <==> |w.job.names| < 3
  {
    Concerns(w);
    if |w.job.names| < 3 {
      var es := Completes(w);
      EagerIsCalm(es);
      CalmRunsHeadForHang(w, es);
    } else {
      forall es | AllCalm(es) ensures !Hung(Run(w, es).job) {
        CalmRunsGoWell(w, es);
      }
    }
  }

  lemma EagerIsCalm(es: seq<Event>)
    requires AllEager(es)
    ensures AllCalm(es)
  {
    forall k | 0 <= k < |es| ensures Calm(es[k]) {
      assert Eager(es[k]);
    }
  }

  function PanickingCalls(m: Minted): seq<Event> {
    [Main(Fine, m)] + ([Main(Fine, m)] + ([Main(Fine, m)] + ([Main(Fine, m)] + [])))
  }

  // With one name, on a new Vault, four calls of the main flow lead to the panic.
  lemma OneNamePanics(w: World, m: Minted)
    requires w.cluster.minted.None? && |w.job.names| == 1 && w == World(w.cluster, Launched(w.job.names, true), w.resealed)
    ensures var w' := Run(w, PanickingCalls(m));
      && w'.job.phase == Wait(true) && w'.job.names == w.job.names && w'.job.workers == [Started, Idle, Idle]
      && w'.cluster.minted == Some(m) && w'.job.key == m.key
  {
    var main := Main(Fine, m);
    var w1 := Next(w, main);
    assert w1.job.phase == Initialize && w1.job.workers == [Idle, Idle, Idle];
    var w2 := Next(w1, main);
    assert w2.job.phase == Spawn(0) && w2.job.workers == [Idle, Idle, Idle];
    var w3 := Next(w2, main);
    assert w3.job.workers == [Started, Idle, Idle] && w3.job.phase == Spawn(1);
    var w4 := Next(w3, main);
    Unfold(w3, main, []);
    Unfold(w2, main, [main] + []);
    Unfold(w1, main, [main] + ([main] + []));
    Unfold(w, main, [main] + ([main] + ([main] + [])));
  }

  function LastCalls(): seq<Event> {
    [Work(0, true, Fine)] + ([Work(0, true, Fine)] + ([Work(0, true, Fine)] + []))
  }

  // The one worker finishes, and the deferred Wait goes on waiting.
  lemma OneWorkerFinishes(w: World)
    requires w.job.phase == Wait(true) && |w.job.names| == 1 && w.job.workers == [Started, Idle, Idle]
    requires w.cluster.minted.Some? && w.cluster.minted.value.key == w.job.key
    ensures Hung(Run(w, LastCalls()).job)
  {
    var work := Work(0, true, Fine);
    var w5 := Next(w, work);
    assert w5.job.workers[0] == Connected && w5.job.phase == Wait(true) && |w5.job.workers| == 3;
    var w6 := Next(w5, work);
    assert w6.job.workers[0].Returning? && w6.job.phase == Wait(true) && |w6.job.workers| == 3;
    var w7 := Next(w6, work);
    Unfold(w6, work, []);
    Unfold(w5, work, [work] + []);
    Unfold(w, work, [work] + ([work] + []));
  }

  // An input that hangs: one name, on a new Vault.
  lemma OneNameHangs(w0: World, node: string, m: Minted)
    requires Init(w0)
    ensures Hung(Run(w0, [Launch([node], true)] + (PanickingCalls(m) + LastCalls())).job)
  {
    var names: Names := [node];
    var w := Next(w0, Launch(names, true));
    assert w == World(w0.cluster, Launched(names, true), {});
    OneNamePanics(w, m);
    OneWorkerFinishes(Run(w, PanickingCalls(m)));
    Joined(w, PanickingCalls(m), LastCalls());
    Unfold(w0, Launch(names, true), PanickingCalls(m) + LastCalls());
  }

  // --- Running the job again ---

  // A run that looks at an open first node, or has already ended.
  predicate Idling(w: World, open: set<string>) {
    && w.cluster.open == open
    && w.cluster.minted.Some?
    && (w.job.phase.Health? ==> w.job.client && w.job.names[0] in open)
    && (w.job.phase.Health? || w.job.phase.Ended?)
  }

  lemma {:induction false} IdlingStays(w: World, open: set<string>, es: seq<Event>)
    requires Inv(w) && Idling(w, open) && AllCalm(es)
    ensures Run(w, es).cluster.open == open
    decreases |es|
  {
    if es == [] {
    } else {
      var e := es[0];
      assert Calm(e);
      Concerns(w);
      if e.Work? {
        WorkerStepMovesNothing(w, e.i, e.built, e.fault);
      }
      NextKeeps(w, e);
      IdlingStays(Next(w, e), open, es[1..]);
    }
  }

  lemma WorkerStepMovesNothing(w: World, i: nat, built: bool, f: Fault)
    requires Inv(w) && (w.job.phase.Health? || w.job.phase.Ended?)
    ensures WorkerStep(w, i, built, f) == w
  {
    Concerns(w);
    if Running(w.job) && i < 3 {
      assert BeginsAt(w.job, i);
    }
  }

  // Five calls of the main flow start the workers.
  lemma StartsWorkers(w: World)
    requires Inv(w) && w.job.phase.Health? && w.job.client && |w.job.names| >= 3
    requires Openable(w.cluster) && w.job.names[0] !in w.cluster.open
    ensures var main := Main(Fine, Minted("", ""));
      var w' := Run(w, [main] + ([main] + ([main] + ([main] + ([main] + [])))));
      && w'.cluster == w.cluster && w'.job.names == w.job.names
      && w'.job.phase == Wait(false) && w'.job.workers == [Started, Started, Started]
      && w'.job.key == w.cluster.minted.value.key
  {
    Concerns(w);
    var main := Main(Fine, Minted("", ""));
    assert w.job.workers == [Idle, Idle, Idle];
    var w1 := Next(w, main);
    assert w1.job.phase == FetchKey && w1.job.workers == [Idle, Idle, Idle];
    var w2 := Next(w1, main);
    assert w2.job.phase == Spawn(0) && w2.job.workers == [Idle, Idle, Idle];
    var w3 := Next(w2, main);
    assert w3.job.phase == Spawn(1) && w3.job.workers == [Started, Idle, Idle];
    var w4 := Next(w3, main);
    assert w4.job.phase == Spawn(2) && w4.job.workers == [Started, Started, Idle];
    var w5 := Next(w4, main);
    assert w5.job.workers == [Started, Started, Started];
    Unfold(w4, main, []);
    Unfold(w3, main, [main] + []);
    Unfold(w2, main, [main] + ([main] + []));
    Unfold(w1, main, [main] + ([main] + ([main] + [])));
    Unfold(w, main, [main] + ([main] + ([main] + ([main] + []))));
  }

  // Two steps of a worker that has a client open its node.
  lemma WorkerOpens(w: World, i: nat)
    requires Running(w.job) && |w.job.workers| == 3 && i < 3 && i < |w.job.names| && w.job.workers[i].Started?
    requires w.cluster.minted.Some? && w.cluster.minted.value.key == w.job.key
    ensures w.job.names[i] in Run(w, [Work(i, true, Fine)] + ([Work(i, true, Fine)] + [])).cluster.open
  {
    var work := Work(i, true, Fine);
    var w1 := Next(w, work);
    assert w1.job.workers[i] == Connected && w1.cluster == w.cluster;
    var w2 := Next(w1, work);
    assert w.job.names[i] in w2.cluster.open;
    Unfold(w1, work, []);
    Unfold(w, work, [work] + []);
  }

  // Running the job again when some node was restarted: without faults it can open that node exactly
  // when the first node is sealed. A run that finds the first node open leaves the others as they are.
  lemma RunAgainOpensIff(w: World, i: nat)
    requires Inv(w) && w.job.phase.Health? && w.job.client && |w.job.names| >= 3 && i < 3
    requires Openable(w.cluster) && w.job.names[i] !in w.cluster.open
    ensures (exists es :: AllCalm(es) && w.job.names[i] in Run(w, es).cluster.open) <==>
      w.job.names[0] !in w.cluster.open
  {
    if w.job.names[0] in w.cluster.open {
      forall es | AllCalm(es) ensures w.job.names[i] !in Run(w, es).cluster.open {
        IdlingStays(w, w.cluster.open, es);
      }
    } else {
      var es := RunAgainOpens(w, i);
    }
  }

  lemma RunAgainOpens(w: World, i: nat) returns (es: seq<Event>)
    requires Inv(w) && w.job.phase.Health? && w.job.client && |w.job.names| >= 3 && i < 3
    requires Openable(w.cluster) && w.job.names[0] !in w.cluster.open
    ensures AllCalm(es) && w.job.names[i] in Run(w, es).cluster.open
  {
    var main, work := Main(Fine, Minted("", "")), Work(i, true, Fine);
    var start := [main] + ([main] + ([main] + ([main] + ([main] + []))));
    var rest := [work] + ([work] + []);
    StartsWorkers(w);
    var w' := Run(w, start);
    assert w'.job.workers[i] == Started;
    WorkerOpens(w', i);
    Joined(w, start, rest);
    es := start + rest;
  }

  // --- When runs without faults exit normally ---

  // What the job's first look decides: nothing to do, a new Vault or a sealed one.
  predicate WillExit(w: World) {
    && w.job.client
    && (if w.cluster.minted.Some? && w.job.names[0] in w.cluster.open then true
        else if w.cluster.minted.Some? then |w.job.names| >= 3 && Openable(w.cluster)
        else |w.job.names| >= 3 && forall held :: held in w.cluster.secrets ==> w.cluster.secrets[held] != map[])
  }

  // Why a run never exits normally.
  datatype Cause = ClientMissing | NamesMissing | EntriesMissing(held: Held) | KeyMissing

  predicate Barred(c: Cause, w: World) {
    && |w.job.workers| == 3
    && w.job.phase != Ended(Exit)
    && match c
       case ClientMissing => (Running(w.job) ==> w.job.phase.Health?) && !w.job.client
       case NamesMissing =>
         |w.job.names| < 3 && (w.job.phase.Health? ==> w.cluster.minted.None? || w.job.names[0] !in w.cluster.open)
       case EntriesMissing(held) =>
         && held in w.cluster.secrets && w.cluster.secrets[held] == map[]
         && !w.job.path.Unsealing?
         && (w.job.phase.Health? ==> w.cluster.minted.None?)
         && (w.job.phase.Update? ==> w.job.phase.held != held)
       case KeyMissing =>
         && w.cluster.minted.Some? && !Openable(w.cluster) && !w.job.path.Initializing?
         && w.job.names[0] !in w.cluster.open && !Done(w.job.workers[0])
  }

  lemma BarredMainStep(c: Cause, w: World, m: Minted)
    requires Inv(w) && Barred(c, w)
    ensures Barred(c, MainStep(w, Fine, m))
  {
    Concerns(w);
    var w' := MainStep(w, Fine, m);
    MainKeeps(w, Fine, m);
    Concerns(w');
    match c
    case ClientMissing =>
    case NamesMissing =>
    case EntriesMissing(held) => BarredByEntries(held, w, m);
    case KeyMissing => BarredByKey(w, m);
  }

  lemma BarredByEntries(held: Held, w: World, m: Minted)
    requires Inv(w) && Barred(EntriesMissing(held), w)
    ensures Barred(EntriesMissing(held), MainStep(w, Fine, m))
  {
    Concerns(w);
    var w' := MainStep(w, Fine, m);
    MainKeeps(w, Fine, m);
    Concerns(w');
    if w'.job.phase == Ended(Exit) && w'.job.path.Initializing? {
      assert Past(w'.job, held);
    }
  }

  lemma BarredByKey(w: World, m: Minted)
    requires Inv(w) && Barred(KeyMissing, w)
    ensures Barred(KeyMissing, MainStep(w, Fine, m))
  {
    Concerns(w);
    var w' := MainStep(w, Fine, m);
    MainKeeps(w, Fine, m);
    Concerns(w');
  }

  lemma BarredWorkerStep(c: Cause, w: World, i: nat)
    requires Inv(w) && Barred(c, w)
    ensures Barred(c, WorkerStep(w, i, true, Fine))
  {
    Concerns(w);
    var w' := WorkerStep(w, i, true, Fine);
    WorkerStepEffect(w, i, true, Fine);
    match c
    case ClientMissing =>
    case NamesMissing =>
      if i < 3 {
        assert BeginsAt(w.job, i);
      }
    case EntriesMissing(_) =>
    case KeyMissing =>
      ClosedToWorkers(w, i, true, Fine);
      if i == 0 {
        assert BeginsAt(w.job, 0);
      }
  }

  lemma {:induction false} BarredRuns(c: Cause, w: World, es: seq<Event>)
    requires Inv(w) && Barred(c, w) && AllEager(es)
    ensures Barred(c, Run(w, es))
    decreases |es|
  {
    if es == [] {
    } else {
      var e := es[0];
      assert Eager(e);
      if e.Main? {
        BarredMainStep(c, w, e.minted);
      } else {
        BarredWorkerStep(c, w, e.i);
      }
      NextKeeps(w, e);
      BarredRuns(c, Next(w, e), es[1..]);
    }
  }

  ghost predicate ExitsOrGoesOn(w: World) {
    w.job.phase == Ended(Exit) || (Running(w.job) && CanGoOn(w))
  }

  lemma {:induction false} OpenDoorExits(w: World, es: seq<Event>)
    requires Inv(w) && AllCalm(es)
    requires w.job.phase == Ended(Exit) ||
      (w.job.phase.Health? && w.job.client && w.cluster.minted.Some? && w.job.names[0] in w.cluster.open)
    ensures ExitsOrGoesOn(Run(w, es))
    decreases |es|
  {
    if es == [] {
      if Running(w.job) {
        CanMove(w);
      }
    } else {
      var e := es[0];
      assert Calm(e);
      if e.Work? {
        WorkerStepMovesNothing(w, e.i, e.built, e.fault);
      }
      NextKeeps(w, e);
      OpenDoorExits(Next(w, e), es[1..]);
    }
  }

  // A launched run without faults exits normally under every schedule exactly when the first node
  // has a client, and there is nothing to do, or three names and a key and secrets in order.
  lemma CalmRunsExitIff(w: World)
    requires Inv(w) && w.job.phase.Health?
    ensures (forall es :: AllCalm(es) ==> ExitsOrGoesOn(Run(w, es))) <==> WillExit(w)
  {
    Concerns(w);
    if WillExit(w) {
      forall es | AllCalm(es) ensures ExitsOrGoesOn(Run(w, es)) {
        if w.cluster.minted.Some? && w.job.names[0] in w.cluster.open {
          OpenDoorExits(w, es);
        } else {
          ExitsOrHangsByNames(w, es);
        }
      }
    } else {
      var es := Completes(w);
      EagerIsCalm(es);
      RunKeeps(w, es);
      var cause := CauseOf(w);
      BarredRuns(cause, w, es);
      var w' := Run(w, es);
      forall e | Running(w'.job) ensures !Moves(w', e) {
        HungIsStill(w', e);
      }
      assert !ExitsOrGoesOn(w');
    }
  }

  lemma CauseOf(w: World) returns (c: Cause)
    requires Inv(w) && w.job.phase.Health? && !WillExit(w)
    ensures Barred(c, w)
  {
    Concerns(w);
    if !w.job.client {
      c := ClientMissing;
    } else if |w.job.names| < 3 {
      c := NamesMissing;
    } else if w.cluster.minted.Some? {
      c := KeyMissing;
    } else {
      var held :| held in w.cluster.secrets && w.cluster.secrets[held] == map[];
      c := EntriesMissing(held);
    }
  }

  // --- A key that was lost, and one that was not ---

  // A sealed node can ever be opened by the job exactly when the minted key is the stored one.
  lemma OpensAgainIff(w: World, node: string)
    requires Inv(w) && Settled(w) && node !in w.cluster.open
    ensures (exists es :: node in Run(w, es).cluster.open) <==> Openable(w.cluster)
  {
    if Openable(w.cluster) {
      var es := OpensAgain(w, [node, node, node]);
    } else {
      forall es ensures node !in Run(w, es).cluster.open {
        ClosedForGood(w, es);
      }
    }
  }

  // A new run opens the first of its names.
  lemma OpensAgain(w: World, names: Names) returns (es: seq<Event>)
    requires Inv(w) && Settled(w) && Openable(w.cluster) && |names| >= 3 && names[0] !in w.cluster.open
    ensures names[0] in Run(w, es).cluster.open
  {
    var w1 := Next(w, Kill);
    var w2 := Next(w1, Launch(names, true));
    NextKeeps(w, Kill);
    NextKeeps(w1, Launch(names, true));
    assert w2 == World(w.cluster, Launched(names, true), {});
    var calls := RunAgainOpens(w2, 0);
    Unfold(w1, Launch(names, true), calls);
    Unfold(w, Kill, [Launch(names, true)] + calls);
    es := [Kill] + ([Launch(names, true)] + calls);
  }

  function Stopped(names: Names, m: Minted): seq<Event> {
    [Launch(names, true)] + ([Main(Fine, m)] + ([Main(Fine, m)] + ([Kill] + [])))
  }

  // A run stopped between Initialize and the write of the key leaves a Vault whose nodes can never
  // be opened, unless an old secret happens to hold the very key.
  lemma StoppedRunLosesTheKey(w0: World, names: Names, m: Minted)
    requires Init(w0)
    ensures var w := Run(w0, Stopped(names, m));
      && Inv(w) && Settled(w) && w.cluster.minted == Some(m)
      && (Openable(w.cluster) <==> UnsealKey in w0.cluster.secrets && KeyIn(w0.cluster.secrets[UnsealKey]) == m.key)
      && (UnsealKey !in w0.cluster.secrets ==> forall es :: Run(w, es).cluster.open == {})
  {
    var main := Main(Fine, m);
    var w1 := Next(w0, Launch(names, true));
    assert w1 == World(w0.cluster, Launched(names, true), {});
    var w2 := Next(w1, main);
    assert w2.job.phase == Initialize && w2.cluster == w0.cluster;
    var w3 := Next(w2, main);
    assert w3.job.phase == Spawn(0) && w3.cluster == w0.cluster.(minted := Some(m));
    var w4 := Next(w3, Kill);
    Unfold(w3, Kill, []);
    Unfold(w2, main, [Kill] + []);
    Unfold(w1, main, [main] + ([Kill] + []));
    Unfold(w0, Launch(names, true), [main] + ([main] + ([Kill] + [])));
    assert Run(w0, Stopped(names, m)) == w4;
    InitKeeps(w0);
    RunKeeps(w0, Stopped(names, m));
    if UnsealKey !in w0.cluster.secrets {
      forall es ensures Run(w4, es).cluster.open == {} {
        ClosedForGood(w4, es);
      }
    }
  }

  // --- A restarted node that stays sealed ---

  // Every worker that is done had a client, and nothing was sealed meanwhile.
  predicate AllServed(w: World) {
    && w.resealed == {}
    && forall i :: 0 <= i < |w.job.workers| && Done(w.job.workers[i]) ==> !w.job.workers[i].how.NoClient?
  }

  lemma {:induction false} EagerRunsServe(w: World, es: seq<Event>)
    requires Inv(w) && AllServed(w) && AllEager(es)
    ensures AllServed(Run(w, es)) && Run(w, es).job.names == w.job.names
    decreases |es|
  {
    if es == [] {
    } else {
      var e := es[0];
      assert Eager(e);
      Concerns(w);
      if e.Main? {
        EagerMainServes(w, e.minted);
      } else {
        EagerWorkerServes(w, e.i);
      }
      NextKeeps(w, e);
      EagerRunsServe(Next(w, e), es[1..]);
    }
  }

  lemma EagerMainServes(w: World, m: Minted)
    requires Inv(w) && AllServed(w)
    ensures AllServed(MainStep(w, Fine, m)) && MainStep(w, Fine, m).job.names == w.job.names
  {
    Concerns(w);
    if w.job.phase.Spawn? {
    } else {
      OtherStepsStartNothing(w, Fine, m);
    }
  }

  lemma EagerWorkerServes(w: World, i: nat)
    requires Inv(w) && AllServed(w)
    ensures AllServed(WorkerStep(w, i, true, Fine)) && WorkerStep(w, i, true, Fine).job.names == w.job.names
  {
    Concerns(w);
    WorkerStepEffect(w, i, true, Fine);
  }

  // From a new Vault there is a history after which a node was restarted and the job run again, and
  // under no schedule of that run without faults is the node opened: the first node is still open.
  lemma RestartedNodeStaysSealed(w0: World, names: Names, i: nat) returns (es: seq<Event>)
    requires Init(w0) && w0.cluster.secrets == map[]
    requires |names| >= 3 && 0 < i < 3 && names[i] != names[0]
    ensures var w := Run(w0, es);
      && Inv(w) && w.job.phase.Health? && w.job.client && w.job.names == names && Openable(w.cluster)
      && names[0] in w.cluster.open && names[i] !in w.cluster.open
      && forall calls :: AllCalm(calls) ==> names[i] !in Run(w, calls).cluster.open
  {
    InitKeeps(w0);
    var start := Launch(names, true);
    var w1 := Next(w0, start);
    NextKeeps(w0, start);
    assert w1 == World(w0.cluster, Launched(names, true), {});
    var calls := Completes(w1);
    EagerIsCalm(calls);
    EagerRunsServe(w1, calls);
    var w2 := Run(w1, calls);
    ExitsOrHangsByNames(w1, calls);
    RunKeeps(w1, calls);
    assert w2.job.phase == Ended(Exit) by {
      CalmRunsGoWell(w1, calls);
    }
    FirstRunInitializes(w1, calls);
    NormalExitServes(w2);
    Concerns(w2);
    assert Served(w2, 0, w2.cluster.minted.value.key) && Served(w2, i, w2.cluster.minted.value.key);
    assert Past(w2.job, UnsealKey);
    var w3 := Next(w2, Reseal(names[i]));
    NextKeeps(w2, Reseal(names[i]));
    var w4 := Next(w3, start);
    NextKeeps(w3, start);
    assert w4 == World(w3.cluster, Launched(names, true), {});
    RunAgainOpensIff(w4, i);
    Unfold(w3, start, []);
    Unfold(w2, Reseal(names[i]), [start] + []);
    Joined(w1, calls, [Reseal(names[i])] + ([start] + []));
    Unfold(w0, start, calls + ([Reseal(names[i])] + ([start] + [])));
    es := [start] + (calls + ([Reseal(names[i])] + ([start] + [])));
  }

  // On a new Vault the path is decided once.
  lemma {:induction false} FirstRunInitializes(w: World, es: seq<Event>)
    requires Inv(w) && AllCalm(es)
    requires w.job.path.Initializing? || (w.job.path.Undecided? && w.job.phase != Ended(Exit))
    requires w.job.phase.Health? ==> w.cluster.minted.None?
    ensures Run(w, es).job.path.Initializing? || Run(w, es).job.phase != Ended(Exit)
    decreases |es|
  {
    if es == [] {
    } else {
      var e := es[0];
      assert Calm(e);
      Concerns(w);
      if e.Work? {
        WorkerStepEffect(w, e.i, e.built, e.fault);
      }
      NextKeeps(w, e);
      FirstRunInitializes(Next(w, e), es[1..]);
    }
  }
}
