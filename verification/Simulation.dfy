/** The methods of the reconcilers and of the PKI job, and the composed system. What one invocation
    does in a history is what its method does when its turns are drawn from that history. */
module Simulation {
  import opened Options
  import opened Faults
  import opened Environment
  import opened System
  import R = Reconcilers
  import ClientCA
  import InternalCert
  import PkiJob
  import P = PkiProgram

  // --- InternalCertificate invocations ---

  // The event makes the next call of invocation id.
  predicate CallsCertificate(w: World, id: nat, e: Event) {
    && id in w.certificates && !w.certificates[id].Done?
    && ((e.StepCertificate? && e.id == id) ||
        (e.CachedCertificate? && e.id == id && InternalCert.Reads(w.certificates[id]) && e.k < |w.seen|))
  }

  // One turn for each of its calls: the store the others have left, and the one that answers a read.
  function CertificateTurn(w: World, id: nat, e: Event): R.Turn
    requires CallsCertificate(w, id, e)
  {
    var seen := if e.CachedCertificate? then w.seen[e.k] else w.store;
    R.Turn((_: Store) => w.store, (_: Store) => seen, e.f)
  }

  function CertificateTurns(w: World, id: nat, es: seq<Event>): seq<R.Turn>
    decreases |es|
  {
    if es == [] then []
    else if CallsCertificate(w, id, es[0]) then [CertificateTurn(w, id, es[0])] + CertificateTurns(Next(w, es[0]), id, es[1..])
    else CertificateTurns(Next(w, es[0]), id, es[1..])
  }

  // What it leaves when it is done: the store right after its last call, the calls, and its error.
  function CertificateOutcome(w: World, id: nat, es: seq<Event>, last: Store, calls: nat): (Store, nat, bool)
    decreases |es|
  {
    if es == [] then (last, calls, id in w.certificates && w.certificates[id].Done? && w.certificates[id].err)
    else if CallsCertificate(w, id, es[0]) then
      CertificateOutcome(Next(w, es[0]), id, es[1..], Next(w, es[0]).store, calls + 1)
    else CertificateOutcome(Next(w, es[0]), id, es[1..], last, calls)
  }

  ghost predicate Supplies(turns: nat -> R.Turn, k: nat, list: seq<R.Turn>) {
    forall i :: 0 <= i < |list| ==> turns(k + i) == list[i]
  }

  lemma OtherEventsLeaveCertificate(w: World, id: nat, e: Event)
    requires Inv(w) && id in w.certificates && !CallsCertificate(w, id, e) && e != CrashCertificate(id)
    ensures id in Next(w, e).certificates && Next(w, e).certificates[id] == w.certificates[id]
  {
    assert ConcernInv(CertificateProc(id), w);
  }

  lemma SuppliesRest(turns: nat -> R.Turn, k: nat, list: seq<R.Turn>)
    requires list != [] && Supplies(turns, k, list)
    ensures turns(k) == list[0] && Supplies(turns, k + 1, list[1..])
  {
    assert turns(k + 0) == list[0];
    forall i | 0 <= i < |list[1..]| ensures turns(k + 1 + i) == list[1..][i] {
      assert turns(k + (i + 1)) == list[i + 1];
    }
  }

  lemma CertificateCall(w: World, id: nat, e: Event, turns: nat -> R.Turn, k: nat, st: Store)
    requires CallsCertificate(w, id, e) && turns(k) == CertificateTurn(w, id, e)
    ensures var w' := Next(w, e);
      && id in w'.certificates
      && R.RunCertificate(w.certificates[id], st, turns, k) == R.RunCertificate(w'.certificates[id], w'.store, turns, k + 1)
  {
  }

  lemma CertificateOutcomeStep(w: World, id: nat, es: seq<Event>, last: Store, calls: nat, w': World)
    requires es != [] && w' == Next(w, es[0])
    ensures CertificateOutcome(w, id, es, last, calls) ==
      if CallsCertificate(w, id, es[0]) then CertificateOutcome(w', id, es[1..], w'.store, calls + 1)
      else CertificateOutcome(w', id, es[1..], last, calls)
    ensures Run(w, es) == Run(w', es[1..])
    ensures CertificateTurns(w, id, es) ==
      if CallsCertificate(w, id, es[0]) then [CertificateTurn(w, id, es[0])] + CertificateTurns(w', id, es[1..]) else CertificateTurns(w', id, es[1..])
  {
  }

  lemma {:induction false} CertificateRunIsProjection(w: World, id: nat, es: seq<Event>, turns: nat -> R.Turn, k: nat, st: Store)
    requires Inv(w) && id in w.certificates && CrashCertificate(id) !in es
    requires id in Run(w, es).certificates && Run(w, es).certificates[id].Done?
    requires Supplies(turns, k, CertificateTurns(w, id, es))
    ensures R.RunCertificate(w.certificates[id], st, turns, k) ==
      CertificateOutcome(w, id, es, st, k)
    decreases |es|
  {
    if es == [] {
    } else {
      var e, w' := es[0], Next(w, es[0]);
      NextKeeps(w, e);
      CertificateOutcomeStep(w, id, es, st, k, w');
      if CallsCertificate(w, id, e) {
        var list := CertificateTurns(w, id, es);
        SuppliesRest(turns, k, list);
        assert list[1..] == CertificateTurns(w', id, es[1..]);
        CertificateCall(w, id, e, turns, k, st);
        CertificateRunIsProjection(w', id, es[1..], turns, k + 1, w'.store);
      } else {
        OtherEventsLeaveCertificate(w, id, e);
        assert CertificateTurns(w, id, es) == CertificateTurns(w', id, es[1..]);
        CertificateRunIsProjection(w', id, es[1..], turns, k, st);
      }
    }
  }

  // --- InternalClientCA invocations ---

  predicate CallsClientCA(w: World, id: nat, e: Event) {
    && id in w.clientCAs && !w.clientCAs[id].Done?
    && ((e.StepClientCA? && e.id == id) ||
        (e.CachedClientCA? && e.id == id && w.clientCAs[id].Load? && e.k < |w.seen|))
  }

  function ClientCATurn(w: World, id: nat, e: Event): R.Turn
    requires CallsClientCA(w, id, e)
  {
    var seen := if e.CachedClientCA? then w.seen[e.k] else w.store;
    R.Turn((_: Store) => w.store, (_: Store) => seen, e.f)
  }

  function ClientCATurns(w: World, id: nat, es: seq<Event>): seq<R.Turn>
    decreases |es|
  {
    if es == [] then []
    else if CallsClientCA(w, id, es[0]) then [ClientCATurn(w, id, es[0])] + ClientCATurns(Next(w, es[0]), id, es[1..])
    else ClientCATurns(Next(w, es[0]), id, es[1..])
  }

  function ClientCAOutcome(w: World, id: nat, es: seq<Event>, last: Store, calls: nat): (Store, nat, bool)
    decreases |es|
  {
    if es == [] then (last, calls, id in w.clientCAs && w.clientCAs[id].Done? && w.clientCAs[id].err)
    else if CallsClientCA(w, id, es[0]) then
      ClientCAOutcome(Next(w, es[0]), id, es[1..], Next(w, es[0]).store, calls + 1)
    else ClientCAOutcome(Next(w, es[0]), id, es[1..], last, calls)
  }

  lemma OtherEventsLeaveClientCA(w: World, id: nat, e: Event)
    requires Inv(w) && id in w.clientCAs && !CallsClientCA(w, id, e) && e != CrashClientCA(id)
    ensures id in Next(w, e).clientCAs && Next(w, e).clientCAs[id] == w.clientCAs[id]
  {
    assert ConcernInv(ClientCAProc(id), w);
  }

  lemma ClientCACall(w: World, id: nat, e: Event, turns: nat -> R.Turn, k: nat, st: Store)
    requires CallsClientCA(w, id, e) && turns(k) == ClientCATurn(w, id, e)
    ensures var w' := Next(w, e);
      && id in w'.clientCAs
      && R.RunClientCA(id, w.clientCAs[id], st, turns, k) == R.RunClientCA(id, w'.clientCAs[id], w'.store, turns, k + 1)
  {
  }

  lemma ClientCAOutcomeStep(w: World, id: nat, es: seq<Event>, last: Store, calls: nat, w': World)
    requires es != [] && w' == Next(w, es[0])
    ensures ClientCAOutcome(w, id, es, last, calls) ==
      if CallsClientCA(w, id, es[0]) then ClientCAOutcome(w', id, es[1..], w'.store, calls + 1)
      else ClientCAOutcome(w', id, es[1..], last, calls)
    ensures Run(w, es) == Run(w', es[1..])
    ensures ClientCATurns(w, id, es) ==
      if CallsClientCA(w, id, es[0]) then [ClientCATurn(w, id, es[0])] + ClientCATurns(w', id, es[1..]) else ClientCATurns(w', id, es[1..])
  {
  }

  lemma {:induction false} ClientCARunIsProjection(w: World, id: nat, es: seq<Event>, turns: nat -> R.Turn, k: nat, st: Store)
    requires Inv(w) && id in w.clientCAs && CrashClientCA(id) !in es
    requires id in Run(w, es).clientCAs && Run(w, es).clientCAs[id].Done?
    requires Supplies(turns, k, ClientCATurns(w, id, es))
    ensures R.RunClientCA(id, w.clientCAs[id], st, turns, k) ==
      ClientCAOutcome(w, id, es, st, k)
    decreases |es|
  {
    if es == [] {
    } else {
      var e, w' := es[0], Next(w, es[0]);
      NextKeeps(w, e);
      ClientCAOutcomeStep(w, id, es, st, k, w');
      if CallsClientCA(w, id, e) {
        var list := ClientCATurns(w, id, es);
        SuppliesRest(turns, k, list);
        assert list[1..] == ClientCATurns(w', id, es[1..]);
        ClientCACall(w, id, e, turns, k, st);
        ClientCARunIsProjection(w', id, es[1..], turns, k + 1, w'.store);
      } else {
        OtherEventsLeaveClientCA(w, id, e);
        assert ClientCATurns(w, id, es) == ClientCATurns(w', id, es[1..]);
        ClientCARunIsProjection(w', id, es[1..], turns, k, st);
      }
    }
  }

  // --- The main flow of the PKI job ---

  // The main flow has made its last call, or the process is gone.
  predicate MainOver(w: World) {
    w.job.None? || w.job.value.main.Exit?
  }

  function SharedOf(w: World): P.Shared
    requires w.job.Some?
  {
    P.Shared(w.job.value.persister, w.job.value.err, w.store)
  }

  // One turn for each of its calls, and one more if the process is ended by another.
  function MainTurns(w: World, es: seq<Event>): seq<P.Turn>
    decreases |es|
  {
    if es == [] || MainOver(w) then []
    else
      var w' := Next(w, es[0]);
      if es[0].StepMain? then
        [P.Turn((_: P.Shared) => (SharedOf(w), true), es[0].f)] + MainTurns(w', es[1..])
      else if w'.job.None? then
        [P.Turn((s: P.Shared) => (s.(st := w'.store), false), Fine)]
      else MainTurns(w', es[1..])
  }

  // What it leaves: the store right after its last call, or at the end of the process, its calls, and
  // whether it came to the normal exit.
  function MainOutcome(w: World, es: seq<Event>, last: Store, steps: nat): (Store, nat, bool)
    decreases |es|
  {
    if es == [] || MainOver(w) then (last, steps, w.job.Some?)
    else
      var w' := Next(w, es[0]);
      if es[0].StepMain? then
        if w'.job.None? then (w'.store, steps + 1, false) else MainOutcome(w', es[1..], w'.store, steps + 1)
      else if w'.job.None? then (w'.store, steps + 1, false)
      else MainOutcome(w', es[1..], last, steps)
  }

  ghost predicate SuppliesMain(turns: nat -> P.Turn, k: nat, list: seq<P.Turn>) {
    forall i :: 0 <= i < |list| ==> turns(k + i) == list[i]
  }

  predicate ReachesEnd(w: World, es: seq<Event>)
    decreases |es|
  {
    MainOver(w) || (es != [] && ReachesEnd(Next(w, es[0]), es[1..]))
  }

  // Two states of the run that differ in what it shares only.
  predicate SameMain(j: PkiJob.Job, i: PkiJob.Job) {
    i == j.(persister := i.persister, err := i.err)
  }

  lemma OtherEventsLeaveMain(w: World, e: Event)
    requires w.job.Some? && !e.StepMain? && Next(w, e).job.Some?
    ensures SameMain(w.job.value, Next(w, e).job.value)
  {
    if e.StepGoroutine? {
      PkiJob.PersisterStepFrame(w.job.value, w.store, e.f, Next(w, e).job, Next(w, e).store);
    }
  }

  lemma SuppliesMainRest(turns: nat -> P.Turn, k: nat, list: seq<P.Turn>)
    requires list != [] && SuppliesMain(turns, k, list)
    ensures turns(k) == list[0] && SuppliesMain(turns, k + 1, list[1..])
  {
    assert turns(k + 0) == list[0];
    forall i | 0 <= i < |list[1..]| ensures turns(k + 1 + i) == list[1..][i] {
      assert turns(k + (i + 1)) == list[i + 1];
    }
  }

  lemma {:induction false} MainRunIsProjection(w: World, j: PkiJob.Job, es: seq<Event>, turns: nat -> P.Turn, k: nat, st: Store)
    requires w.job.Some? && SameMain(w.job.value, j) && ReachesEnd(w, es)
    requires SuppliesMain(turns, k, MainTurns(w, es))
    ensures P.RunMain(j, st, turns, k) == MainOutcome(w, es, st, k)
    decreases |es|
  {
    if MainOver(w) {
    } else {
      var e, w' := es[0], Next(w, es[0]);
      if e.StepMain? {
        SuppliesMainRest(turns, k, MainTurns(w, es));
        P.MainTurn(j, st, turns, k);
        if w'.job.Some? {
          MainRunIsProjection(w', w'.job.value, es[1..], turns, k + 1, w'.store);
        }
      } else if w'.job.None? {
        SuppliesMainRest(turns, k, MainTurns(w, es));
        P.MainTurn(j, st, turns, k);
      } else {
        OtherEventsLeaveMain(w, e);
        MainRunIsProjection(w', j, es[1..], turns, k, st);
      }
    }
  }

  // --- The goroutine of the PKI job ---

  predicate GoroutineOver(w: World) {
    w.job.None? || P.PersisterRank(w.job.value.persister) == 0
  }

  // The main flow has started the goroutine and will not start another.
  predicate Launched(w: World) {
    w.job.Some? ==> w.job.value.main !in {PkiJob.ListMounts, PkiJob.EnableRoot, PkiJob.TuneRoot, PkiJob.GenerateRootKey}
  }

  function GoroutineTurns(w: World, es: seq<Event>): seq<P.PersisterTurn>
    decreases |es|
  {
    if es == [] || GoroutineOver(w) then []
    else
      var w' := Next(w, es[0]);
      if es[0].StepGoroutine? then
        [P.PersisterTurn((_: PkiJob.Err, _: Store) => (w.job.value.err, w.store, true), es[0].f)] +
        GoroutineTurns(w', es[1..])
      else if w'.job.None? then
        [P.PersisterTurn((err: PkiJob.Err, _: Store) => (err, w'.store, false), Fine)]
      else GoroutineTurns(w', es[1..])
  }

  function GoroutineOutcome(w: World, es: seq<Event>, last: Store, steps: nat): (Store, nat, bool)
    decreases |es|
  {
    if es == [] || GoroutineOver(w) then (last, steps, w.job.Some?)
    else
      var w' := Next(w, es[0]);
      if es[0].StepGoroutine? then
        if w'.job.None? then (w'.store, steps + 1, false) else GoroutineOutcome(w', es[1..], w'.store, steps + 1)
      else if w'.job.None? then (w'.store, steps + 1, false)
      else GoroutineOutcome(w', es[1..], last, steps)
  }

  predicate GoroutineEnds(w: World, es: seq<Event>)
    decreases |es|
  {
    GoroutineOver(w) || (es != [] && GoroutineEnds(Next(w, es[0]), es[1..]))
  }

  ghost predicate SuppliesGoroutine(turns: nat -> P.PersisterTurn, k: nat, list: seq<P.PersisterTurn>) {
    forall i :: 0 <= i < |list| ==> turns(k + i) == list[i]
  }

  lemma SuppliesGoroutineRest(turns: nat -> P.PersisterTurn, k: nat, list: seq<P.PersisterTurn>)
    requires list != [] && SuppliesGoroutine(turns, k, list)
    ensures turns(k) == list[0] && SuppliesGoroutine(turns, k + 1, list[1..])
  {
    assert turns(k + 0) == list[0];
    forall i | 0 <= i < |list[1..]| ensures turns(k + 1 + i) == list[1..][i] {
      assert turns(k + (i + 1)) == list[i + 1];
    }
  }

  lemma OtherEventsLeaveGoroutine(w: World, e: Event)
    requires w.job.Some? && Launched(w) && !e.StepGoroutine? && Next(w, e).job.Some?
    ensures Launched(Next(w, e)) && Next(w, e).job.value.persister == w.job.value.persister
  {
  }

  lemma GoroutineStaysLaunched(w: World, e: Event)
    requires w.job.Some? && Launched(w) && e.StepGoroutine?
    ensures Launched(Next(w, e))
  {
    PkiJob.PersisterStepFrame(w.job.value, w.store, e.f, Next(w, e).job, Next(w, e).store);
  }

  // Of the run it belongs to, the goroutine's step depends on its own counter and the error alone.
  lemma GoroutineReadsOwn(j: PkiJob.Job, i: PkiJob.Job, st: Store, f: Fault)
    requires i.persister == j.persister && i.err == j.err
    ensures PkiJob.PersisterStep(i, st, f).1 == PkiJob.PersisterStep(j, st, f).1
    ensures var x, y := PkiJob.PersisterStep(i, st, f).0, PkiJob.PersisterStep(j, st, f).0;
      (x.Some? <==> y.Some?) && (x.Some? ==> x.value.persister == y.value.persister)
  {
  }

  lemma {:induction false} GoroutineRunIsProjection(w: World, j: PkiJob.Job, es: seq<Event>, turns: nat -> P.PersisterTurn,
      k: nat, st: Store)
    requires w.job.Some? && j.persister == w.job.value.persister && Launched(w) && GoroutineEnds(w, es)
    requires SuppliesGoroutine(turns, k, GoroutineTurns(w, es))
    ensures P.RunGoroutine(j, st, turns, k) == GoroutineOutcome(w, es, st, k)
    decreases |es|
  {
    if GoroutineOver(w) {
    } else {
      var e, w' := es[0], Next(w, es[0]);
      if e.StepGoroutine? {
        SuppliesGoroutineRest(turns, k, GoroutineTurns(w, es));
        P.GoroutineTurn(j, st, turns, k);
        GoroutineReadsOwn(w.job.value, j.(err := w.job.value.err), w.store, e.f);
        GoroutineStaysLaunched(w, e);
        if w'.job.Some? {
          GoroutineRunIsProjection(w', PkiJob.PersisterStep(j.(err := w.job.value.err), w.store, e.f).0.value, es[1..],
            turns, k + 1, w'.store);
        }
      } else if w'.job.None? {
        SuppliesGoroutineRest(turns, k, GoroutineTurns(w, es));
        P.GoroutineTurn(j, st, turns, k);
      } else {
        OtherEventsLeaveGoroutine(w, e);
        GoroutineRunIsProjection(w', j, es[1..], turns, k, st);
      }
    }
  }
}
