/** What holds over whole histories of init job runs: the WaitGroup, progress, and the key. */
module VaultRuns {
  import opened Options
  import opened Faults
  import opened VaultInit

  // --- The WaitGroup ---

  predicate AllFinished(j: Job) {
    |j.workers| == 3 && forall i :: 0 <= i < 3 ==> j.workers[i].Finished?
  }

  // Over every schedule the counter stays between 0 and 3 and is the number of workers still to
  // finish; a run that has a Wait to pass exits normally only when there is none.
  lemma WaitGroupIsSafe(w0: World, es: seq<Event>)
    requires Init(w0)
    ensures var j := Run(w0, es).job;
      && 0 <= j.counter <= 3
      && |j.workers| == 3
      && (!j.path.Undecided? ==> (j.counter == 0 <==> AllFinished(j)))
      && (j.phase == Ended(Exit) && !j.path.Undecided? ==> AllFinished(j))
  {
    InitKeeps(w0);
    RunKeeps(w0, es);
    var w := Run(w0, es);
    Concerns(w);
    var ws := w.job.workers;
    if w.job.counter == 0 && !w.job.path.Undecided? {
      assert ws[0].Finished? && ws[1].Finished? && ws[2].Finished?;
    }
  }

  // A finished worker stays so, and the counter moves by one exactly when one more has finished.
  lemma WorkersFinishOnce(w: World, e: Event, i: nat)
    requires Inv(w) && Running(w.job) && !w.job.path.Undecided? && i < 3
    ensures var j := Next(w, e).job;
      && |j.workers| == 3
      && (w.job.workers[i].Finished? ==> j.workers[i] == w.job.workers[i])
      && (j.counter == w.job.counter || j.counter == w.job.counter - 1)
      && (j.counter == w.job.counter - 1 <==>
           exists k :: 0 <= k < 3 && !w.job.workers[k].Finished? && j.workers[k].Finished?)
  {
    Concerns(w);
    var w' := Next(w, e);
    match e
    case Main(f, m) =>
      if w.job.phase.Spawn? {
        assert BeginsAt(w.job, w.job.phase.n);
      } else {
        OtherStepsStartNothing(w, f, m);
      }
    case Work(k, built, f) =>
      WorkerStepEffect(w, k, built, f);
      if w'.job.workers != w.job.workers {
        assert Advanced(w, w', k);
        assert w'.job.counter == w.job.counter - 1 ==> !w.job.workers[k].Finished? && w'.job.workers[k].Finished?;
      }
    case Launch(_, _) =>
    case Kill =>
    case Reseal(_) =>
  }

  // --- Progress ---

  function PhaseRank(phase: Phase): nat {
    match phase
    case Health => 12
    case Initialize => 11
    case FetchKey => 11
    case Spawn(n) => if n < 3 then 10 - n else 8
    case Create(held) => if held.UnsealKey? then 7 else 4
    case Get(held) => if held.UnsealKey? then 6 else 3
    case Update(held, _) => if held.UnsealKey? then 5 else 2
    case Wait(_) => 1
    case Ended(_) => 0
  }

  function WorkerRank(worker: Worker): nat {
    match worker
    case Idle => 4
    case Started => 3
    case Connected => 2
    case Returning(_) => 1
    case Finished(_) => 0
  }

  function Rank(j: Job): nat
    requires |j.workers| == 3
  {
    PhaseRank(j.phase) + WorkerRank(j.workers[0]) + WorkerRank(j.workers[1]) + WorkerRank(j.workers[2])
  }

  lemma MainStepMoves(w: World, f: Fault, m: Minted)
    requires Inv(w) && Running(w.job)
    ensures var w' := MainStep(w, f, m);
      && |w'.job.workers| == 3
      && (w' == w || Rank(w'.job) < Rank(w.job))
      && (w' == w <==> w.job.phase.Wait? && w.job.counter != 0)
  {
    Concerns(w);
    if w.job.phase.Spawn? {
      var n := w.job.phase.n;
      assert BeginsAt(w.job, n);
      assert n == 0 || n == 1 || n == 2;
    } else {
      OtherStepsStartNothing(w, f, m);
    }
  }

  lemma RankOfSet(w: World, i: nat, worker: Worker)
    requires |w.job.workers| == 3 && i < 3 && WorkerRank(worker) < WorkerRank(w.job.workers[i])
    ensures var w' := SetWorker(w, i, worker);
      |w'.job.workers| == 3 && Rank(w'.job) < Rank(w.job)
  {
    assert i == 0 || i == 1 || i == 2;
  }

  lemma UnsealMoves(w: World, i: nat, f: Fault)
    requires Running(w.job) && |w.job.workers| == 3 && i < 3 && i < |w.job.names| && w.job.workers[i].Connected?
    ensures var w' := CallUnseal(w, i, f);
      |w'.job.workers| == 3 && Rank(w'.job) < Rank(w.job)
  {
    RankOfSet(w, i, Returning(WasOpen));
    RankOfSet(w, i, Returning(Opened(w.job.key)));
  }

  lemma WorkerStepMoves(w: World, i: nat, built: bool, f: Fault)
    requires Inv(w) && Running(w.job)
    ensures |w.job.workers| == 3
    ensures var w' := WorkerStep(w, i, built, f);
      && |w'.job.workers| == 3
      && (w' == w || Rank(w'.job) < Rank(w.job))
      && (w' == w <==> i >= 3 || w.job.workers[i].Idle? || w.job.workers[i].Finished?)
  {
    Concerns(w);
    if i < 3 {
      assert BeginsAt(w.job, i);
      if i < |w.job.names| {
        match w.job.workers[i]
        case Idle =>
        case Started => RankOfSet(w, i, if built then Connected else Returning(NoClient));
        case Connected => UnsealMoves(w, i, f);
        case Returning(how) => RankOfSet(w, i, Finished(how));
        case Finished(_) =>
      }
    }
  }

  predicate Moves(w: World, e: Event) {
    (e.Main? || e.Work?) && Next(w, e) != w
  }

  // A step that meets no fault.
  predicate Calm(e: Event) {
    (e.Main? || e.Work?) && e.fault.Fine?
  }

  // Such a step, with every client that is set up set up successfully.
  predicate Eager(e: Event) {
    Calm(e) && (e.Work? ==> e.built)
  }

  predicate AllCalm(es: seq<Event>) {
    forall k :: 0 <= k < |es| ==> Calm(es[k])
  }

  // Every step of the process that changes anything uses up some of a rank of at most 24.
  lemma StepsAreBounded(w: World, e: Event)
    requires Inv(w) && Running(w.job) && Moves(w, e)
    ensures |w.job.workers| == 3 && |Next(w, e).job.workers| == 3
    ensures Rank(Next(w, e).job) < Rank(w.job) <= 24
  {
    Concerns(w);
    match e
    case Main(f, m) => MainStepMoves(w, f, m);
    case Work(i, built, f) => WorkerStepMoves(w, i, built, f);
    case Launch(_, _) =>
    case Kill =>
    case Reseal(_) =>
  }

  predicate Hung(j: Job) {
    && j.phase == Wait(true)
    && |j.names| < 3
    && |j.workers| == 3
    && forall i :: 0 <= i < |j.names| ==> j.workers[i].Finished?
  }

  // The process can always go on, but in one state: the look-up of a name has panicked and the
  // deferred Wait waits for workers that were never started.
  lemma StuckOnlyWhenHung(w: World)
    requires Inv(w) && Running(w.job)
    ensures Hung(w.job) <==> forall e :: !Moves(w, e)
  {
    Concerns(w);
    if Hung(w.job) {
      forall e ensures !Moves(w, e) {
        HungIsStill(w, e);
      }
    } else {
      CanMove(w);
    }
  }

  lemma CanMove(w: World)
    requires Inv(w) && Running(w.job) && !Hung(w.job)
    ensures exists e :: Eager(e) && Moves(w, e)
  {
    Concerns(w);
    if !w.job.phase.Wait? || w.job.counter == 0 {
      MainStepMoves(w, Fine, Minted("", ""));
      assert Eager(Main(Fine, Minted("", ""))) && Moves(w, Main(Fine, Minted("", "")));
    } else {
      var i := Unfinished(w);
      WorkerStepMoves(w, i, true, Fine);
      assert Eager(Work(i, true, Fine)) && Moves(w, Work(i, true, Fine));
    }
  }

  lemma HungIsStill(w: World, e: Event)
    requires Inv(w) && Hung(w.job)
    ensures !Moves(w, e)
  {
    Concerns(w);
    assert BeginsAt(w.job, 0) && BeginsAt(w.job, 1) && BeginsAt(w.job, 2);
    assert w.job.workers[2].Idle?;
    match e
    case Main(f, m) => MainStepMoves(w, f, m);
    case Work(i, built, f) => WorkerStepMoves(w, i, built, f);
    case Launch(_, _) =>
    case Kill =>
    case Reseal(_) =>
  }

  lemma Unfinished(w: World) returns (i: nat)
    requires Inv(w) && w.job.phase.Wait? && w.job.counter != 0 && !Hung(w.job)
    ensures i < |w.job.workers| == 3 && !w.job.workers[i].Idle? && !w.job.workers[i].Finished?
  {
    Concerns(w);
    assert BeginsAt(w.job, 0) && BeginsAt(w.job, 1) && BeginsAt(w.job, 2);
    if Begun(w.job) < 3 {
      i :| 0 <= i < |w.job.names| && !w.job.workers[i].Finished?;
    } else {
      i := if !w.job.workers[0].Finished? then 0 else if !w.job.workers[1].Finished? then 1 else 2;
    }
  }

  // --- The key and the token ---

  lemma {:induction false} MintedOnce(w: World, es: seq<Event>)
    requires Inv(w) && w.cluster.minted.Some?
    ensures Run(w, es).cluster.minted == w.cluster.minted
    decreases |es|
  {
    if es == [] {
    } else {
      var e := es[0];
      if e.Work? {
        WorkerStepEffect(w, e.i, e.built, e.fault);
      } else if e.Main? {
        Concerns(w);
      }
      NextKeeps(w, e);
      MintedOnce(Next(w, e), es[1..]);
    }
  }

  // Vault is initialized and the run that did it is over.
  predicate Settled(w: World) {
    w.cluster.minted.Some? && !(Running(w.job) && w.job.path.Initializing?)
  }

  lemma SettledStaysPut(w: World, e: Event)
    requires Inv(w) && Settled(w)
    ensures Settled(Next(w, e))
    ensures Next(w, e).cluster.minted == w.cluster.minted && Next(w, e).cluster.secrets == w.cluster.secrets
  {
    Concerns(w);
    if e.Work? {
      WorkerStepEffect(w, e.i, e.built, e.fault);
    }
  }

  // From then on no run touches the secrets, whatever becomes of the nodes.
  lemma {:induction false} SecretsAreFrozen(w: World, es: seq<Event>)
    requires Inv(w) && Settled(w)
    ensures Settled(Run(w, es))
    ensures Run(w, es).cluster.minted == w.cluster.minted && Run(w, es).cluster.secrets == w.cluster.secrets
    decreases |es|
  {
    if es == [] {
    } else {
      SettledStaysPut(w, es[0]);
      NextKeeps(w, es[0]);
      SecretsAreFrozen(Next(w, es[0]), es[1..]);
    }
  }

  // The worker has ended, and unless it had no client its node is open or sealed since; what was
  // sealed before was opened with the key that Vault minted.
  predicate Served(w: World, i: nat, key: string)
    requires i < |w.job.workers|
  {
    && w.job.workers[i].Finished?
    && (w.job.workers[i].how.NoClient? ||
        (i < |w.job.names| && w.job.names[i] in w.cluster.open + w.resealed))
    && (w.job.workers[i].how.Opened? ==> w.job.workers[i].how.key == key)
  }

  lemma NormalExitServes(w: World)
    requires Inv(w) && w.job.phase == Ended(Exit) && !w.job.path.Undecided?
    ensures w.cluster.minted.Some? && |w.job.workers| == 3
    ensures forall i :: 0 <= i < 3 ==> Served(w, i, w.cluster.minted.value.key)
  {
    Concerns(w);
    forall i: nat | i < 3 ensures Served(w, i, w.cluster.minted.value.key) {
      assert i == 0 || i == 1 || i == 2;
      assert Truthful(w, i);
    }
  }

  // --- A key that was lost ---

  // The unseal key as it is read back; a missing entry reads as the empty string.
  function KeyIn(data: Data): string {
    if "key" in data then data["key"] else ""
  }

  predicate Openable(c: Cluster) {
    c.minted.Some? && UnsealKey in c.secrets && KeyIn(c.secrets[UnsealKey]) == c.minted.value.key
  }

  lemma {:induction false} ClosedForGood(w: World, es: seq<Event>)
    requires Inv(w) && Settled(w) && !Openable(w.cluster)
    ensures Run(w, es).cluster.open <= w.cluster.open
    decreases |es|
  {
    if es == [] {
    } else {
      var e := es[0];
      Concerns(w);
      if e.Work? {
        ClosedToWorkers(w, e.i, e.built, e.fault);
      }
      SettledStaysPut(w, e);
      NextKeeps(w, e);
      ClosedForGood(Next(w, e), es[1..]);
    }
  }

  lemma ClosedToWorkers(w: World, i: nat, built: bool, f: Fault)
    requires Inv(w) && Settled(w) && !Openable(w.cluster)
    ensures WorkerStep(w, i, built, f).cluster.open == w.cluster.open
  {
    Concerns(w);
    if Running(w.job) && i < 3 && i < |w.job.names| && w.job.workers[i].Connected? {
      assert BeginsAt(w.job, i);
      assert HasKey(w.job);
    }
  }

  lemma Unfold(w: World, e: Event, es: seq<Event>)
    ensures Run(w, [e] + es) == Run(Next(w, e), es)
  {
    assert ([e] + es)[0] == e && ([e] + es)[1..] == es;
  }

  lemma {:induction false} Joined(w: World, a: seq<Event>, b: seq<Event>)
    ensures Run(w, a + b) == Run(Run(w, a), b)
    decreases |a|
  {
    if a == [] {
      assert a + b == b;
    } else {
      assert (a + b)[0] == a[0] && (a + b)[1..] == a[1..] + b;
      Joined(Next(w, a[0]), a[1..], b);
    }
  }
}
