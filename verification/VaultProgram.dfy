/** The init job as the imperative code it is: the main flow up to its deferred Wait, and one worker.
    Before every step the other goroutines and the rest of the world may act. */
module VaultProgram {
  import opened Options
  import opened Faults
  import opened VaultInit
  import opened VaultRuns

  type Workers = ws: seq<Worker> | |ws| == 3 witness [Idle, Idle, Idle]

  datatype Shared = Shared(cluster: Cluster, workers: Workers, counter: int, resealed: set<string>)

  // What others make of the shared state, whether they end the process, what happens to the call,
  // what Initialize would answer, and whether a client can be built.
  datatype Turn = Turn(others: Shared -> (Shared, Option<Outcome>), f: Fault, minted: Minted, built: bool)

  function See(w: World, s: Shared): World {
    World(s.cluster, w.job.(workers := s.workers, counter := s.counter), s.resealed)
  }

  function SharedOf(w: World): Shared
    requires |w.job.workers| == 3
  {
    Shared(w.cluster, w.job.workers, w.job.counter, w.resealed)
  }

  // The rest of the main flow, as far as its deferred Wait or the end of the process.
  function RunMain(w: World, turns: nat -> Turn, k: nat): (World, nat)
    requires |w.job.workers| == 3
    decreases PhaseRank(w.job.phase)
  {
    if w.job.phase.Wait? || w.job.phase.Ended? then (w, k)
    else
      var (s, end) := turns(k).others(SharedOf(w));
      var now := See(w, s);
      if end.Some? then (Finish(now, end.value), k + 1)
      else
        var next := MainStep(now, turns(k).f, turns(k).minted);
        if |next.job.workers| == 3 && PhaseRank(next.job.phase) < PhaseRank(w.job.phase)
        then RunMain(next, turns, k + 1) else (next, k + 1)
  }

  lemma PhaseFalls(w: World, f: Fault, m: Minted)
    requires |w.job.workers| == 3 && !w.job.phase.Wait? && !w.job.phase.Ended?
    requires w.job.phase.Spawn? ==> w.job.phase.n < 3
    ensures var next := MainStep(w, f, m);
      |next.job.workers| == 3 && PhaseRank(next.job.phase) < PhaseRank(w.job.phase)
  {
    match w.job.phase
    case Create(held) => CreateFalls(w, held, f);
    case Update(held, got) => UpdateFalls(w, held, got, f);
    case Health =>
    case Initialize =>
    case FetchKey =>
    case Spawn(n) =>
    case Get(held) =>
  }

  lemma CreateFalls(w: World, held: Held, f: Fault)
    requires w.job.phase == Create(held)
    ensures var next := CallCreate(w, held, f);
      next.job.workers == w.job.workers && PhaseRank(next.job.phase) < PhaseRank(w.job.phase)
  {
  }

  lemma UpdateFalls(w: World, held: Held, got: Data, f: Fault)
    requires w.job.phase == Update(held, got)
    ensures var next := CallUpdate(w, held, got, f);
      next.job.workers == w.job.workers && PhaseRank(next.job.phase) < PhaseRank(w.job.phase)
  {
  }

  lemma MainTurn(w: World, turns: nat -> Turn, k: nat)
    requires |w.job.workers| == 3 && !w.job.phase.Wait? && !w.job.phase.Ended?
    requires w.job.phase.Spawn? ==> w.job.phase.n < 3
    ensures var (s, end) := turns(k).others(SharedOf(w));
      var next := MainStep(See(w, s), turns(k).f, turns(k).minted);
      && |next.job.workers| == 3
      && RunMain(w, turns, k) ==
        if end.Some? then (Finish(See(w, s), end.value), k + 1) else RunMain(next, turns, k + 1)
  {
    var (s, _) := turns(k).others(SharedOf(w));
    PhaseFalls(See(w, s), turns(k).f, turns(k).minted);
  }

  // What is left of one worker.
  function RunWorker(w: World, i: nat, turns: nat -> Turn, k: nat): (World, nat)
    requires |w.job.workers| == 3 && i < 3 && i < |w.job.names| && Running(w.job)
    decreases WorkerRank(w.job.workers[i])
  {
    var own := w.job.workers[i];
    if own.Idle? || own.Finished? then (w, k)
    else
      var (s, end) := turns(k).others(SharedOf(w));
      var now := SetWorker(See(w, s), i, own);
      if end.Some? then (Finish(now, end.value), k + 1)
      else
        var next := WorkerStep(now, i, turns(k).built, turns(k).f);
        if !Running(next.job) then (next, k + 1) else RunWorker(next, i, turns, k + 1)
  }

  lemma WorkerTurn(w: World, i: nat, turns: nat -> Turn, k: nat)
    requires |w.job.workers| == 3 && i < 3 && i < |w.job.names| && Running(w.job)
    requires !w.job.workers[i].Idle? && !w.job.workers[i].Finished?
    ensures var (s, end) := turns(k).others(SharedOf(w));
      var now := SetWorker(See(w, s), i, w.job.workers[i]);
      var next := WorkerStep(now, i, turns(k).built, turns(k).f);
      && |next.job.workers| == 3 && next.job.names == w.job.names
      && RunWorker(w, i, turns, k) ==
        if end.Some? then (Finish(now, end.value), k + 1)
        else if !Running(next.job) then (next, k + 1) else RunWorker(next, i, turns, k + 1)
  {
    var (s, _) := turns(k).others(SharedOf(w));
    WorkerStepEffect(SetWorker(See(w, s), i, w.job.workers[i]), i, turns(k).built, turns(k).f);
  }

  // The outcome of setting up a client, or of the process meanwhile.
  datatype Connection = Built | NotBuilt | Gone(outcome: Outcome)

  class Process {
    const names: Names
    const client: bool
    const turns: nat -> Turn
    var cluster: Cluster
    var workers: Workers
    var counter: int
    var resealed: set<string>
    var calls: nat

    constructor (names: Names, client: bool, cluster: Cluster, turns: nat -> Turn)
      ensures this.names == names && this.client == client && this.turns == turns && calls == 0
      ensures At(Health, Undecided, "", "") == World(cluster, Launched(names, client), {})
    {
      this.names, this.client, this.turns, this.cluster := names, client, turns, cluster;
      workers, counter, resealed, calls := [Idle, Idle, Idle], 0, {}, 0;
    }

    // The run as the step model has it, given the local variables of the main flow.
    function At(phase: Phase, path: Path, key: string, token: string): (w: World)
      reads this
      ensures |w.job.workers| == 3
    {
      World(cluster, Job(names, client, phase, path, key, token, workers, counter), resealed)
    }

    function Here(): Shared
      reads this
    {
      Shared(cluster, workers, counter, resealed)
    }

    // The others act, and may end the process.
    method Await() returns (end: Option<Outcome>, f: Fault)
      modifies this
      ensures (Here(), end) == old(turns(calls).others(Here())) && f == old(turns(calls).f) && calls == old(calls) + 1
    {
      var out := turns(calls).others(Shared(cluster, workers, counter, resealed));
      f, end := turns(calls).f, out.1;
      cluster, workers, counter, resealed := out.0.cluster, out.0.workers, out.0.counter, out.0.resealed;
      calls := calls + 1;
    }

    // Ends at the Wait it has deferred, or with the process.
    method MainFlow() returns (phase: Phase, path: Path, key: string, token: string)
      modifies this
      ensures phase.Wait? || phase.Ended?
      ensures (At(phase, path, key, token), calls) ==
        RunMain(old(At(Health, Undecided, "", "")), turns, old(calls))
    {
      path, key, token := Undecided, "", "";
      MainTurn(At(Health, path, key, token), turns, calls);
      var end, f := Await();
      if end.Some? { return Ended(end.value), path, key, token; }
      if !client { return Ended(Panicked), path, key, token; }
      if f != Fine { return Ended(Fatal), path, key, token; }
      if cluster.minted.Some? {
        if names[0] in cluster.open { return Ended(Exit), path, key, token; }
        path := Unsealing;
        counter := counter + 3;
        phase, key := UnSeal();
      } else {
        path := Initializing;
        counter := counter + 3;
        phase, key, token := InitVault();
      }
    }

    method InitVault() returns (phase: Phase, key: string, token: string)
      modifies this
      ensures phase.Wait? || phase.Ended?
      ensures (At(phase, Initializing, key, token), calls) ==
        RunMain(old(At(Initialize, Initializing, "", "")), turns, old(calls))
    {
      key, token := "", "";
      MainTurn(At(Initialize, Initializing, key, token), turns, calls);
      var answer := turns(calls).minted;
      var end, f := Await();
      if end.Some? { return Ended(end.value), key, token; }
      if f.Lost? || cluster.minted.Some? { return Ended(Fatal), key, token; }
      cluster := cluster.(minted := Some(answer));
      if f.Unanswered? { return Ended(Fatal), key, token; }
      key, token := answer.key, answer.token;
      phase := StartWorkers(Initializing, key, token);
      if phase.Wait? || phase.Ended? { return; }
      phase := Persist(UnsealKey, key, token);
      if phase.Wait? || phase.Ended? { return; }
      phase := Persist(RootToken, key, token);
    }

    method UnSeal() returns (phase: Phase, key: string)
      modifies this
      ensures phase.Wait? || phase.Ended?
      ensures (At(phase, Unsealing, key, ""), calls) ==
        RunMain(old(At(FetchKey, Unsealing, "", "")), turns, old(calls))
    {
      key := "";
      MainTurn(At(FetchKey, Unsealing, key, ""), turns, calls);
      var end, f := Await();
      if end.Some? { return Ended(end.value), key; }
      if f != Fine || UnsealKey !in cluster.secrets { return Ended(Fatal), key; }
      var data := cluster.secrets[UnsealKey];
      key := if Field(UnsealKey) in data then data[Field(UnsealKey)] else "";
      phase := StartWorkers(Unsealing, key, "");
    }

    function AfterGo(n: nat, path: Path): Phase {
      if n < 2 then Spawn(n + 1) else if path.Initializing? then Create(UnsealKey) else Wait(false)
    }

    // One go statement; the look-up of a name that is not there panics.
    method Go(n: nat, path: Path, key: string, token: string) returns (phase: Phase)
      requires n < 3 && !path.Undecided?
      modifies this
      ensures phase == Wait(true) || phase.Ended? || phase == AfterGo(n, path)
      ensures RunMain(old(At(Spawn(n), path, key, token)), turns, old(calls)) ==
        RunMain(At(phase, path, key, token), turns, calls)
    {
      MainTurn(At(Spawn(n), path, key, token), turns, calls);
      var end, f := Await();
      if end.Some? { return Ended(end.value); }
      if n >= |names| { return Wait(true); }
      workers := workers[n := Started];
      phase := AfterGo(n, path);
    }

    method StartWorkers(path: Path, key: string, token: string) returns (phase: Phase)
      requires !path.Undecided?
      modifies this
      ensures phase.Wait? || phase.Ended? || (path.Initializing? && phase == Create(UnsealKey))
      ensures RunMain(old(At(Spawn(0), path, key, token)), turns, old(calls)) ==
        RunMain(At(phase, path, key, token), turns, calls)
    {
      phase := Go(0, path, key, token);
      if phase.Wait? || phase.Ended? { return; }
      phase := Go(1, path, key, token);
      if phase.Wait? || phase.Ended? { return; }
      phase := Go(2, path, key, token);
    }

    function AfterWrite(held: Held): Phase {
      if held.UnsealKey? then Create(RootToken) else Wait(false)
    }

    // Creates one of the two secrets, or sets its entry in place where it exists.
    method Persist(held: Held, key: string, token: string) returns (phase: Phase)
      modifies this
      ensures phase.Wait? || phase.Ended? || (held.UnsealKey? && phase == Create(RootToken))
      ensures RunMain(old(At(Create(held), Initializing, key, token)), turns, old(calls)) ==
        RunMain(At(phase, Initializing, key, token), turns, calls)
    {
      var value := if held.UnsealKey? then key else token;
      MainTurn(At(Create(held), Initializing, key, token), turns, calls);
      var end, f := Await();
      if end.Some? { return Ended(end.value); }
      if f.Lost? { return Ended(Fatal); }
      if held !in cluster.secrets {
        cluster := cluster.(secrets := cluster.secrets[held := map[Field(held) := value]]);
        return if f.Fine? then AfterWrite(held) else Ended(Fatal);
      }
      if f != Fine { return Ended(Fatal); }
      phase := Replace(held, key, token);
    }

    // Reads the secret and writes it back with its entry set; a missing map is a panic.
    method Replace(held: Held, key: string, token: string) returns (phase: Phase)
      modifies this
      ensures phase.Wait? || phase.Ended? || (held.UnsealKey? && phase == Create(RootToken))
      ensures RunMain(old(At(Get(held), Initializing, key, token)), turns, old(calls)) ==
        RunMain(At(phase, Initializing, key, token), turns, calls)
    {
      MainTurn(At(Get(held), Initializing, key, token), turns, calls);
      var end, f := Await();
      if end.Some? { return Ended(end.value); }
      var data: Data := if f.Fine? && held in cluster.secrets then cluster.secrets[held] else map[];
      if data == map[] { return Wait(true); }
      data := data[Field(held) := if held.UnsealKey? then key else token];
      MainTurn(At(Update(held, data), Initializing, key, token), turns, calls);
      end, f := Await();
      if end.Some? { return Ended(end.value); }
      if f.Lost? || held !in cluster.secrets { return Ended(Fatal); }
      cluster := cluster.(secrets := cluster.secrets[held := data]);
      phase := if f.Fine? then AfterWrite(held) else Ended(Fatal);
    }

    // One worker, of a process at any phase. It ends with the deferred Done, or ends the process.
    method UnSealWorker(i: nat, phase: Phase, path: Path, key: string, token: string) returns (end: Option<Outcome>)
      requires i < 3 && i < |names| && workers[i] == Started && !phase.Ended?
      modifies this
      ensures (At(if end.Some? then Ended(end.value) else phase, path, key, token), calls) ==
        RunWorker(old(At(phase, path, key, token)), i, turns, old(calls))
      ensures end.None? ==> workers[i].Finished?
    {
      var how := NoClient;
      var built := Connect(i, phase, path, key, token);
      if built.Gone? { return Some(built.outcome); }
      if built.Built? {
        end, how := Unseal(i, phase, path, key, token);
        if end.Some? { return; }
        workers := workers[i := Returning(how)];
      }
      end := Done(i, how, phase, path, key, token);
    }

    method Connect(i: nat, phase: Phase, path: Path, key: string, token: string) returns (r: Connection)
      requires i < 3 && i < |names| && workers[i] == Started && !phase.Ended?
      modifies this
      ensures RunWorker(old(At(phase, path, key, token)), i, turns, old(calls)) ==
        if r.Gone? then (At(Ended(r.outcome), path, key, token), calls)
        else RunWorker(At(phase, path, key, token), i, turns, calls)
      ensures !r.Gone? ==> workers[i] == if r.Built? then Connected else Returning(NoClient)
    {
      r := if turns(calls).built then Built else NotBuilt;
      WorkerTurn(At(phase, path, key, token), i, turns, calls);
      var end, f := Await();
      workers := workers[i := Started];
      if end.Some? { return Gone(end.value); }
      workers := workers[i := if r.Built? then Connected else Returning(NoClient)];
    }

    method Done(i: nat, how: How, phase: Phase, path: Path, key: string, token: string) returns (end: Option<Outcome>)
      requires i < 3 && i < |names| && workers[i] == Returning(how) && !phase.Ended?
      modifies this
      ensures (At(if end.Some? then Ended(end.value) else phase, path, key, token), calls) ==
        RunWorker(old(At(phase, path, key, token)), i, turns, old(calls))
      ensures end.None? ==> workers[i].Finished?
    {
      WorkerTurn(At(phase, path, key, token), i, turns, calls);
      var f;
      end, f := Await();
      workers := workers[i := Returning(how)];
      if end.Some? { return; }
      workers := workers[i := Finished(how)];
      counter := counter - 1;
    }

    method Unseal(i: nat, phase: Phase, path: Path, key: string, token: string) returns (end: Option<Outcome>, how: How)
      requires i < 3 && i < |names| && workers[i] == Connected && !phase.Ended?
      modifies this
      ensures RunWorker(old(At(phase, path, key, token)), i, turns, old(calls)) ==
        if end.Some? then (At(Ended(end.value), path, key, token), calls)
        else RunWorker(SetWorker(At(phase, path, key, token), i, Returning(how)), i, turns, calls)
    {
      how := WasOpen;
      WorkerTurn(At(phase, path, key, token), i, turns, calls);
      var f;
      end, f := Await();
      workers := workers[i := Connected];
      if end.Some? { return; }
      if f.Lost? { return Some(Fatal), how; }
      if names[i] !in cluster.open {
        if cluster.minted.None? || cluster.minted.value.key != key { return Some(Fatal), how; }
        cluster := cluster.(open := cluster.open + {names[i]});
        how := Opened(key);
      }
      end := if f.Fine? then None else Some(Fatal);
    }
  }
}
