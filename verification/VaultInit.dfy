/** The init job: it initializes Vault once, and unseals it again whenever it finds it sealed. */
module VaultInit {
  import opened Options
  import opened Faults

  // --- Vault and the two secrets ---

  // What Initialize answers, with one key share and a threshold of one.
  datatype Minted = Minted(key: string, token: string)

  datatype Held = UnsealKey | RootToken

  function Field(held: Held): string {
    if held.UnsealKey? then "key" else "token"
  }

  function Value(minted: Minted, held: Held): string {
    if held.UnsealKey? then minted.key else minted.token
  }

  type Data = map<string, string>

  datatype Cluster = Cluster(minted: Option<Minted>, open: set<string>, secrets: map<Held, Data>)

  // The unseal key as the job reads it back; a missing entry reads as the empty string.
  function Stored(c: Cluster, held: Held): Option<string> {
    if held !in c.secrets then None
    else if Field(held) in c.secrets[held] then Some(c.secrets[held][Field(held)])
    else Some("")
  }

  // The secret holds what the one Initialize answered.
  predicate Kept(c: Cluster, held: Held) {
    && c.minted.Some?
    && held in c.secrets
    && Field(held) in c.secrets[held]
    && c.secrets[held][Field(held)] == Value(c.minted.value, held)
  }

  // --- One run of the job ---

  datatype Outcome = Exit | Fatal | Panicked | Killed
  datatype How = NoClient | WasOpen | Opened(key: string)
  datatype Worker = Idle | Started | Connected | Returning(how: How) | Finished(how: How)
  datatype Path = Undecided | Initializing | Unsealing

  datatype Phase =
    | Health
    | Initialize
    | FetchKey
    | Spawn(n: nat)
    | Create(held: Held)
    | Get(held: Held)
    | Update(held: Held, got: Data)
    | Wait(panicked: bool)
    | Ended(outcome: Outcome)

  type Names = ns: seq<string> | |ns| > 0 witness [""]

  // The counter of the WaitGroup is an integer that Go would let run below zero before it panics.
  datatype Job = Job(names: Names, client: bool, phase: Phase, path: Path, key: string, token: string,
    workers: seq<Worker>, counter: int)

  // The nodes sealed since the run began are remembered for the statement of what it achieved.
  datatype World = World(cluster: Cluster, job: Job, resealed: set<string>)

  function Launched(names: Names, client: bool): Job {
    Job(names, client, Health, Undecided, "", "", [Idle, Idle, Idle], 0)
  }

  predicate Running(j: Job) {
    !j.phase.Ended?
  }

  function Goto(w: World, phase: Phase): World {
    w.(job := w.job.(phase := phase))
  }

  function Finish(w: World, outcome: Outcome): World {
    Goto(w, Ended(outcome))
  }

  // A panic runs the deferred Wait first.
  function Panic(w: World): World {
    if w.job.path.Undecided? then Finish(w, Panicked) else Goto(w, Wait(true))
  }

  function Enter(w: World, path: Path): World {
    w.(job := w.job.(path := path, counter := w.job.counter + 3,
      phase := if path.Initializing? then Initialize else FetchKey))
  }

  function ReadHealth(w: World, f: Fault): World {
    if !w.job.client then Panic(w)
    else if !f.Fine? then Finish(w, Fatal)
    else if w.cluster.minted.None? then Enter(w, Initializing)
    else if w.job.names[0] in w.cluster.open then Finish(w, Exit)
    else Enter(w, Unsealing)
  }

  function CallInitialize(w: World, f: Fault, answer: Minted): World {
    if f.Lost? || w.cluster.minted.Some? then Finish(w, Fatal)
    else
      var w' := w.(cluster := w.cluster.(minted := Some(answer)));
      if f.Unanswered? then Finish(w', Fatal)
      else w'.(job := w'.job.(key := answer.key, token := answer.token, phase := Spawn(0)))
  }

  function Fetch(w: World, f: Fault): World {
    if !f.Fine? || Stored(w.cluster, UnsealKey).None? then Finish(w, Fatal)
    else w.(job := w.job.(key := Stored(w.cluster, UnsealKey).value, phase := Spawn(0)))
  }

  // The name is looked up before the goroutine starts.
  function Go(w: World, n: nat): World
    requires n < |w.job.workers|
  {
    if n >= |w.job.names| then Panic(w)
    else
      w.(job := w.job.(workers := w.job.workers[n := Started],
        phase :=
          if n < 2 then Spawn(n + 1)
          else if w.job.path.Initializing? then Create(UnsealKey)
          else Wait(false)))
  }

  function Content(j: Job, held: Held): string {
    Value(Minted(j.key, j.token), held)
  }

  function Put(w: World, held: Held, data: Data): World {
    w.(cluster := w.cluster.(secrets := w.cluster.secrets[held := data]))
  }

  function Written(w: World, held: Held): World {
    Goto(w, if held.UnsealKey? then Create(RootToken) else Wait(false))
  }

  function CallCreate(w: World, held: Held, f: Fault): World {
    if f.Lost? then Finish(w, Fatal)
    else if held in w.cluster.secrets then if f.Fine? then Goto(w, Get(held)) else Finish(w, Fatal)
    else
      var w' := Put(w, held, map[Field(held) := Content(w.job, held)]);
      if f.Fine? then Written(w', held) else Finish(w', Fatal)
  }

  // The error of the read is dropped: nothing read, or nothing in it, is a nil map to write into.
  function CallGet(w: World, held: Held, f: Fault): World {
    var got := if f.Fine? && held in w.cluster.secrets then w.cluster.secrets[held] else map[];
    if got == map[] then Panic(w)
    else Goto(w, Update(held, got[Field(held) := Content(w.job, held)]))
  }

  function CallUpdate(w: World, held: Held, got: Data, f: Fault): World {
    if f.Lost? || held !in w.cluster.secrets then Finish(w, Fatal)
    else
      var w' := Put(w, held, got);
      if f.Fine? then Written(w', held) else Finish(w', Fatal)
  }

  // The deferred Wait lets go only at zero.
  function Await(w: World, panicked: bool): World {
    if w.job.counter != 0 then w
    else Finish(w, if panicked then Panicked else Exit)
  }

  function MainStep(w: World, f: Fault, answer: Minted): World {
    match w.job.phase
    case Health => ReadHealth(w, f)
    case Initialize => CallInitialize(w, f, answer)
    case FetchKey => Fetch(w, f)
    case Spawn(n) => if n < |w.job.workers| then Go(w, n) else w
    case Create(held) => CallCreate(w, held, f)
    case Get(held) => CallGet(w, held, f)
    case Update(held, got) => CallUpdate(w, held, got, f)
    case Wait(panicked) => Await(w, panicked)
    case Ended(_) => w
  }

  function SetWorker(w: World, i: nat, worker: Worker): World
    requires i < |w.job.workers|
  {
    w.(job := w.job.(workers := w.job.workers[i := worker]))
  }

  // An open node answers any key; a sealed one opens to the right key only.
  function CallUnseal(w: World, i: nat, f: Fault): World
    requires i < |w.job.workers| && i < |w.job.names|
  {
    var node := w.job.names[i];
    if f.Lost? then Finish(w, Fatal)
    else if node in w.cluster.open then
      if f.Fine? then SetWorker(w, i, Returning(WasOpen)) else Finish(w, Fatal)
    else if w.cluster.minted != None && w.cluster.minted.value.key == w.job.key then
      var w' := w.(cluster := w.cluster.(open := w.cluster.open + {node}));
      if f.Fine? then SetWorker(w', i, Returning(Opened(w.job.key))) else Finish(w', Fatal)
    else Finish(w, Fatal)
  }

  function WorkerStep(w: World, i: nat, built: bool, f: Fault): World {
    if !Running(w.job) || i >= |w.job.workers| || i >= |w.job.names| then w
    else
      match w.job.workers[i]
      case Idle => w
      case Started => SetWorker(w, i, if built then Connected else Returning(NoClient))
      case Connected => CallUnseal(w, i, f)
      case Returning(how) =>
        var w' := SetWorker(w, i, Finished(how));
        w'.(job := w'.job.(counter := w'.job.counter - 1))
      case Finished(_) => w
  }

  datatype Event =
    | Launch(names: Names, client: bool)
    | Main(fault: Fault, minted: Minted)
    | Work(i: nat, built: bool, fault: Fault)
    | Kill
    | Reseal(node: string)

  // One run at a time: a job is launched when the last one has ended.
  function Next(w: World, e: Event): World {
    match e
    case Launch(names, client) =>
      if Running(w.job) then w else World(w.cluster, Launched(names, client), {})
    case Main(f, m) => MainStep(w, f, m)
    case Work(i, built, f) => WorkerStep(w, i, built, f)
    case Kill => if Running(w.job) then Finish(w, Killed) else w
    case Reseal(node) => w.(cluster := w.cluster.(open := w.cluster.open - {node}), resealed := w.resealed + {node})
  }

  function Run(w: World, es: seq<Event>): World
    decreases |es|
  {
    if es == [] then w else Run(Next(w, es[0]), es[1..])
  }

  // Vault is new; the secrets may be left over from an earlier installation.
  predicate Init(w: World) {
    && w.cluster.minted == None && w.cluster.open == {}
    && w.job.phase == Ended(Killed) && w.job.path.Undecided?
    && w.job.workers == [Idle, Idle, Idle] && w.job.counter == 0
  }

  // --- What every run keeps ---

  datatype Concern = Counting | Starting | Keys | Secrets | Nodes

  function Tick(worker: Worker): nat {
    if worker.Finished? then 1 else 0
  }

  // The counter is what Add put there less one for every finished worker.
  predicate Counted(j: Job) {
    && |j.workers| == 3
    && j.counter == (if j.path.Undecided? then 0 else 3) - Tick(j.workers[0]) - Tick(j.workers[1]) - Tick(j.workers[2])
    && (j.path.Undecided? ==> j.workers == [Idle, Idle, Idle])
    && (j.phase == Ended(Exit) ==> j.counter == 0)
  }

  // How many workers a running job has started.
  function Begun(j: Job): nat {
    if j.phase.Health? || j.phase.Initialize? || j.phase.FetchKey? then 0
    else if j.phase.Spawn? then j.phase.n
    else if j.phase == Wait(true) && |j.names| < 3 then |j.names|
    else 3
  }

  predicate Ordered(j: Job) {
    && (j.phase.Health? ==> j.path.Undecided?)
    && (!j.phase.Health? && !j.phase.Ended? ==> !j.path.Undecided?)
    && (j.phase.Initialize? || j.phase.Create? || j.phase.Get? || j.phase.Update? ==> j.path.Initializing?)
    && (j.phase.FetchKey? ==> j.path.Unsealing?)
    && (j.phase.Spawn? ==> j.phase.n < 3 && j.phase.n <= |j.names|)
    && (j.phase == Wait(true) && |j.names| >= 3 ==> j.path.Initializing?)
    && (j.phase.Create? || j.phase.Get? || j.phase.Update? || j.phase == Wait(false) || (j.phase == Ended(Exit) && !j.path.Undecided?) ==>
      |j.names| >= 3)
  }

  predicate BeginsAt(j: Job, i: nat)
    requires i < |j.workers|
  {
    && (Running(j) ==> (j.workers[i].Idle? <==> i >= Begun(j)))
    && (!j.workers[i].Idle? ==> i < |j.names|)
  }

  predicate Begins(j: Job) {
    && |j.workers| == 3
    && forall i :: 0 <= i < 3 ==> BeginsAt(j, i)
  }

  // The job has read or been given the key it hands to its workers.
  predicate HasKey(j: Job) {
    || j.phase.Spawn? || j.phase.Create? || j.phase.Get? || j.phase.Update? || j.phase.Wait?
    || (j.phase == Ended(Exit) && !j.path.Undecided?)
  }

  predicate KeyIsKnown(w: World) {
    && (w.job.phase.Initialize? ==> w.cluster.minted.None?)
    && (w.job.path.Unsealing? ==> w.cluster.minted.Some?)
    && (w.job.path.Initializing? && HasKey(w.job) ==> w.cluster.minted == Some(Minted(w.job.key, w.job.token)))
    && (w.job.path.Unsealing? && HasKey(w.job) ==> Stored(w.cluster, UnsealKey) == Some(w.job.key))
  }

  // How far the two secrets have been written.
  predicate Past(j: Job, held: Held) {
    && j.path.Initializing?
    && (j.phase == Wait(false) || j.phase == Ended(Exit) ||
        (held.UnsealKey? && (j.phase == Create(RootToken) || j.phase == Get(RootToken) || (j.phase.Update? && j.phase.held.RootToken?))))
  }

  predicate SecretsAreWritten(w: World) {
    && (forall held :: Past(w.job, held) ==> Kept(w.cluster, held))
    && (w.job.phase.Get? ==> w.job.phase.held in w.cluster.secrets)
    && (w.job.phase.Update? ==>
      && w.job.phase.held in w.cluster.secrets
      && Field(w.job.phase.held) in w.job.phase.got
      && w.job.phase.got[Field(w.job.phase.held)] == Content(w.job, w.job.phase.held))
  }

  predicate Done(worker: Worker) {
    worker.Returning? || worker.Finished?
  }

  // What a worker reports is so, unless the node has been sealed again since.
  predicate Truthful(w: World, i: nat)
    requires i < |w.job.workers|
  {
    Done(w.job.workers[i]) ==>
      && (w.job.workers[i].how.NoClient? ||
          (i < |w.job.names| && w.job.names[i] in w.cluster.open + w.resealed))
      && (w.job.workers[i].how.Opened? ==>
        && w.job.workers[i].how.key == w.job.key
        && w.cluster.minted.Some?
        && w.cluster.minted.value.key == w.job.key)
  }

  predicate NodesAreOpened(w: World) {
    && (w.cluster.minted.None? ==> w.cluster.open == {})
    && forall i :: 0 <= i < |w.job.workers| ==> Truthful(w, i)
  }

  predicate Holds(c: Concern, w: World) {
    match c
    case Counting => Counted(w.job)
    case Starting => Ordered(w.job) && Begins(w.job)
    case Keys => KeyIsKnown(w)
    case Secrets => SecretsAreWritten(w)
    case Nodes => NodesAreOpened(w)
  }

  predicate Inv(w: World) {
    forall c :: Holds(c, w)
  }

  lemma Concerns(w: World)
    requires Inv(w)
    ensures Counted(w.job) && Ordered(w.job) && Begins(w.job)
    ensures KeyIsKnown(w) && SecretsAreWritten(w) && NodesAreOpened(w)
  {
    assert Holds(Counting, w) && Holds(Starting, w) && Holds(Keys, w) && Holds(Secrets, w) && Holds(Nodes, w);
  }

  lemma InitKeeps(w: World)
    requires Init(w)
    ensures Inv(w)
  {
    forall c ensures Holds(c, w) {
    }
  }

  lemma GoKeeps(w: World, n: nat)
    requires Counted(w.job) && Ordered(w.job) && Begins(w.job) && w.job.phase == Spawn(n)
    ensures Counted(Go(w, n).job) && Begins(Go(w, n).job)
  {
    assert BeginsAt(w.job, n);
    forall i: nat | i < 3 ensures BeginsAt(Go(w, n).job, i) {
      assert BeginsAt(w.job, i);
    }
  }

  // All but the go statements leave the workers alone, and all but the start of a run the counter.
  lemma OtherStepsStartNothing(w: World, f: Fault, m: Minted)
    requires Ordered(w.job) && !w.job.phase.Spawn?
    ensures var j := MainStep(w, f, m).job;
      j.workers == w.job.workers && j.names == w.job.names && (Running(j) ==> Running(w.job) && Begun(j) == Begun(w.job))
  {
  }

  lemma OnlyHealthAdds(w: World, f: Fault, m: Minted)
    requires !w.job.phase.Spawn? && !w.job.phase.Health?
    ensures var j := MainStep(w, f, m).job;
      && j.counter == w.job.counter
      && j.path == w.job.path
      && (j.phase == Ended(Exit) && !Running(j) && Running(w.job) ==> j.counter == 0)
  {
  }

  lemma MainKeepsCount(w: World, f: Fault, m: Minted)
    requires Counted(w.job) && Ordered(w.job) && Begins(w.job)
    ensures Counted(MainStep(w, f, m).job)
  {
    if w.job.phase.Spawn? {
      GoKeeps(w, w.job.phase.n);
    } else if w.job.phase.Health? {
      assert w.job.workers == [Idle, Idle, Idle];
    } else {
      OtherStepsStartNothing(w, f, m);
      OnlyHealthAdds(w, f, m);
    }
  }

  lemma StartKeepsOrder(w: World, f: Fault, m: Minted)
    requires Ordered(w.job) && |w.job.workers| == 3
    requires w.job.phase.Health? || w.job.phase.Initialize? || w.job.phase.FetchKey? || w.job.phase.Spawn?
    ensures Ordered(MainStep(w, f, m).job)
  {
  }

  lemma MainKeepsOrder(w: World, f: Fault, m: Minted)
    requires Ordered(w.job) && |w.job.workers| == 3
    ensures Ordered(MainStep(w, f, m).job)
  {
    if w.job.phase.Health? || w.job.phase.Initialize? || w.job.phase.FetchKey? || w.job.phase.Spawn? {
      StartKeepsOrder(w, f, m);
    }
  }

  lemma MainKeepsBegins(w: World, f: Fault, m: Minted)
    requires Ordered(w.job) && Begins(w.job) && Counted(w.job)
    ensures Begins(MainStep(w, f, m).job)
  {
    if w.job.phase.Spawn? {
      GoKeeps(w, w.job.phase.n);
    } else {
      var j := MainStep(w, f, m).job;
      OtherStepsStartNothing(w, f, m);
      forall i: nat | i < 3 ensures BeginsAt(j, i) {
        assert BeginsAt(w.job, i);
      }
    }
  }

  lemma MainKeepsKeys(w: World, f: Fault, m: Minted)
    requires Ordered(w.job) && KeyIsKnown(w)
    ensures KeyIsKnown(MainStep(w, f, m))
  {
  }

  lemma MainKeepsSecrets(w: World, f: Fault, m: Minted)
    requires Ordered(w.job) && KeyIsKnown(w) && SecretsAreWritten(w)
    ensures SecretsAreWritten(MainStep(w, f, m))
  {
    var w' := MainStep(w, f, m);
    forall held | Past(w'.job, held) ensures Kept(w'.cluster, held) {
      assert Past(w.job, held) ==> Kept(w.cluster, held);
    }
  }

  lemma MainKeepsNodes(w: World, f: Fault, m: Minted)
    requires Ordered(w.job) && Begins(w.job) && NodesAreOpened(w) && KeyIsKnown(w)
    ensures NodesAreOpened(MainStep(w, f, m))
  {
    var w' := MainStep(w, f, m);
    forall i: nat | i < |w'.job.workers| ensures Truthful(w', i) {
      assert Truthful(w, i) && BeginsAt(w.job, i);
    }
  }

  // All a worker's step may do.
  predicate WorkerEffect(w: World, w': World, i: nat) {
    && w'.resealed == w.resealed
    && w'.cluster.secrets == w.cluster.secrets
    && w'.cluster.minted == w.cluster.minted
    && w.cluster.open <= w'.cluster.open
    && (w.cluster.minted.None? ==> w'.cluster.open == w.cluster.open)
    && w'.job == w.job.(phase := w'.job.phase, workers := w'.job.workers, counter := w'.job.counter)
    && (w'.job.phase == w.job.phase || w'.job.phase == Ended(Fatal))
    && ((w'.job.workers == w.job.workers && w'.job.counter == w.job.counter) ||
        (Running(w.job) && Advanced(w, w', i)))
  }

  predicate Advanced(w: World, w': World, i: nat) {
    && i < |w.job.workers|
    && i < |w.job.names|
    && |w'.job.workers| == |w.job.workers|
    && w'.job.workers == w.job.workers[i := w'.job.workers[i]]
    && !w.job.workers[i].Idle?
    && !w'.job.workers[i].Idle?
    && w'.job.counter == w.job.counter - Tick(w'.job.workers[i]) + Tick(w.job.workers[i])
    && (Done(w.job.workers[i]) ==> Done(w'.job.workers[i]) && w'.job.workers[i].how == w.job.workers[i].how)
    && (!Done(w.job.workers[i]) ==> Truthful(w', i))
  }

  lemma WorkerStepEffect(w: World, i: nat, built: bool, f: Fault)
    ensures WorkerEffect(w, WorkerStep(w, i, built, f), i)
  {
    if Running(w.job) && i < |w.job.workers| && i < |w.job.names| && w.job.workers[i].Connected? {
      UnsealEffect(w, i, f);
    }
  }

  lemma UnsealEffect(w: World, i: nat, f: Fault)
    requires Running(w.job) && i < |w.job.workers| && i < |w.job.names| && w.job.workers[i].Connected?
    ensures WorkerEffect(w, CallUnseal(w, i, f), i)
  {
  }

  lemma WorkerKeepsCount(w: World, w': World, i: nat)
    requires Counted(w.job) && WorkerEffect(w, w', i)
    requires Ordered(w.job) && Begins(w.job)
    ensures Counted(w'.job)
  {
    if w'.job.workers != w.job.workers {
      assert i == 0 || i == 1 || i == 2;
    }
  }

  lemma WorkerKeepsBegins(w: World, w': World, i: nat)
    requires Ordered(w.job) && Begins(w.job) && WorkerEffect(w, w', i)
    ensures Begins(w'.job) && Ordered(w'.job)
  {
    forall k: nat | k < 3 ensures BeginsAt(w'.job, k) {
      assert BeginsAt(w.job, k);
    }
  }

  lemma WorkerKeepsRest(w: World, w': World, i: nat)
    requires KeyIsKnown(w) && SecretsAreWritten(w) && WorkerEffect(w, w', i)
    ensures KeyIsKnown(w') && SecretsAreWritten(w')
  {
    forall held | Past(w'.job, held) ensures Kept(w'.cluster, held) {
      assert Past(w.job, held) ==> Kept(w.cluster, held);
    }
  }

  lemma WorkerKeepsNodes(w: World, w': World, i: nat)
    requires NodesAreOpened(w) && WorkerEffect(w, w', i)
    ensures NodesAreOpened(w')
  {
    forall k: nat | k < |w'.job.workers| ensures Truthful(w', k) {
      assert Truthful(w, k);
    }
  }

  lemma MainKeeps(w: World, f: Fault, m: Minted)
    requires Inv(w)
    ensures Inv(MainStep(w, f, m))
  {
    Concerns(w);
    MainKeepsCount(w, f, m);
    MainKeepsOrder(w, f, m);
    MainKeepsBegins(w, f, m);
    MainKeepsKeys(w, f, m);
    MainKeepsSecrets(w, f, m);
    MainKeepsNodes(w, f, m);
    Gather(MainStep(w, f, m));
  }

  lemma Gather(w: World)
    requires Counted(w.job) && Ordered(w.job) && Begins(w.job)
    requires KeyIsKnown(w) && SecretsAreWritten(w) && NodesAreOpened(w)
    ensures Inv(w)
  {
    forall c ensures Holds(c, w) {
    }
  }

  lemma WorkerKeeps(w: World, i: nat, built: bool, f: Fault)
    requires Inv(w)
    ensures Inv(WorkerStep(w, i, built, f))
  {
    var w' := WorkerStep(w, i, built, f);
    Concerns(w);
    WorkerStepEffect(w, i, built, f);
    WorkerKeepsCount(w, w', i);
    WorkerKeepsBegins(w, w', i);
    WorkerKeepsRest(w, w', i);
    WorkerKeepsNodes(w, w', i);
    Gather(w');
  }

  lemma ResealKeeps(w: World, node: string)
    requires Inv(w)
    ensures Inv(Next(w, Reseal(node)))
  {
    Concerns(w);
    var w' := Next(w, Reseal(node));
    assert w'.job == w.job;
    forall k: nat | k < |w'.job.workers| ensures Truthful(w', k) {
      assert Truthful(w, k);
    }
    forall held | Past(w'.job, held) ensures Kept(w'.cluster, held) {
      assert Kept(w.cluster, held);
    }
    Gather(w');
  }

  lemma LaunchKeeps(w: World, names: Names, client: bool)
    requires Inv(w) && !Running(w.job)
    ensures Inv(World(w.cluster, Launched(names, client), {}))
  {
    Concerns(w);
    Gather(World(w.cluster, Launched(names, client), {}));
  }

  lemma FinishKeeps(w: World)
    requires Inv(w)
    ensures Inv(Finish(w, Killed))
  {
    Concerns(w);
    var w' := Finish(w, Killed);
    forall k: nat | k < |w'.job.workers| ensures Truthful(w', k) {
      assert Truthful(w, k);
    }
    forall k: nat | k < 3 ensures BeginsAt(w'.job, k) {
      assert BeginsAt(w.job, k);
    }
    Gather(w');
  }

  lemma NextKeeps(w: World, e: Event)
    requires Inv(w)
    ensures Inv(Next(w, e))
  {
    match e
    case Launch(names, client) =>
      if !Running(w.job) {
        LaunchKeeps(w, names, client);
      }
    case Main(f, m) => MainKeeps(w, f, m);
    case Work(i, built, f) => WorkerKeeps(w, i, built, f);
    case Kill => FinishKeeps(w);
    case Reseal(node) => ResealKeeps(w, node);
  }

  lemma {:induction false} RunKeeps(w: World, es: seq<Event>)
    requires Inv(w)
    ensures Inv(Run(w, es))
    decreases |es|
  {
    if es == [] {
    } else {
      NextKeeps(w, es[0]);
      RunKeeps(Next(w, es[0]), es[1..]);
    }
  }
}
