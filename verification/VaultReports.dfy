/** What the init job's workers report and its secrets hold, told from the events of a history. */
module VaultReports {
  import opened Options
  import opened Faults
  import opened VaultInit
  import opened VaultRuns

  // --- Calls that are not served ---

  // Every call of the main flow that is not served ends the process, the read of a secret through
  // the panic and the deferred Wait; without a client for the first node the first call panics.
  lemma UnservedMainCall(w: World, f: Fault, m: Minted)
    requires Inv(w) && Running(w.job) && !w.job.phase.Spawn? && !w.job.phase.Wait? && !f.Fine?
    ensures var w' := MainStep(w, f, m);
      && w'.job.phase ==
           (if w.job.phase.Get? then Wait(true)
            else if w.job.phase.Health? && !w.job.client then Ended(Panicked)
            else Ended(Fatal))
      && (f.Lost? ==> w'.cluster == w.cluster)
      && (f.Unanswered? ==> w'.cluster == MainStep(w, Fine, m).cluster)
  {
    Concerns(w);
  }

  // A worker's call that is not served, or answers a wrong key, ends the whole process.
  lemma UnservedUnseal(w: World, i: nat, built: bool, f: Fault)
    requires Inv(w) && Running(w.job) && |w.job.workers| == 3 && i < 3 && w.job.workers[i].Connected?
    ensures i < |w.job.names|
    ensures var w' := WorkerStep(w, i, built, f);
      var right := w.cluster.minted.Some? && w.cluster.minted.value.key == w.job.key;
      var wrong := w.job.names[i] !in w.cluster.open && !right;
      && (w'.job.phase == Ended(Fatal) <==> !f.Fine? || wrong)
      && (w'.job.phase != Ended(Fatal) ==> Done(w'.job.workers[i]) && !w'.job.workers[i].how.NoClient?)
      && (f.Lost? || wrong ==> w'.cluster == w.cluster)
      && (!f.Lost? && !wrong ==> w'.cluster == w.cluster.(open := w.cluster.open + {w.job.names[i]}))
  {
    Concerns(w);
    assert BeginsAt(w.job, i);
    assert w.job.names[i] in w.cluster.open ==> w.cluster.open + {w.job.names[i]} == w.cluster.open;
  }

  // --- Reports ---

  // Whether the client of worker i was set up, once the event has come at which that is decided.
  function ClientOf(w: World, es: seq<Event>, i: nat, known: Option<bool>): Option<bool>
    requires i < 3
    decreases |es|
  {
    if es == [] then known
    else ClientOf(Next(w, es[0]), es[1..], i, ClientNow(w, es[0], i, known))
  }

  function ClientNow(w: World, e: Event, i: nat, known: Option<bool>): Option<bool>
    requires i < 3
  {
    if e.Launch? && !Running(w.job) then None
    else if e.Work? && e.i == i && Running(w.job) && |w.job.workers| == 3 && w.job.workers[i].Started? then Some(e.built)
    else known
  }

  // The worker's state tells what that event said.
  predicate Tells(w: World, i: nat, known: Option<bool>)
    requires i < |w.job.workers|
  {
    match w.job.workers[i]
    case Idle => known.None?
    case Started => known.None?
    case Connected => known == Some(true)
    case Returning(how) => known == Some(!how.NoClient?)
    case Finished(how) => known == Some(!how.NoClient?)
  }

  lemma MainStepTells(w: World, f: Fault, m: Minted, i: nat, known: Option<bool>)
    requires Inv(w) && i < 3 && |w.job.workers| == 3 && Tells(w, i, known)
    ensures var w' := MainStep(w, f, m); |w'.job.workers| == 3 && Tells(w', i, known)
  {
    Concerns(w);
    if w.job.phase.Spawn? {
      assert BeginsAt(w.job, w.job.phase.n);
    } else {
      OtherStepsStartNothing(w, f, m);
    }
  }

  lemma WorkerStepTells(w: World, k: nat, built: bool, f: Fault, i: nat, known: Option<bool>)
    requires Inv(w) && i < 3 && |w.job.workers| == 3 && Tells(w, i, known)
    ensures var w' := WorkerStep(w, k, built, f);
      |w'.job.workers| == 3 && Tells(w', i, ClientNow(w, Work(k, built, f), i, known))
  {
    Concerns(w);
    WorkerStepEffect(w, k, built, f);
    if k < 3 && Running(w.job) {
      assert BeginsAt(w.job, k);
      if k == i && w.job.workers[i].Connected? {
        UnservedUnseal(w, i, built, f);
      }
    }
  }

  lemma NextTells(w: World, e: Event, i: nat, known: Option<bool>)
    requires Inv(w) && i < 3 && |w.job.workers| == 3 && Tells(w, i, known)
    ensures |Next(w, e).job.workers| == 3 && Tells(Next(w, e), i, ClientNow(w, e, i, known))
  {
    match e
    case Main(f, m) => MainStepTells(w, f, m, i, known);
    case Work(k, built, f) => WorkerStepTells(w, k, built, f, i, known);
    case Launch(_, _) =>
    case Kill =>
    case Reseal(_) =>
  }

  lemma {:induction false} RunTells(w: World, es: seq<Event>, i: nat, known: Option<bool>)
    requires Inv(w) && i < 3 && |w.job.workers| == 3 && Tells(w, i, known)
    ensures |Run(w, es).job.workers| == 3 && Tells(Run(w, es), i, ClientOf(w, es, i, known))
    decreases |es|
  {
    if es == [] {
    } else {
      NextTells(w, es[0], i, known);
      NextKeeps(w, es[0]);
      RunTells(Next(w, es[0]), es[1..], i, ClientNow(w, es[0], i, known));
    }
  }

  // Over every history a worker that is done reports that it had no client exactly when, at its
  // first step, none could be set up.
  lemma ReportsAreTrue(w0: World, es: seq<Event>, i: nat)
    requires Init(w0) && i < 3
    ensures |Run(w0, es).job.workers| == 3
    ensures var worker := Run(w0, es).job.workers[i];
      && (Done(worker) ==> ClientOf(w0, es, i, None).Some? && (worker.how.NoClient? <==> ClientOf(w0, es, i, None) == Some(false)))
      && (worker.Idle? || worker.Started? ==> ClientOf(w0, es, i, None) == None)
  {
    InitKeeps(w0);
    RunTells(w0, es, i, None);
  }

  // A run that exits normally past its Wait has decided for every worker whether it has a client, and
  // the node of each that has one is open, or has been sealed since the run began.
  lemma NormalExitOpens(w0: World, es: seq<Event>)
    requires Init(w0) && Run(w0, es).job.phase == Ended(Exit) && !Run(w0, es).job.path.Undecided?
    ensures var w := Run(w0, es);
      forall i :: 0 <= i < 3 ==>
        && i < |w.job.names|
        && ClientOf(w0, es, i, None).Some?
        && (ClientOf(w0, es, i, None) == Some(true) ==> w.job.names[i] in w.cluster.open + w.resealed)
  {
    var w := Run(w0, es);
    InitKeeps(w0);
    RunKeeps(w0, es);
    Concerns(w);
    NormalExitServes(w);
    forall i: nat | i < 3
      ensures i < |w.job.names| && ClientOf(w0, es, i, None).Some?
      ensures ClientOf(w0, es, i, None) == Some(true) ==> w.job.names[i] in w.cluster.open + w.resealed
    {
      ReportsAreTrue(w0, es, i);
      assert Served(w, i, w.cluster.minted.value.key);
      assert BeginsAt(w.job, i);
    }
  }

  // --- The entries of the secrets ---

  // The other entries of a secret that was there before.
  predicate KeepsOthers(before: Data, after: Data, field: string) {
    forall name :: name in before && name != field ==> name in after && after[name] == before[name]
  }

  predicate KeepsEntries(before: map<Held, Data>, w: World) {
    && (forall held :: held in before ==>
      held in w.cluster.secrets && KeepsOthers(before[held], w.cluster.secrets[held], if held.UnsealKey? then "key" else "token"))
    && (w.job.phase.Update? && w.job.phase.held in before ==>
      KeepsOthers(before[w.job.phase.held], w.job.phase.got, if w.job.phase.held.UnsealKey? then "key" else "token"))
  }

  predicate WritesSecrets(phase: Phase) {
    phase.Create? || phase.Get? || phase.Update?
  }

  lemma WritingKeepsEntries(before: map<Held, Data>, w: World, f: Fault, m: Minted)
    requires KeepsEntries(before, w) && WritesSecrets(w.job.phase)
    ensures KeepsEntries(before, MainStep(w, f, m))
  {
  }

  lemma OtherStepsKeepSecrets(w: World, f: Fault, m: Minted)
    requires !WritesSecrets(w.job.phase)
    ensures var w' := MainStep(w, f, m); w'.cluster.secrets == w.cluster.secrets && !w'.job.phase.Update?
  {
  }

  lemma NextKeepsEntries(before: map<Held, Data>, w: World, e: Event)
    requires KeepsEntries(before, w)
    ensures KeepsEntries(before, Next(w, e))
  {
    if e.Work? {
      WorkerStepEffect(w, e.i, e.built, e.fault);
    } else if e.Main? {
      if WritesSecrets(w.job.phase) {
        WritingKeepsEntries(before, w, e.fault, e.minted);
      } else {
        OtherStepsKeepSecrets(w, e.fault, e.minted);
      }
    }
  }

  // No history changes any other entry of the two secrets that were there at first.
  lemma {:induction false} OtherEntriesStay(before: map<Held, Data>, w: World, es: seq<Event>)
    requires Inv(w) && KeepsEntries(before, w)
    ensures KeepsEntries(before, Run(w, es))
    decreases |es|
  {
    if es == [] {
    } else {
      NextKeepsEntries(before, w, es[0]);
      NextKeeps(w, es[0]);
      OtherEntriesStay(before, Next(w, es[0]), es[1..]);
    }
  }

  predicate Holds(secrets: map<Held, Data>, held: Held, field: string, value: string) {
    held in secrets && field in secrets[held] && secrets[held][field] == value
  }

  // Over every history: once a run that initialized Vault has exited normally, the unseal secret
  // holds the key of the one Initialize under "key" and the token secret its token under "token", for
  // good, and every other entry they had before. And every later run that found the first node
  // sealed and exits normally has read that key, and every node it could set up a client for is open
  // or sealed since it began.
  lemma InitAndUnsealAgree(w0: World, es1: seq<Event>, es2: seq<Event>)
    requires Init(w0)
    requires Run(w0, es1).job.phase == Ended(Exit) && Run(w0, es1).job.path.Initializing?
    ensures var w1, w2 := Run(w0, es1), Run(w0, es1 + es2);
      && w1.cluster.minted.Some? && w2.cluster.minted == w1.cluster.minted
      && Holds(w2.cluster.secrets, UnsealKey, "key", w1.cluster.minted.value.key)
      && Holds(w2.cluster.secrets, RootToken, "token", w1.cluster.minted.value.token)
      && w2.cluster.secrets == w1.cluster.secrets
      && (forall held :: held in w0.cluster.secrets ==>
        && held in w2.cluster.secrets
        && KeepsOthers(w0.cluster.secrets[held], w2.cluster.secrets[held], if held.UnsealKey? then "key" else "token"))
      && (w2.job.phase == Ended(Exit) && !w2.job.path.Undecided? ==>
        && w2.job.key == w1.cluster.minted.value.key
        && forall i :: 0 <= i < 3 ==>
          && i < |w2.job.names|
          && ClientOf(w0, es1 + es2, i, None).Some?
          && (ClientOf(w0, es1 + es2, i, None) == Some(true) ==> w2.job.names[i] in w2.cluster.open + w2.resealed))
  {
    var w1 := Run(w0, es1);
    var w2 := Run(w0, es1 + es2);
    Joined(w0, es1, es2);
    InitKeeps(w0);
    RunKeeps(w0, es1);
    RunKeeps(w0, es1 + es2);
    Concerns(w1);
    Concerns(w2);
    assert Past(w1.job, UnsealKey) && Past(w1.job, RootToken);
    SecretsAreFrozen(w1, es2);
    OtherEntriesStay(w0.cluster.secrets, w0, es1 + es2);
    if w2.job.phase == Ended(Exit) && !w2.job.path.Undecided? {
      NormalExitOpens(w0, es1 + es2);
    }
  }
}
