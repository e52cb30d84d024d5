/** The PKI job as the imperative code it is: the main flow and the goroutine, each over the fields
    they share. Before every call or test the rest of the world may act: the other of the two, other
    programs, or the end of the process. */
module PkiProgram {
  import opened Options
  import opened Pki
  import opened MountNames
  import opened Faults
  import opened Environment
  import opened PkiJob

  datatype Shared = Shared(persister: Persister, err: Err, st: Store)

  // What others make of the shared state before one step, whether the process outlives it, and what
  // happens to the call of the step.
  datatype Turn = Turn(others: Shared -> (Shared, bool), f: Fault)

  function MainRank(m: Main): nat {
    match m
    case ListMounts => 15
    case EnableRoot => 14
    case TuneRoot => 13
    case GenerateRootKey => 12
    case UrlsRoot => 11
    case UrlsRootTest => 10
    case RoleRoot => 9
    case RoleRootTest => 8
    case EnableInterm => 7
    case TuneInterm => 6
    case UrlsInterm => 5
    case RoleInterm => 4
    case GenerateIntermCsr => 3
    case SignInterm => 2
    case InstallInterm => 1
    case Exit => 0
  }

  lemma IntermStepLowersRank(j: Job, st: Store, f: Fault)
    requires !OnRoot(j.main) && !j.main.ListMounts? && !j.main.Exit?
    ensures var j' := IntermStep(j, st, f).0; j'.Some? ==> MainRank(j'.value.main) < MainRank(j.main)
  {
  }

  lemma MainStepLowersRank(j: Job, st: Store, f: Fault)
    requires !j.main.Exit?
    ensures var j' := MainStep(j, st, f).0; j'.Some? ==> MainRank(j'.value.main) < MainRank(j.main)
  {
    if !OnRoot(j.main) && !j.main.ListMounts? {
      IntermStepLowersRank(j, st, f);
    }
  }

  // The rest of the main flow: the store it leaves, the steps it has made, and whether it comes to the
  // normal exit.
  function RunMain(j: Job, st: Store, turns: nat -> Turn, k: nat): (Store, nat, bool)
    decreases MainRank(j.main)
  {
    if j.main.Exit? then (st, k, true)
    else
      var (s, alive) := turns(k).others(Shared(j.persister, j.err, st));
      if !alive then (s.st, k + 1, false)
      else
        var now := j.(persister := s.persister, err := s.err);
        MainStepLowersRank(now, s.st, turns(k).f);
        var (j', st') := MainStep(now, s.st, turns(k).f);
        if j'.None? then (st', k + 1, false) else RunMain(j'.value, st', turns, k + 1)
  }

  // --- One turn of the main flow, by the call it makes ---

  lemma MainTurn(j: Job, st: Store, turns: nat -> Turn, k: nat)
    requires !j.main.Exit?
    ensures var (s, alive) := turns(k).others(Shared(j.persister, j.err, st));
      var (next, st') := MainStep(Seen(j, s), s.st, turns(k).f);
      RunMain(j, st, turns, k) == Goes(s, alive, next, st', turns, k)
  {
  }

  // What a turn of a live process makes of the run: its next state, if it goes on, and the store.
  function Goes(s: Shared, alive: bool, next: Option<Job>, st: Store, turns: nat -> Turn, k: nat): (Store, nat, bool) {
    if !alive then (s.st, k + 1, false)
    else if next.None? then (st, k + 1, false)
    else RunMain(next.value, st, turns, k + 1)
  }

  function Seen(j: Job, s: Shared): Job {
    j.(persister := s.persister, err := s.err)
  }

  lemma ListTurn(j: Job, st: Store, turns: nat -> Turn, k: nat)
    requires j.main.ListMounts?
    ensures var (s, alive) := turns(k).others(Shared(j.persister, j.err, st));
      var next := Seen(j, s).(wantInterm := IntermMount !in s.st.mounts);
      RunMain(j, st, turns, k) == Goes(s, alive,
        if !turns(k).f.Fine? then None
        else if RootMount !in s.st.mounts then Some(next.(main := EnableRoot)) else Some(AfterRoot(next)), s.st, turns, k)
  {
  }

  lemma EnableTurn(j: Job, st: Store, turns: nat -> Turn, k: nat)
    requires j.main.EnableRoot? || j.main.EnableInterm?
    ensures var (s, alive) := turns(k).others(Shared(j.persister, j.err, st));
      var at := if j.main.EnableRoot? then RootMount else IntermMount;
      RunMain(j, st, turns, k) == Goes(s, alive,
        Some(Seen(j, s).(main := if j.main.EnableRoot? then TuneRoot else TuneInterm)),
        EnableEngine(s.st, at, JobRun(j.run), turns(k).f).0, turns, k)
  {
  }

  // The configuring calls whose error is fatal at once, each with the call that follows.
  const FATAL_SETTINGS: set<(Main, Path, Stage, Main)> := {
    (TuneRoot, RootMount, Tune, GenerateRootKey), (TuneInterm, IntermMount, Tune, UrlsInterm),
    (UrlsInterm, IntermMount, Urls, RoleInterm), (RoleInterm, IntermMount, Role, GenerateIntermCsr)}

  lemma ConfigureTurn(j: Job, at: Path, stage: Stage, next: Main, st: Store, turns: nat -> Turn, k: nat)
    requires (j.main, at, stage, next) in FATAL_SETTINGS
    ensures var (s, alive) := turns(k).others(Shared(j.persister, j.err, st));
      var (st', ok) := Configure(s.st, at, stage, JobRun(j.run), turns(k).f);
      RunMain(j, st, turns, k) ==
        Goes(s, alive, if ok then Some(Seen(j, s).(main := next)) else None, st', turns, k)
  {
  }

  lemma KeyTurn(j: Job, st: Store, turns: nat -> Turn, k: nat)
    requires j.main.GenerateRootKey?
    ensures var (s, alive) := turns(k).others(Shared(j.persister, j.err, st));
      var (st', c) := GenerateRoot(s.st, RootMount, JobRun(j.run), turns(k).f);
      RunMain(j, st, turns, k) == Goes(s, alive,
        if c.Some? then Some(j.(main := UrlsRoot, persister := Creating(c.value), err := Nil)) else None, st', turns, k)
  {
  }

  // The two calls whose error goes to the shared variable, and the tests of it.
  lemma SharedErrTurn(j: Job, st: Store, turns: nat -> Turn, k: nat)
    requires j.main.UrlsRoot? || j.main.RoleRoot?
    ensures var (s, alive) := turns(k).others(Shared(j.persister, j.err, st));
      var f := turns(k).f;
      var (st', ok) := Configure(s.st, RootMount, if j.main.UrlsRoot? then Urls else Role, JobRun(j.run), f);
      RunMain(j, st, turns, k) == Goes(s, alive,
        Some(if j.main.UrlsRoot? then Seen(j, s).(main := UrlsRootTest, err := ErrOf(ok), urlsLost := f.Lost?)
             else Seen(j, s).(main := RoleRootTest, err := ErrOf(ok))), st', turns, k)
  {
  }

  lemma TestTurn(j: Job, st: Store, turns: nat -> Turn, k: nat)
    requires j.main.UrlsRootTest? || j.main.RoleRootTest?
    ensures var (s, alive) := turns(k).others(Shared(j.persister, j.err, st));
      RunMain(j, st, turns, k) == Goes(s, alive,
        if !s.err.Nil? then None
        else Some(if j.main.UrlsRootTest? then Seen(j, s).(main := RoleRoot) else AfterRoot(Seen(j, s))),
        if j.main.UrlsRootTest? then s.st.(masked := s.st.masked || (s.err.Nil? && j.urlsLost)) else s.st, turns, k)
  {
  }

  lemma CsrTurn(j: Job, st: Store, turns: nat -> Turn, k: nat)
    requires j.main.GenerateIntermCsr?
    ensures var (s, alive) := turns(k).others(Shared(j.persister, j.err, st));
      var (st', c) := GenerateCsr(s.st, IntermMount, JobRun(j.run), turns(k).f);
      RunMain(j, st, turns, k) == Goes(s, alive,
        if c.Some? then Some(Seen(j, s).(main := SignInterm, csr := c.value)) else None, st', turns, k)
  {
  }

  lemma SignTurn(j: Job, st: Store, turns: nat -> Turn, k: nat)
    requires j.main.SignInterm?
    ensures var (s, alive) := turns(k).others(Shared(j.persister, j.err, st));
      var (st', c) := SignIntermediate(s.st, RootMount, j.csr, turns(k).f);
      RunMain(j, st, turns, k) == Goes(s, alive,
        if c.Some? then Some(Seen(j, s).(main := InstallInterm, signed := c)) else None, st', turns, k)
  {
  }

  lemma InstallTurn(j: Job, st: Store, turns: nat -> Turn, k: nat)
    requires j.main.InstallInterm? && j.signed.Some?
    ensures var (s, alive) := turns(k).others(Shared(j.persister, j.err, st));
      var (st', ok) := InstallSigned(s.st, IntermMount, j.signed.value, JobRun(j.run), turns(k).f);
      RunMain(j, st, turns, k) == if !alive then (s.st, k + 1, false) else (st', k + 1, ok)
  {
  }

  class Process {
    const run: nat
    const turns: nat -> Turn
    var st: Store
    var persister: Persister
    var err: Err
    var calls: nat

    constructor (run: nat, st: Store, turns: nat -> Turn)
      ensures this.run == run && this.st == st && this.turns == turns
      ensures persister == NotStarted && err == Nil && calls == 0
    {
      this.run, this.st, this.turns := run, st, turns;
      persister, err, calls := NotStarted, Nil, 0;
    }

    // What the next step finds, and whether the process is still there.
    function Now(): (Shared, bool)
      reads this
    {
      turns(calls).others(Shared(persister, err, st))
    }

    function Luck(): Fault
      reads this
    {
      turns(calls).f
    }

    // The others act; false is the end of the process.
    method Await() returns (alive: bool, f: Fault)
      modifies this
      ensures (Shared(persister, err, st), alive) == old(Now()) && f == old(Luck()) && calls == old(calls) + 1
    {
      var out := turns(calls).others(Shared(persister, err, st));
      f := turns(calls).f;
      persister, err, st, alive, calls := out.0.persister, out.0.err, out.0.st, out.1, calls + 1;
    }

    method Enable(at: Path) returns (alive: bool)
      modifies this
      ensures var (s, ok) := old(Now());
        && alive == ok && persister == s.persister && err == s.err && calls == old(calls) + 1
        && st == if ok then EnableEngine(s.st, at, JobRun(run), old(Luck())).0 else s.st
    {
      var f;
      alive, f := Await();
      if alive {
        st := EnableEngine(st, at, JobRun(run), f).0;
      }
    }

    method Setting(at: Path, stage: Stage) returns (alive: bool, ok: bool, lost: bool)
      modifies this
      ensures var (s, live) := old(Now());
        && alive == live && persister == s.persister && err == s.err && calls == old(calls) + 1
        && lost == old(Luck()).Lost?
        && (st, ok) == if live then Configure(s.st, at, stage, JobRun(run), old(Luck())) else (s.st, false)
    {
      var f;
      alive, f := Await();
      ok, lost := false, f.Lost?;
      if alive {
        var out := Configure(st, at, stage, JobRun(run), f);
        st, ok := out.0, out.1;
      }
    }

    // The run as the step model has it, at a point of the main flow.
    function At(main: Main, wantInterm: bool, csr: Key, signed: Option<Cert>, lost: bool): Job
      reads this
    {
      Job(run, main, wantInterm, csr, signed, persister, err, lost)
    }

    method MainFlow() returns (normal: bool)
      modifies this
      ensures (st, calls, normal) == RunMain(old(At(ListMounts, false, 0, None, false)), old(st), turns, old(calls))
    {
      ListTurn(At(ListMounts, false, 0, None, false), st, turns, calls);
      var alive, f := Await();
      if !alive || f != Fine { return false; }
      var wantRoot, wantInterm := RootMount !in st.mounts, IntermMount !in st.mounts;
      var lost := false;
      if wantRoot {
        alive, lost := EnablePKIRootCA(wantInterm);
        if !alive { return false; }
      }
      if wantInterm {
        normal := EnablePKIIntermCA(lost);
        return;
      }
      normal := true;
    }

    // `lost` only feeds the ledger that remembers a lost call taken for a success.
    method EnablePKIRootCA(wantInterm: bool) returns (alive: bool, lost: bool)
      modifies this
      ensures RunMain(old(At(EnableRoot, wantInterm, 0, None, false)), old(st), turns, old(calls)) ==
        if alive then RunMain(AfterRoot(At(RoleRootTest, wantInterm, 0, None, lost)), st, turns, calls) else (st, calls, false)
    {
      lost := false;
      alive := GenerateRootCA(wantInterm);
      if !alive { return; }
      alive, lost := SetRootUrls(wantInterm);
      if !alive { return; }
      alive := SetRootRole(wantInterm, lost);
    }

    // The call and the test of its error, between which the goroutine may set the error too.
    method SetRootUrls(wantInterm: bool) returns (alive: bool, lost: bool)
      modifies this
      ensures RunMain(old(At(UrlsRoot, wantInterm, 0, None, false)), old(st), turns, old(calls)) ==
        if alive then RunMain(At(RoleRoot, wantInterm, 0, None, lost), st, turns, calls) else (st, calls, false)
    {
      var ok, f;
      SharedErrTurn(At(UrlsRoot, wantInterm, 0, None, false), st, turns, calls);
      alive, ok, lost := Setting(RootMount, Urls);
      if !alive { return; }
      err := ErrOf(ok);
      TestTurn(At(UrlsRootTest, wantInterm, 0, None, lost), st, turns, calls);
      alive, f := Await();
      if !alive { return; }
      st := st.(masked := st.masked || (err.Nil? && lost));
      alive := err == Nil;
    }

    method SetRootRole(wantInterm: bool, lost: bool) returns (alive: bool)
      modifies this
      ensures RunMain(old(At(RoleRoot, wantInterm, 0, None, lost)), old(st), turns, old(calls)) ==
        if alive then RunMain(AfterRoot(At(RoleRootTest, wantInterm, 0, None, lost)), st, turns, calls) else (st, calls, false)
    {
      var ok, f, other;
      SharedErrTurn(At(RoleRoot, wantInterm, 0, None, lost), st, turns, calls);
      alive, ok, other := Setting(RootMount, Role);
      if !alive { return; }
      err := ErrOf(ok);
      TestTurn(At(RoleRootTest, wantInterm, 0, None, lost), st, turns, calls);
      alive, f := Await();
      if !alive { return; }
      alive := err == Nil;
    }

    // The first three calls, and the start of the goroutine.
    method GenerateRootCA(wantInterm: bool) returns (alive: bool)
      modifies this
      ensures RunMain(old(At(EnableRoot, wantInterm, 0, None, false)), old(st), turns, old(calls)) ==
        if alive then RunMain(At(UrlsRoot, wantInterm, 0, None, false), st, turns, calls) else (st, calls, false)
    {
      EnableTurn(At(EnableRoot, wantInterm, 0, None, false), st, turns, calls);
      alive := Enable(RootMount);
      if !alive { return; }
      alive := FatalSetting(RootMount, Tune, TuneRoot, GenerateRootKey, wantInterm, false);
      if !alive { return; }
      alive := GenerateKey(wantInterm);
    }

    method GenerateKey(wantInterm: bool) returns (alive: bool)
      modifies this
      ensures RunMain(old(At(GenerateRootKey, wantInterm, 0, None, false)), old(st), turns, old(calls)) ==
        if alive then RunMain(At(UrlsRoot, wantInterm, 0, None, false), st, turns, calls) else (st, calls, false)
    {
      var f;
      KeyTurn(At(GenerateRootKey, wantInterm, 0, None, false), st, turns, calls);
      alive, f := Await();
      if !alive { return; }
      var generated := GenerateRoot(st, RootMount, JobRun(run), f);
      st := generated.0;
      if generated.1.None? { return false; }
      err, persister := Nil, Creating(generated.1.value);
    }

    // A configuring call whose error is fatal.
    method FatalSetting(at: Path, stage: Stage, main: Main, next: Main, wantInterm: bool, lost: bool) returns (alive: bool)
      requires (main, at, stage, next) in FATAL_SETTINGS
      modifies this
      ensures RunMain(old(At(main, wantInterm, 0, None, lost)), old(st), turns, old(calls)) ==
        if alive then RunMain(At(next, wantInterm, 0, None, lost), st, turns, calls) else (st, calls, false)
    {
      var ok, other;
      ConfigureTurn(At(main, wantInterm, 0, None, lost), at, stage, next, st, turns, calls);
      alive, ok, other := Setting(at, stage);
      if !alive { return; }
      alive := ok;
    }

    method EnablePKIIntermCA(lost: bool) returns (normal: bool)
      modifies this
      ensures (st, calls, normal) == RunMain(old(At(EnableInterm, true, 0, None, lost)), old(st), turns, old(calls))
    {
      var f;
      var alive := ConfigureInterm(lost);
      if !alive { return false; }
      CsrTurn(At(GenerateIntermCsr, true, 0, None, lost), st, turns, calls);
      alive, f := Await();
      if !alive { return false; }
      var csr := GenerateCsr(st, IntermMount, JobRun(run), f);
      st := csr.0;
      if csr.1.None? { return false; }
      normal := SignAndInstall(csr.1.value, lost);
    }

    // The root signs the request, and the intermediate engine takes the certificate.
    method SignAndInstall(csr: Key, lost: bool) returns (normal: bool)
      modifies this
      ensures (st, calls, normal) == RunMain(old(At(SignInterm, true, csr, None, lost)), old(st), turns, old(calls))
    {
      SignTurn(At(SignInterm, true, csr, None, lost), st, turns, calls);
      var alive, f := Await();
      if !alive { return false; }
      var signed := SignIntermediate(st, RootMount, csr, f);
      st := signed.0;
      if signed.1.None? { return false; }
      InstallTurn(At(InstallInterm, true, csr, signed.1, lost), st, turns, calls);
      alive, f := Await();
      if !alive { return false; }
      var installed := InstallSigned(st, IntermMount, signed.1.value, JobRun(run), f);
      st, normal := installed.0, installed.1;
    }

    // The first four calls.
    method ConfigureInterm(lost: bool) returns (alive: bool)
      modifies this
      ensures RunMain(old(At(EnableInterm, true, 0, None, lost)), old(st), turns, old(calls)) ==
        if alive then RunMain(At(GenerateIntermCsr, true, 0, None, lost), st, turns, calls) else (st, calls, false)
    {
      EnableTurn(At(EnableInterm, true, 0, None, lost), st, turns, calls);
      alive := Enable(IntermMount);
      if !alive { return; }
      alive := FatalSetting(IntermMount, Tune, TuneInterm, UrlsInterm, true, lost);
      if !alive { return; }
      alive := FatalSetting(IntermMount, Urls, UrlsInterm, RoleInterm, true, lost);
      if !alive { return; }
      alive := FatalSetting(IntermMount, Role, RoleInterm, GenerateIntermCsr, true, lost);
    }
  }

  // --- The goroutine ---

  // What others, the main flow among them, make of the shared error and the store before one step.
  datatype PersisterTurn = PersisterTurn(others: (Err, Store) -> (Err, Store, bool), f: Fault)

  function PersisterRank(p: Persister): nat {
    match p
    case NotStarted => 0
    case Creating(_) => 6
    case NilTest(_) => 5
    case ExistsTest(_) => 4
    case Getting(_) => 3
    case Updating(_, _, _) => 2
    case LastTest => 1
    case Ended => 0
  }

  // The rest of the goroutine: the store, the steps, and whether the process lives on.
  function RunGoroutine(j: Job, st: Store, turns: nat -> PersisterTurn, k: nat): (Store, nat, bool)
    decreases PersisterRank(j.persister)
  {
    if PersisterRank(j.persister) == 0 then (st, k, true)
    else
      var (err, now, alive) := turns(k).others(j.err, st);
      if !alive then (now, k + 1, false)
      else
        var (j', st') := PersisterStep(j.(err := err), now, turns(k).f);
        if j'.None? then (st', k + 1, false) else RunGoroutine(j'.value, st', turns, k + 1)
  }

  lemma GoroutineTurn(j: Job, st: Store, turns: nat -> PersisterTurn, k: nat)
    requires PersisterRank(j.persister) != 0
    ensures var (err, now, alive) := turns(k).others(j.err, st);
      RunGoroutine(j, st, turns, k) ==
        if !alive then (now, k + 1, false)
        else
          var (j', st') := PersisterStep(j.(err := err), now, turns(k).f);
          if j'.None? then (st', k + 1, false) else RunGoroutine(j'.value, st', turns, k + 1)
  {
  }

  // `job` is the run the goroutine belongs to; of it the goroutine reads nothing but the error.
  class RootPersister {
    const job: Job
    const turns: nat -> PersisterTurn
    var st: Store
    var err: Err
    var calls: nat

    constructor (job: Job, st: Store, turns: nat -> PersisterTurn)
      ensures this.job == job && this.st == st && this.turns == turns && err == job.err && calls == 0
    {
      this.job, this.st, this.turns, err, calls := job, st, turns, job.err, 0;
    }

    function At(persister: Persister): Job
      reads this
    {
      job.(persister := persister, err := err)
    }

    method Await() returns (alive: bool, f: Fault)
      modifies this
      ensures (err, st, alive) == old(turns(calls).others(err, st)) && f == old(turns(calls).f) && calls == old(calls) + 1
    {
      var out := turns(calls).others(err, st);
      f := turns(calls).f;
      err, st, alive, calls := out.0, out.1, out.2, calls + 1;
    }

    method Persist(root: Cert) returns (alive: bool)
      modifies this
      ensures (st, calls, alive) == RunGoroutine(old(At(Creating(root))), old(st), turns, old(calls))
    {
      var f;
      GoroutineTurn(At(Creating(root)), st, turns, calls);
      alive, f := Await();
      if !alive { return; }
      var created := CreateSecret(st, Name(st.home, "sip-root-ca"), map["ca.pem" := [CertBlock(root)]], Nobody,
        ForRootCA(root, map[]), f);
      st, err := created.0, ErrOfReply(created.1);
      GoroutineTurn(At(NilTest(root)), st, turns, calls);
      alive, f := Await();
      if !alive || err == Nil { return; }
      GoroutineTurn(At(ExistsTest(root)), st, turns, calls);
      alive, f := Await();
      if !alive { return; }
      if err != Exists { return false; }
      alive := Replace(root);
    }

    // Reads the secret, sets its entry in place and writes it back; a missing map is a panic.
    method Replace(root: Cert) returns (alive: bool)
      modifies this
      ensures (st, calls, alive) == RunGoroutine(old(At(Getting(root))), old(st), turns, old(calls))
    {
      var f;
      GoroutineTurn(At(Getting(root)), st, turns, calls);
      alive, f := Await();
      if !alive { return; }
      var at := Name(st.home, "sip-root-ca");
      if f != Fine || at !in st.secrets || st.secrets[at].data == map[] { return false; }
      var base, version := st.secrets[at].data, st.secrets[at].version;
      var data := base;
      data := data["ca.pem" := [CertBlock(root)]];
      GoroutineTurn(At(Updating(root, base, version)), st, turns, calls);
      alive, f := Await();
      if !alive { return; }
      var updated := UpdateVersioned(st, Name(st.home, "sip-root-ca"), data, version, ForRootCA(root, base), f);
      st, err := updated.0, ErrOfReply(updated.1);
      GoroutineTurn(At(LastTest), st, turns, calls);
      alive, f := Await();
      if !alive { return; }
      alive := err == Nil;
    }
  }
}
