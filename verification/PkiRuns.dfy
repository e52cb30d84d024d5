/** One undisturbed run of the PKI job, its main flow and its goroutine interleaved in every way. */
module PkiRuns {
  import opened Options
  import opened Pki
  import opened MountNames
  import opened Faults
  import opened Environment
  import opened PkiJob
  import P = PkiProgram

  // The run, None once it has ended, and the store.
  datatype State = State(job: Option<Job>, st: Store)

  // A schedule says whose step is next.
  datatype Pick = PickMain | PickGoroutine

  function Next(s: State, t: Pick): State {
    if s.job.None? then s
    else
      var (j, st) := match t
        case PickMain => MainStep(s.job.value, s.st, Fine)
        case PickGoroutine => PersisterStep(s.job.value, s.st, Fine);
      State(j, st)
  }

  function Run(s: State, schedule: seq<Pick>): State
    decreases |schedule|
  {
    if schedule == [] then s else Run(Next(s, schedule[0]), schedule[1..])
  }

  function Begin(run: nat, st: Store): State {
    State(Some(Start(run)), st)
  }

  // The engine can issue and sign.
  predicate Usable(st: Store, p: Path) {
    p in st.mounts && st.mounts[p].issuer.Some? && HasRole(st.mounts[p])
  }

  predicate AbsentOrUsable(st: Store, p: Path) {
    p in st.mounts ==> Usable(st, p)
  }

  predicate BothUsable(st: Store) {
    Usable(st, RootMount) && Usable(st, IntermMount)
  }

  // No old secret makes the goroutine's Create fail.
  predicate NoOldSecret(st: Store) {
    RootMount !in st.mounts ==> Name(st.home, "sip-root-ca") !in st.secrets
  }

  // --- What an undisturbed run keeps ---

  // How far the main flow has come, when nothing was half done before.
  predicate Progressed(j: Job, st: Store) {
    var rooted := RootMount in st.mounts && st.mounts[RootMount].issuer.Some?;
    match j.main
    case ListMounts => AbsentOrUsable(st, RootMount) && AbsentOrUsable(st, IntermMount)
    case EnableRoot => RootMount !in st.mounts
    case TuneRoot => RootMount in st.mounts
    case GenerateRootKey => RootMount in st.mounts
    case UrlsRoot => rooted
    case UrlsRootTest => rooted
    case RoleRoot => rooted
    case RoleRootTest => Usable(st, RootMount)
    case EnableInterm => Usable(st, RootMount) && IntermMount !in st.mounts
    case TuneInterm => Usable(st, RootMount) && IntermMount in st.mounts
    case UrlsInterm => Usable(st, RootMount) && IntermMount in st.mounts
    case RoleInterm => Usable(st, RootMount) && IntermMount in st.mounts
    case GenerateIntermCsr => Usable(st, RootMount) && IntermMount in st.mounts && HasRole(st.mounts[IntermMount])
    case SignInterm =>
      && Usable(st, RootMount) && IntermMount in st.mounts && HasRole(st.mounts[IntermMount])
      && st.mounts[IntermMount].csr == Some(j.csr)
    case InstallInterm =>
      && Usable(st, RootMount) && IntermMount in st.mounts && HasRole(st.mounts[IntermMount])
      && j.signed.Some? && st.mounts[IntermMount].csr == Some(j.signed.value.subject)
    case Exit => BothUsable(st)
  }

  predicate Plans(j: Job, st: Store) {
    OnRoot(j.main) ==> if j.wantInterm then IntermMount !in st.mounts else Usable(st, IntermMount)
  }

  // The goroutine finds no secret, and never sets an error.
  predicate Undisturbed(j: Job, st: Store) {
    && j.err.Nil?
    && (j.main.ListMounts? ==> NoOldSecret(st))
    && (j.main in {EnableRoot, TuneRoot, GenerateRootKey} ==> j.persister.NotStarted? && Name(st.home, "sip-root-ca") !in st.secrets)
    && (j.main.ListMounts? ==> j.persister.NotStarted?)
    && (j.persister.Creating? ==> Name(st.home, "sip-root-ca") !in st.secrets)
    && (j.persister.NotStarted? || j.persister.Creating? || j.persister.NilTest? || j.persister.Ended?)
  }

  predicate Good(s: State) {
    match s.job
    case None => BothUsable(s.st)
    case Some(j) => Progressed(j, s.st) && Plans(j, s.st) && Undisturbed(j, s.st)
  }

  lemma RootStepKeepsGood(j: Job, st: Store)
    requires OnRoot(j.main) && Progressed(j, st) && Plans(j, st) && Undisturbed(j, st)
    ensures var (j', st') := RootStep(j, st, Fine); j'.Some? && Good(State(j', st'))
  {
    RootStepEffect(j, st, Fine);
    if RootMount in st.mounts {
      forall stage ensures HasRole(Logged(st.mounts[RootMount], stage, JobRun(j.run))) <==>
        HasRole(st.mounts[RootMount]) || stage == Role
      {
        LoggedRole(st.mounts[RootMount], stage, JobRun(j.run));
      }
    }
    match j.main
    case EnableRoot =>
    case TuneRoot =>
    case GenerateRootKey =>
    case UrlsRoot =>
    case UrlsRootTest =>
    case RoleRoot =>
    case RoleRootTest =>
  }

  predicate Configures(m: Main) {
    m.EnableInterm? || m.TuneInterm? || m.UrlsInterm? || m.RoleInterm?
  }

  predicate HandlesKeys(m: Main) {
    m.GenerateIntermCsr? || m.SignInterm? || m.InstallInterm?
  }

  // The calls on the intermediate engine touch neither the root engine nor what is shared.
  lemma IntermStepJob(j: Job, st: Store, f: Fault)
    requires Configures(j.main) || HandlesKeys(j.main)
    ensures var j' := IntermStep(j, st, f).0;
      j'.Some? ==>
        && j'.value == j.(main := j'.value.main, csr := j'.value.csr, signed := j'.value.signed)
        && (HandlesKeys(j'.value.main) || Configures(j'.value.main) || j'.value.main.Exit?)
  {
  }

  lemma IntermStepFrame(j: Job, st: Store, f: Fault)
    requires Configures(j.main) || HandlesKeys(j.main)
    ensures SameMount(st, IntermStep(j, st, f).1, RootMount)
  {
    var a := JobRun(j.run);
    match j.main
    case EnableInterm => EnableKeepsOthers(st, IntermMount, RootMount, a, f);
    case TuneInterm => ConfigureKeepsOthers(st, IntermMount, RootMount, Tune, a, f);
    case UrlsInterm => ConfigureKeepsOthers(st, IntermMount, RootMount, Urls, a, f);
    case RoleInterm => ConfigureKeepsOthers(st, IntermMount, RootMount, Role, a, f);
    case GenerateIntermCsr => GenerateCsrKeepsOthers(st, IntermMount, RootMount, a, f);
    case SignInterm =>
    case InstallInterm =>
      if j.signed.Some? {
        InstallKeepsOthers(st, IntermMount, RootMount, j.signed.value, a, f);
      }
  }

  lemma ConfigProgresses(j: Job, st: Store)
    requires Configures(j.main) && Progressed(j, st)
    ensures var (j', st') := IntermStep(j, st, Fine); j'.Some? && Progressed(j'.value, st')
  {
    if IntermMount in st.mounts {
      LoggedRole(st.mounts[IntermMount], Role, JobRun(j.run));
    }
  }

  lemma CsrProgresses(j: Job, st: Store)
    requires j.main.GenerateIntermCsr? && Progressed(j, st)
    ensures var (j', st') := IntermStep(j, st, Fine); j'.Some? && Progressed(j'.value, st')
  {
    LoggedRole(st.mounts[IntermMount], Csr, JobRun(j.run));
  }

  lemma SignProgresses(j: Job, st: Store)
    requires j.main.SignInterm? && Progressed(j, st)
    ensures var (j', st') := IntermStep(j, st, Fine); j'.Some? && Progressed(j'.value, st')
  {
  }

  lemma InstallProgresses(j: Job, st: Store)
    requires j.main.InstallInterm? && Progressed(j, st)
    ensures var (j', st') := IntermStep(j, st, Fine); j'.Some? && Progressed(j'.value, st')
  {
    LoggedRole(st.mounts[IntermMount], Install, JobRun(j.run));
  }

  lemma IntermStepKeepsGood(j: Job, st: Store)
    requires (Configures(j.main) || HandlesKeys(j.main)) && Progressed(j, st) && Undisturbed(j, st)
    ensures var (j', st') := IntermStep(j, st, Fine); j'.Some? && Good(State(j', st'))
  {
    IntermStepEffect(j, st, Fine);
    IntermStepJob(j, st, Fine);
    if Configures(j.main) {
      ConfigProgresses(j, st);
    } else if j.main.GenerateIntermCsr? {
      CsrProgresses(j, st);
    } else if j.main.SignInterm? {
      SignProgresses(j, st);
    } else {
      InstallProgresses(j, st);
    }
  }

  lemma NextKeepsGood(s: State, t: Pick)
    requires Good(s)
    ensures Good(Next(s, t))
  {
    if s.job.Some? {
      var j := s.job.value;
      if t.PickGoroutine? {
        PersisterStepFrame(j, s.st, Fine, Next(s, t).job, Next(s, t).st);
      } else if OnRoot(j.main) {
        RootStepKeepsGood(j, s.st);
      } else if !j.main.ListMounts? && !j.main.Exit? {
        IntermStepKeepsGood(j, s.st);
      }
    }
  }

  lemma {:induction false} RunKeepsGood(s: State, schedule: seq<Pick>)
    requires Good(s)
    ensures Good(Run(s, schedule))
    decreases |schedule|
  {
    if schedule == [] {
    } else {
      NextKeepsGood(s, schedule[0]);
      RunKeepsGood(Next(s, schedule[0]), schedule[1..]);
    }
  }

  // --- Runs that leave an engine as they found it ---

  // The engine was begun before, so the run does not touch it.
  predicate Untouched(s: State, p: Path, m: Mount) {
    && p in s.st.mounts && s.st.mounts[p] == m
    && (s.job.Some? ==>
      if p.RootMount? then !OnRoot(s.job.value.main) && !s.job.value.main.ListMounts?
      else !s.job.value.wantInterm && !s.job.value.main.ListMounts? && !Configures(s.job.value.main) && !HandlesKeys(s.job.value.main))
  }

  // The calls on the root engine do not touch the intermediate.
  lemma RootStepJob(j: Job, st: Store, f: Fault)
    requires OnRoot(j.main)
    ensures var j' := RootStep(j, st, f).0;
      j'.Some? ==>
        && j'.value.wantInterm == j.wantInterm && !j'.value.main.ListMounts?
        && (Configures(j'.value.main) ==> j.wantInterm) && !HandlesKeys(j'.value.main)
  {
  }

  lemma RootStepFrame(j: Job, st: Store, f: Fault)
    requires OnRoot(j.main)
    ensures SameMount(st, RootStep(j, st, f).1, IntermMount)
  {
    var a := JobRun(j.run);
    match j.main
    case EnableRoot => EnableKeepsOthers(st, RootMount, IntermMount, a, f);
    case TuneRoot => ConfigureKeepsOthers(st, RootMount, IntermMount, Tune, a, f);
    case GenerateRootKey => GenerateRootKeepsOthers(st, RootMount, IntermMount, a, f);
    case UrlsRoot => ConfigureKeepsOthers(st, RootMount, IntermMount, Urls, a, f);
    case UrlsRootTest =>
    case RoleRoot => ConfigureKeepsOthers(st, RootMount, IntermMount, Role, a, f);
    case RoleRootTest =>
  }

  lemma NextLeavesUntouched(s: State, t: Pick, p: Path, m: Mount)
    requires p in {RootMount, IntermMount} && Untouched(s, p, m)
    ensures Untouched(Next(s, t), p, m)
  {
    if s.job.Some? {
      var j := s.job.value;
      if t.PickGoroutine? {
        PersisterStepFrame(j, s.st, Fine, Next(s, t).job, Next(s, t).st);
      } else if OnRoot(j.main) {
        RootStepJob(j, s.st, Fine);
        RootStepFrame(j, s.st, Fine);
      } else if !j.main.ListMounts? && !j.main.Exit? {
        IntermStepJob(j, s.st, Fine);
        IntermStepFrame(j, s.st, Fine);
      }
    }
  }

  lemma {:induction false} RunLeavesUntouched(s: State, schedule: seq<Pick>, p: Path, m: Mount)
    requires p in {RootMount, IntermMount} && Untouched(s, p, m)
    ensures Untouched(Run(s, schedule), p, m)
    decreases |schedule|
  {
    if schedule == [] {
    } else {
      NextLeavesUntouched(s, schedule[0], p, m);
      RunLeavesUntouched(Next(s, schedule[0]), schedule[1..], p, m);
    }
  }

  // Every step of the main flow is one nearer to the end of the run.
  function ToGo(s: State): nat {
    if s.job.None? then 0 else P.MainRank(s.job.value.main) + 1
  }

  lemma {:induction false} MainFlowEnds(s: State) returns (schedule: seq<Pick>)
    ensures Run(s, schedule).job.None?
    decreases ToGo(s)
  {
    if s.job.None? {
      schedule := [];
    } else {
      if !s.job.value.main.Exit? {
        P.MainStepLowersRank(s.job.value, s.st, Fine);
      }
      var rest := MainFlowEnds(Next(s, PickMain));
      schedule := [PickMain] + rest;
      assert schedule[1..] == rest;
    }
  }

  // Where no old secret is in the way, every schedule that ends leaves both engines usable exactly
  // when each was absent or usable before: what is half done is never completed.
  lemma EndsUsableIff(run: nat, st: Store, schedule: seq<Pick>)
    requires NoOldSecret(st) && Run(Begin(run, st), schedule).job.None?
    ensures BothUsable(Run(Begin(run, st), schedule).st) <==>
      AbsentOrUsable(st, RootMount) && AbsentOrUsable(st, IntermMount)
  {
    var s := Begin(run, st);
    if AbsentOrUsable(st, RootMount) && AbsentOrUsable(st, IntermMount) {
      RunKeepsGood(s, schedule);
    } else {
      HalfDoneStays(run, st, schedule);
    }
  }

  lemma HalfDoneStays(run: nat, st: Store, schedule: seq<Pick>)
    requires Run(Begin(run, st), schedule).job.None?
    requires !AbsentOrUsable(st, RootMount) || !AbsentOrUsable(st, IntermMount)
    ensures !BothUsable(Run(Begin(run, st), schedule).st)
  {
    var s := Begin(run, st);
    assert schedule != [];
    var p := if !AbsentOrUsable(st, RootMount) then RootMount else IntermMount;
    ListingDecides(s, schedule, p);
  }

  // The run looks once, at its first own step, and the goroutine has not started before it.
  lemma {:induction false} ListingDecides(s: State, schedule: seq<Pick>, p: Path)
    requires p in {RootMount, IntermMount} && p in s.st.mounts
    requires s.job.Some? && s.job.value.main.ListMounts? && s.job.value.persister.NotStarted?
    requires Run(s, schedule).job.None?
    ensures p in Run(s, schedule).st.mounts && Run(s, schedule).st.mounts[p] == s.st.mounts[p]
    decreases |schedule|
  {
    if schedule == [] {
    } else if schedule[0].PickGoroutine? {
      ListingDecides(Next(s, schedule[0]), schedule[1..], p);
    } else if Next(s, PickMain).job.Some? {
      RunLeavesUntouched(Next(s, PickMain), schedule[1..], p, s.st.mounts[p]);
    }
  }

  // --- An old secret, and the shared error ---

  function Failing(): seq<Pick> {
    [PickMain] + ([PickMain] + ([PickMain] + ([PickMain] + ([PickMain] + ([PickGoroutine] + ([PickMain] + []))))))
  }

  lemma Unfold(s: State, t: Pick, schedule: seq<Pick>)
    ensures Run(s, [t] + schedule) == Run(Next(s, t), schedule)
  {
    assert ([t] + schedule)[0] == t && ([t] + schedule)[1..] == schedule;
  }

  predicate Roleless(s: State, m: Main) {
    && s.job.Some? && s.job.value.main == m
    && RootMount in s.st.mounts && !HasRole(s.st.mounts[RootMount])
  }

  lemma EnablesRoleless(s: State)
    requires s.job.Some? && s.job.value.main.EnableRoot? && RootMount !in s.st.mounts
    ensures var s' := Next(s, PickMain); Roleless(s', TuneRoot) && s'.st.secrets == s.st.secrets && s'.st.home == s.st.home
  {
    EnableWritesNothing(s.st, RootMount, JobRun(s.job.value.run), Fine);
  }

  lemma TunesRoleless(s: State)
    requires Roleless(s, TuneRoot)
    ensures var s' := Next(s, PickMain); Roleless(s', GenerateRootKey) && s'.st.secrets == s.st.secrets && s'.st.home == s.st.home
  {
    var a := JobRun(s.job.value.run);
    ConfigureWritesNothing(s.st, RootMount, Tune, a, Fine);
    LoggedRole(s.st.mounts[RootMount], Tune, a);
  }

  lemma RootsRoleless(s: State)
    requires Roleless(s, GenerateRootKey)
    ensures var s' := Next(s, PickMain);
      Roleless(s', UrlsRoot) && s'.job.value.persister.Creating? && s'.st.secrets == s.st.secrets && s'.st.home == s.st.home
  {
    var a := JobRun(s.job.value.run);
    GenerateRootWritesNothing(s.st, RootMount, a, Fine);
    LoggedRole(s.st.mounts[RootMount], Root, a);
  }

  lemma SetsUrlsRoleless(s: State)
    requires Roleless(s, UrlsRoot)
    ensures var s' := Next(s, PickMain);
      && Roleless(s', UrlsRootTest) && s'.job.value.persister == s.job.value.persister
      && s'.st.secrets == s.st.secrets && s'.st.home == s.st.home
  {
    var a := JobRun(s.job.value.run);
    ConfigureWritesNothing(s.st, RootMount, Urls, a, Fine);
    LoggedRole(s.st.mounts[RootMount], Urls, a);
  }

  // The goroutine's AlreadyExists reaches the main flow's test, which ends the process.
  lemma ExistsIsFatal(s: State)
    requires Roleless(s, UrlsRootTest) && s.job.value.persister.Creating? && Name(s.st.home, "sip-root-ca") in s.st.secrets
    ensures var s' := Next(Next(s, PickGoroutine), PickMain); s'.job.None? && !Usable(s'.st, RootMount)
  {
    var j := s.job.value;
    var s1 := Next(s, PickGoroutine);
    assert s1 == State(Some(j.(persister := NilTest(j.persister.root), err := Exists)), s.st);
  }

  lemma OldSecretCanFail(run: nat, st: Store)
    requires !NoOldSecret(st)
    ensures var s := Run(Begin(run, st), Failing()); s.job.None? && !BothUsable(s.st)
  {
    var s := Begin(run, st);
    var s1 := Next(s, PickMain);
    assert s1.job.value.main.EnableRoot? && s1.st == st;
    EnablesRoleless(s1);
    var s2 := Next(s1, PickMain);
    TunesRoleless(s2);
    var s3 := Next(s2, PickMain);
    RootsRoleless(s3);
    var s4 := Next(s3, PickMain);
    SetsUrlsRoleless(s4);
    var s5 := Next(s4, PickMain);
    ExistsIsFatal(s5);
    var s6 := Next(s5, PickGoroutine);
    Unfold(s6, PickMain, []);
    Unfold(s5, PickGoroutine, [PickMain] + []);
    Unfold(s4, PickMain, [PickGoroutine] + ([PickMain] + []));
    Unfold(s3, PickMain, [PickMain] + ([PickGoroutine] + ([PickMain] + [])));
    Unfold(s2, PickMain, [PickMain] + ([PickMain] + ([PickGoroutine] + ([PickMain] + []))));
    Unfold(s1, PickMain, [PickMain] + ([PickMain] + ([PickMain] + ([PickGoroutine] + ([PickMain] + [])))));
    Unfold(s, PickMain, [PickMain] + ([PickMain] + ([PickMain] + ([PickMain] + ([PickGoroutine] + ([PickMain] + []))))));
  }

  // An undisturbed run leaves both engines usable under every schedule exactly when each was absent
  // or usable before, and no old secret waits for a job that generates a root.
  lemma EveryScheduleEndsUsableIff(run: nat, st: Store)
    ensures (forall schedule :: Run(Begin(run, st), schedule).job.None? ==> BothUsable(Run(Begin(run, st), schedule).st)) <==>
      AbsentOrUsable(st, RootMount) && AbsentOrUsable(st, IntermMount) && NoOldSecret(st)
  {
    if !NoOldSecret(st) {
      OldSecretCanFail(run, st);
    } else {
      var schedule := MainFlowEnds(Begin(run, st));
      EndsUsableIff(run, st, schedule);
      forall schedule | Run(Begin(run, st), schedule).job.None? && AbsentOrUsable(st, RootMount) && AbsentOrUsable(st, IntermMount)
        ensures BothUsable(Run(Begin(run, st), schedule).st)
      {
        EndsUsableIff(run, st, schedule);
      }
    }
  }

  // --- Whether the root certificate gets published ---

  // The goroutine makes its Create while the process is there.
  predicate CreatesAlong(s: State, schedule: seq<Pick>)
    decreases |schedule|
  {
    && schedule != []
    && ((schedule[0].PickGoroutine? && s.job.Some? && s.job.value.persister.Creating?) ||
        CreatesAlong(Next(s, schedule[0]), schedule[1..]))
  }

  // The secret, if it is there, holds the root alone, and so will what the goroutine has in hand.
  predicate HoldsRoot(s: State) {
    var at := Name(s.st.home, "sip-root-ca");
    var issuer := if RootMount in s.st.mounts then s.st.mounts[RootMount].issuer else None;
    && (s.job.Some? && s.job.value.persister.Creating? ==> issuer == Some(s.job.value.persister.root))
    && (at in s.st.secrets ==> issuer.Some? && s.st.secrets[at].data == map["ca.pem" := [CertBlock(issuer.value)]])
  }

  lemma RootStepHolds(s: State)
    requires s.job.Some? && OnRoot(s.job.value.main) && Good(s) && HoldsRoot(s)
    ensures var s' := Next(s, PickMain);
      HoldsRoot(s') && s'.st.home == s.st.home && s'.st.secrets == s.st.secrets
  {
    RootStepEffect(s.job.value, s.st, Fine);
    match s.job.value.main
    case EnableRoot =>
    case TuneRoot =>
    case GenerateRootKey =>
    case UrlsRoot =>
    case UrlsRootTest =>
    case RoleRoot =>
    case RoleRootTest =>
  }

  lemma NextHolds(s: State, t: Pick)
    requires Good(s) && HoldsRoot(s)
    ensures var s' := Next(s, t);
      && HoldsRoot(s') && s'.st.home == s.st.home
      && (Name(s.st.home, "sip-root-ca") in s'.st.secrets <==> Name(s.st.home, "sip-root-ca") in s.st.secrets || CreatesAlong(s, [t]))
  {
    var s' := Next(s, t);
    if s.job.Some? {
      var j := s.job.value;
      if t.PickGoroutine? {
        PersisterStepFrame(j, s.st, Fine, s'.job, s'.st);
      } else if OnRoot(j.main) {
        RootStepHolds(s);
      } else if !j.main.ListMounts? && !j.main.Exit? {
        IntermStepEffect(j, s.st, Fine);
        IntermStepJob(j, s.st, Fine);
        IntermStepFrame(j, s.st, Fine);
      }
    }
  }

  lemma {:induction false} RunHolds(s: State, schedule: seq<Pick>)
    requires Good(s) && HoldsRoot(s)
    ensures var s' := Run(s, schedule);
      && HoldsRoot(s') && s'.st.home == s.st.home
      && (Name(s.st.home, "sip-root-ca") in s'.st.secrets <==> Name(s.st.home, "sip-root-ca") in s.st.secrets || CreatesAlong(s, schedule))
    decreases |schedule|
  {
    if schedule == [] {
    } else {
      var s1 := Next(s, schedule[0]);
      NextHolds(s, schedule[0]);
      NextKeepsGood(s, schedule[0]);
      RunHolds(s1, schedule[1..]);
    }
  }

  // A run that generates the root publishes it exactly when the goroutine makes its one call before
  // the main flow leaves the process; what is then in the secret is the root and nothing else.
  lemma PublishedIffCreated(run: nat, st: Store, schedule: seq<Pick>)
    requires RootMount !in st.mounts && NoOldSecret(st) && AbsentOrUsable(st, IntermMount)
    requires Run(Begin(run, st), schedule).job.None?
    ensures var s := Run(Begin(run, st), schedule); var at := Name(st.home, "sip-root-ca");
      && Usable(s.st, RootMount)
      && (at in s.st.secrets <==> CreatesAlong(Begin(run, st), schedule))
      && (at in s.st.secrets ==> s.st.secrets[at].data == map["ca.pem" := [CertBlock(s.st.mounts[RootMount].issuer.value)]])
  {
    RunKeepsGood(Begin(run, st), schedule);
    RunHolds(Begin(run, st), schedule);
  }
}
