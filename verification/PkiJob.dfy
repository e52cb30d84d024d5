/** One run of the PKI job: the main flow, the goroutine that persists the root certificate, and
    the variable `err` they share. A run that ends, for whatever reason, takes both with it. */
module PkiJob {
  import opened Options
  import opened Pki
  import opened MountNames
  import opened Faults
  import opened Environment
  import opened Invariants

  // What the shared variable holds: no error, AlreadyExists, or any other error.
  datatype Err = Nil | Exists | Other

  // The next call of the main flow; the steps ending in Test read `err` after the goroutine started.
  datatype Main =
    | ListMounts
    | EnableRoot | TuneRoot | GenerateRootKey | UrlsRoot | UrlsRootTest | RoleRoot | RoleRootTest
    | EnableInterm | TuneInterm | UrlsInterm | RoleInterm | GenerateIntermCsr | SignInterm | InstallInterm
    | Exit

  // The goroutine: Create, the two readings of `err`, then Get and Update.
  datatype Persister =
    | NotStarted
    | Creating(root: Cert) | NilTest(root: Cert) | ExistsTest(root: Cert)
    | Getting(root: Cert) | Updating(root: Cert, base: Data, version: nat) | LastTest
    | Ended

  // `urlsLost` remembers that the call to set the root engine's URLs had no effect.
  datatype Job = Job(
    run: nat, main: Main, wantInterm: bool, csr: Key, signed: Option<Cert>,
    persister: Persister, err: Err, urlsLost: bool)

  function Start(run: nat): Job {
    Job(run, ListMounts, false, 0, None, NotStarted, Nil, false)
  }

  function ErrOf(ok: bool): Err {
    if ok then Nil else Other
  }

  // log.Fatal ends the run.
  function OrFatal(ok: bool, j: Job): Option<Job> {
    if ok then Some(j) else None
  }

  function AfterRoot(j: Job): Job {
    j.(main := if j.wantInterm then EnableInterm else Exit)
  }

  function MainStep(j: Job, st: Store, f: Fault): (Option<Job>, Store) {
    if j.main.ListMounts? then
      var next := j.(wantInterm := IntermMount !in st.mounts);
      (OrFatal(f.Fine?, if RootMount !in st.mounts then next.(main := EnableRoot) else AfterRoot(next)), st)
    else if j.main.Exit? then (None, st)
    else if OnRoot(j.main) then RootStep(j, st, f)
    else IntermStep(j, st, f)
  }

  predicate OnRoot(m: Main) {
    m in {EnableRoot, TuneRoot, GenerateRootKey, UrlsRoot, UrlsRootTest, RoleRoot, RoleRootTest}
  }

  function RootStep(j: Job, st: Store, f: Fault): (Option<Job>, Store)
    requires OnRoot(j.main)
  {
    var a := JobRun(j.run);
    match j.main
    case EnableRoot =>
      // The error is ignored.
      (Some(j.(main := TuneRoot)), EnableEngine(st, RootMount, a, f).0)
    case TuneRoot =>
      var (st', ok) := Configure(st, RootMount, Tune, a, f);
      (OrFatal(ok, j.(main := GenerateRootKey)), st')
    case GenerateRootKey =>
      var (st', c) := GenerateRoot(st, RootMount, a, f);
      (if c.Some? then Some(j.(main := UrlsRoot, persister := Creating(c.value), err := Nil)) else None, st')
    case UrlsRoot =>
      var (st', ok) := Configure(st, RootMount, Urls, a, f);
      (Some(j.(main := UrlsRootTest, err := ErrOf(ok), urlsLost := f.Lost?)), st')
    case UrlsRootTest =>
      (OrFatal(j.err.Nil?, j.(main := RoleRoot)), st.(masked := st.masked || (j.err.Nil? && j.urlsLost)))
    case RoleRoot =>
      var (st', ok) := Configure(st, RootMount, Role, a, f);
      (Some(j.(main := RoleRootTest, err := ErrOf(ok))), st')
    case RoleRootTest =>
      (OrFatal(j.err.Nil?, AfterRoot(j)), st)
  }

  function IntermStep(j: Job, st: Store, f: Fault): (Option<Job>, Store)
    requires !OnRoot(j.main) && !j.main.ListMounts? && !j.main.Exit?
  {
    var a := JobRun(j.run);
    match j.main
    case EnableInterm =>
      (Some(j.(main := TuneInterm)), EnableEngine(st, IntermMount, a, f).0)
    case TuneInterm =>
      var (st', ok) := Configure(st, IntermMount, Tune, a, f);
      (OrFatal(ok, j.(main := UrlsInterm)), st')
    case UrlsInterm =>
      var (st', ok) := Configure(st, IntermMount, Urls, a, f);
      (OrFatal(ok, j.(main := RoleInterm)), st')
    case RoleInterm =>
      var (st', ok) := Configure(st, IntermMount, Role, a, f);
      (OrFatal(ok, j.(main := GenerateIntermCsr)), st')
    case GenerateIntermCsr =>
      var (st', k) := GenerateCsr(st, IntermMount, a, f);
      (if k.Some? then Some(j.(main := SignInterm, csr := k.value)) else None, st')
    case SignInterm =>
      var (st', c) := SignIntermediate(st, RootMount, j.csr, f);
      (if c.Some? then Some(j.(main := InstallInterm, signed := c)) else None, st')
    case InstallInterm =>
      if j.signed.None? then (None, st)
      else
        var (st', ok) := InstallSigned(st, IntermMount, j.signed.value, a, f);
        (OrFatal(ok, j.(main := Exit)), st')
  }

  function RootSecretName(st: Store): Name {
    Name(st.home, ROOT_SECRET)
  }

  function RootData(base: Data, root: Cert): Data {
    base[ROOT_KEY := [CertBlock(root)]]
  }

  function ErrOfReply(r: Reply): Err {
    match r
    case OK => Nil
    case AlreadyExists => Exists
    case _ => Other
  }

  function PersisterStep(j: Job, st: Store, f: Fault): (Option<Job>, Store) {
    var at := RootSecretName(st);
    match j.persister
    case NotStarted => (Some(j), st)
    case Ended => (Some(j), st)
    case Creating(root) =>
      var (st', r) := CreateSecret(st, at, RootData(map[], root), Nobody, ForRootCA(root, map[]), f);
      (Some(j.(persister := NilTest(root), err := ErrOfReply(r))), st')
    case NilTest(root) =>
      (Some(j.(persister := if j.err.Nil? then Ended else ExistsTest(root))), st)
    case ExistsTest(root) =>
      (OrFatal(j.err.Exists?, j.(persister := Getting(root))), st)
    case Getting(root) =>
      // The error of the Get is ignored; assigning to a key of a missing map panics.
      if f.Fine? && at in st.secrets && st.secrets[at].data != map[] then
        (Some(j.(persister := Updating(root, st.secrets[at].data, st.secrets[at].version))), st)
      else (None, st)
    case Updating(root, base, version) =>
      var (st', r) := UpdateVersioned(st, at, RootData(base, root), version, ForRootCA(root, base), f);
      (Some(j.(persister := LastTest, err := ErrOfReply(r))), st')
    case LastTest =>
      (OrFatal(j.err.Nil?, j.(persister := Ended)), st)
  }

  // --- Effects of one call ---

  lemma RootStepEffect(j: Job, st: Store, f: Fault)
    requires OnRoot(j.main)
    ensures SameSecrets(st, RootStep(j, st, f).1)
  {
    var a := JobRun(j.run);
    EnableWritesNothing(st, RootMount, a, f);
    GenerateRootWritesNothing(st, RootMount, a, f);
    forall stage ensures SameSecrets(st, Configure(st, RootMount, stage, a, f).0) {
      ConfigureWritesNothing(st, RootMount, stage, a, f);
    }
  }

  lemma IntermStepEffect(j: Job, st: Store, f: Fault)
    requires !OnRoot(j.main) && !j.main.ListMounts? && !j.main.Exit?
    ensures SameSecrets(st, IntermStep(j, st, f).1)
  {
    var a := JobRun(j.run);
    EnableWritesNothing(st, IntermMount, a, f);
    forall stage ensures SameSecrets(st, Configure(st, IntermMount, stage, a, f).0) {
      ConfigureWritesNothing(st, IntermMount, stage, a, f);
    }
    GenerateCsrWritesNothing(st, IntermMount, a, f);
    SignWritesNothing(st, RootMount, j.csr, f);
    if j.signed.Some? {
      InstallWritesNothing(st, IntermMount, j.signed.value, a, f);
    }
  }

  // The second half of the main flow stays there and leaves the goroutine alone.
  lemma IntermStepStays(j: Job, st: Store, f: Fault)
    requires !OnRoot(j.main) && !j.main.ListMounts? && !j.main.Exit?
    ensures var j' := IntermStep(j, st, f).0;
      j'.Some? ==> !OnRoot(j'.value.main) && !j'.value.main.ListMounts? && j'.value.persister == j.persister
  {
  }

  // The main flow writes no secret.
  lemma MainStepEffect(j: Job, st: Store, f: Fault, st': Store)
    requires st' == MainStep(j, st, f).1
    ensures SameSecrets(st, st')
  {
    if OnRoot(j.main) {
      RootStepEffect(j, st, f);
    } else if !j.main.ListMounts? && !j.main.Exit? {
      IntermStepEffect(j, st, f);
    }
  }

  // The main flow takes a lost URL configuration for a success only at its test, with `err` clear;
  // the call itself leaves `err` set.
  lemma MainStepMasks(j: Job, st: Store, f: Fault, j': Option<Job>, st': Store)
    requires (j', st') == MainStep(j, st, f)
    ensures st'.masked == (st.masked || (j.main.UrlsRootTest? && j.err.Nil? && j.urlsLost))
    ensures j'.Some? && j'.value.main.UrlsRootTest? && j'.value.urlsLost ==> j'.value.err == Other
  {
    if OnRoot(j.main) {
      match j.main
      case EnableRoot =>
      case TuneRoot =>
      case GenerateRootKey =>
      case UrlsRoot =>
      case UrlsRootTest =>
      case RoleRoot =>
      case RoleRootTest =>
    } else if !j.main.ListMounts? && !j.main.Exit? {
      IntermStepMasks(j, st, f, j', st');
    }
  }

  lemma IntermStepMasks(j: Job, st: Store, f: Fault, j': Option<Job>, st': Store)
    requires !OnRoot(j.main) && !j.main.ListMounts? && !j.main.Exit? && (j', st') == IntermStep(j, st, f)
    ensures st'.masked == st.masked && (j'.Some? ==> !j'.value.main.UrlsRootTest?)
  {
    match j.main
    case EnableInterm =>
    case TuneInterm =>
    case UrlsInterm =>
    case RoleInterm =>
    case GenerateIntermCsr =>
    case SignInterm =>
    case InstallInterm =>
  }

  // The goroutine writes the root certificate's secret alone, and keeps the other keys of a secret
  // it finds: the data it writes is the present data with one key set.
  lemma PersisterEffect(j: Job, st: Store, f: Fault, st': Store)
    requires PersisterInv(j, st) && st' == PersisterStep(j, st, f).1
    ensures st' == st || exists root, base ::
      && st'.writes == st.writes + [Write(Name(st.home, "sip-root-ca"), base["ca.pem" := [CertBlock(root)]], ForRootCA(root, base))]
      && st'.issued == st.issued && st'.mounts == st.mounts
      && HasIssuer(st, RootMount, root)
      && base == (if Name(st.home, "sip-root-ca") in st.secrets then st.secrets[Name(st.home, "sip-root-ca")].data else map[])
      && Name(st.home, "sip-root-ca") in st'.secrets && st'.secrets[Name(st.home, "sip-root-ca")].data == base["ca.pem" := [CertBlock(root)]]
      && st'.secrets == st.secrets[Name(st.home, "sip-root-ca") := st'.secrets[Name(st.home, "sip-root-ca")]]
  {
    match j.persister
    case Creating(root) =>
    case Updating(root, base, version) =>
    case _ => assert st' == st;
  }

  lemma PersisterWritesRoot(j: Job, st: Store, f: Fault, st': Store)
    requires PersisterInv(j, st) && st' == PersisterStep(j, st, f).1 && st'.secrets != st.secrets
    ensures var at := Name(st.home, "sip-root-ca");
      && RootMount in st.mounts && st.mounts[RootMount].issuer.Some?
      && at in st'.secrets
      && st'.secrets[at].data ==
           (if at in st.secrets then st.secrets[at].data else map[])["ca.pem" := [CertBlock(st.mounts[RootMount].issuer.value)]]
      && st'.secrets - {at} == st.secrets - {at}
  {
    PersisterEffect(j, st, f, st');
  }

  // --- The invariant of one run ---

  ghost predicate MainInv(j: Job, st: Store) {
    var a := JobRun(j.run);
    match j.main
    case ListMounts => true
    case EnableRoot => RootMount !in st.mounts
    case TuneRoot => RootMount !in st.mounts || Owned(st, RootMount, 1, a)
    case GenerateRootKey => Owned(st, RootMount, 2, a)
    case UrlsRoot => Owned(st, RootMount, 3, a) && !st.masked
    case UrlsRootTest => Owned(st, RootMount, if j.urlsLost then 3 else 4, a) && !st.masked
    case RoleRoot => Owned(st, RootMount, if st.masked then 3 else 4, a)
    case RoleRootTest => true
    case EnableInterm => true
    case TuneInterm => IntermMount !in st.mounts || Owned(st, IntermMount, 1, a)
    case UrlsInterm => Owned(st, IntermMount, 2, a)
    case RoleInterm => Owned(st, IntermMount, 3, a)
    case GenerateIntermCsr => Owned(st, IntermMount, 4, a)
    case SignInterm =>
      Owned(st, IntermMount, 5, a) && st.mounts[IntermMount].csr == Some(j.csr) && st.signed == []
    case InstallInterm => Owned(st, IntermMount, 5, a)
    case Exit => true
  }

  // Until the intermediate engine is enabled, a run that wants it knows it is absent.
  predicate BeforeInterm(m: Main) {
    OnRoot(m) || m.EnableInterm?
  }

  ghost predicate PersisterInv(j: Job, st: Store) {
    match j.persister
    case Creating(root) => HasIssuer(st, RootMount, root)
    case NilTest(root) => HasIssuer(st, RootMount, root)
    case ExistsTest(root) => HasIssuer(st, RootMount, root)
    case Getting(root) => HasIssuer(st, RootMount, root)
    case Updating(root, base, version) =>
      && HasIssuer(st, RootMount, root)
      && version < st.clock
      && var at := Name(st.home, "sip-root-ca");
         at in st.secrets && st.secrets[at].version == version ==> st.secrets[at].data == base
    case _ => true
  }

  // The invariant of a run, by concern: where the main flow stands, what it remembers, and the
  // goroutine.
  datatype Thread = MainFlow | Memory | Goroutine

  ghost predicate ThreadInv(t: Thread, j: Job, st: Store) {
    match t
    case MainFlow => MainInv(j, st)
    case Memory =>
      && (BeforeInterm(j.main) && j.wantInterm ==> IntermMount !in st.mounts)
      && (j.main.EnableInterm? ==> j.wantInterm)
      && (j.main.InstallInterm? && j.signed.Some? ==> st.signed == [j.signed.value])
    case Goroutine => PersisterInv(j, st)
  }

  ghost predicate JobInv(j: Job, st: Store) {
    forall t :: ThreadInv(t, j, st)
  }

  lemma Concerns(j: Job, st: Store)
    requires JobInv(j, st)
    ensures ThreadInv(MainFlow, j, st) && ThreadInv(Memory, j, st) && ThreadInv(Goroutine, j, st)
  {
  }

  // A run that has not ended keeps the invariant of thread t.
  ghost predicate Continues(t: Thread, j': Option<Job>, st: Store) {
    forall j :: j' == Some(j) ==> ThreadInv(t, j, st)
  }

  ghost predicate SameGoroutine(j: Job, st: Store, j': Option<Job>, st': Store) {
    st'.secrets == st.secrets && (j'.Some? ==> j'.value.persister == j.persister)
  }

  lemma JobInvStable(j: Job, st: Store, st': Store, a: Actor)
    requires Holds(Engines, st') && JobInv(j, st) && Allowed(st, st', a) && !a.JobRun?
    ensures JobInv(j, st')
  {
    assert PartAllowed(Ledgers, st, st', a);
    assert PartAllowed(MountAt(RootMount), st, st', a) && PartAllowed(MountAt(IntermMount), st, st', a);
    assert PartAllowed(SecretAt(Name(st.home, "sip-root-ca")), st, st', a);
    EngineInv(st', RootMount);
    EngineInv(st', IntermMount);
    Concerns(j, st);
  }

  // --- One call keeps the invariants ---

  // What the main flow's own steps leave to the goroutine.
  lemma PersisterInvStable(j: Job, st: Store, j': Job, st': Store)
    requires PersisterInv(j, st) && Grows(st, st') && st'.secrets == st.secrets && j'.persister == j.persister
    ensures PersisterInv(j', st')
  {
  }

  lemma RootKeyStepKeeps(j: Job, st: Store, f: Fault, j': Option<Job>, st': Store)
    requires j.main in {EnableRoot, TuneRoot, GenerateRootKey}
    requires StoreInv(st) && JobInv(j, st) && (j', st') == RootStep(j, st, f)
    ensures StoreInv(st') && Allowed(st, st', JobRun(j.run))
    ensures Continues(MainFlow, j', st') && Continues(Memory, j', st')
    ensures SameGoroutine(j, st, j', st') || (j.main.GenerateRootKey? && Continues(Goroutine, j', st'))
  {
    var a := JobRun(j.run);
    Concerns(j, st);
    match j.main
    case EnableRoot => EnableKeeps(st, RootMount, a, f, st', EnableEngine(st, RootMount, a, f).1);
    case TuneRoot =>
      if RootMount in st.mounts {
        ConfigureKeeps(st, RootMount, 1, Tune, a, f, st', Configure(st, RootMount, Tune, a, f).1);
      }
    case GenerateRootKey => GenerateRootKeeps(st, RootMount, a, f, st', GenerateRoot(st, RootMount, a, f).1);
  }

  lemma RootConfigStepKeeps(j: Job, st: Store, f: Fault, j': Option<Job>, st': Store)
    requires j.main in {UrlsRoot, UrlsRootTest, RoleRoot, RoleRootTest}
    requires StoreInv(st) && JobInv(j, st) && (j', st') == RootStep(j, st, f)
    ensures StoreInv(st') && Allowed(st, st', JobRun(j.run))
    ensures Continues(MainFlow, j', st') && Continues(Memory, j', st') && SameGoroutine(j, st, j', st')
  {
    var a := JobRun(j.run);
    Concerns(j, st);
    match j.main
    case UrlsRoot => ConfigureKeeps(st, RootMount, 3, Urls, a, f, st', Configure(st, RootMount, Urls, a, f).1);
    case UrlsRootTest => MaskKeeps(st, a, st');
    case RoleRoot =>
      var k := if st.masked then 3 else 4;
      ConfigureKeeps(st, RootMount, k, Role, a, f, st', Configure(st, RootMount, Role, a, f).1);
    case RoleRootTest =>
  }

  lemma IntermEnableStepKeeps(j: Job, st: Store, f: Fault, j': Option<Job>, st': Store)
    requires j.main in {EnableInterm, TuneInterm}
    requires StoreInv(st) && JobInv(j, st) && (j', st') == IntermStep(j, st, f)
    ensures StoreInv(st') && Allowed(st, st', JobRun(j.run))
    ensures Continues(MainFlow, j', st') && Continues(Memory, j', st') && SameGoroutine(j, st, j', st')
  {
    var a := JobRun(j.run);
    Concerns(j, st);
    match j.main
    case EnableInterm => EnableKeeps(st, IntermMount, a, f, st', EnableEngine(st, IntermMount, a, f).1);
    case TuneInterm =>
      if IntermMount in st.mounts {
        ConfigureKeeps(st, IntermMount, 1, Tune, a, f, st', Configure(st, IntermMount, Tune, a, f).1);
      }
  }

  lemma IntermConfigStepKeeps(j: Job, st: Store, f: Fault, j': Option<Job>, st': Store)
    requires j.main in {UrlsInterm, RoleInterm}
    requires StoreInv(st) && JobInv(j, st) && (j', st') == IntermStep(j, st, f)
    ensures StoreInv(st') && Allowed(st, st', JobRun(j.run))
    ensures Continues(MainFlow, j', st') && Continues(Memory, j', st') && SameGoroutine(j, st, j', st')
  {
    var a := JobRun(j.run);
    Concerns(j, st);
    match j.main
    case UrlsInterm => ConfigureKeeps(st, IntermMount, 2, Urls, a, f, st', Configure(st, IntermMount, Urls, a, f).1);
    case RoleInterm => ConfigureKeeps(st, IntermMount, 3, Role, a, f, st', Configure(st, IntermMount, Role, a, f).1);
  }

  lemma IntermKeyStepKeeps(j: Job, st: Store, f: Fault, j': Option<Job>, st': Store)
    requires j.main in {GenerateIntermCsr, SignInterm}
    requires StoreInv(st) && JobInv(j, st) && (j', st') == IntermStep(j, st, f)
    ensures StoreInv(st') && Allowed(st, st', JobRun(j.run))
    ensures Continues(MainFlow, j', st') && Continues(Memory, j', st') && SameGoroutine(j, st, j', st')
  {
    var a := JobRun(j.run);
    Concerns(j, st);
    match j.main
    case GenerateIntermCsr => GenerateCsrKeeps(st, a, f, st', GenerateCsr(st, IntermMount, a, f).1);
    case SignInterm => SignKeeps(st, j.csr, a, f, st', SignIntermediate(st, RootMount, j.csr, f).1);
  }

  lemma InstallStepKeeps(j: Job, st: Store, f: Fault, j': Option<Job>, st': Store)
    requires j.main.InstallInterm?
    requires StoreInv(st) && JobInv(j, st) && (j', st') == IntermStep(j, st, f)
    ensures StoreInv(st') && Allowed(st, st', JobRun(j.run))
    ensures Continues(MainFlow, j', st') && Continues(Memory, j', st') && SameGoroutine(j, st, j', st')
  {
    var a := JobRun(j.run);
    Concerns(j, st);
    if j.signed.Some? {
      InstallKeeps(st, j.signed.value, a, f, st');
    }
  }

  // One call of the main flow keeps the store's invariant and those of both threads.
  lemma MainStepKeeps(j: Job, st: Store, f: Fault, j': Option<Job>, st': Store)
    requires StoreInv(st) && JobInv(j, st) && (j', st') == MainStep(j, st, f)
    ensures StoreInv(st') && Allowed(st, st', JobRun(j.run))
    ensures forall k :: j' == Some(k) ==> JobInv(k, st')
  {
    Concerns(j, st);
    if j.main in {EnableRoot, TuneRoot, GenerateRootKey} {
      RootKeyStepKeeps(j, st, f, j', st');
    } else if OnRoot(j.main) {
      RootConfigStepKeeps(j, st, f, j', st');
    } else if j.main in {EnableInterm, TuneInterm} {
      IntermEnableStepKeeps(j, st, f, j', st');
    } else if j.main in {UrlsInterm, RoleInterm} {
      IntermConfigStepKeeps(j, st, f, j', st');
    } else if j.main.InstallInterm? {
      InstallStepKeeps(j, st, f, j', st');
    } else if !j.main.ListMounts? && !j.main.Exit? {
      IntermKeyStepKeeps(j, st, f, j', st');
    }
    AllowedGrows(st, st', JobRun(j.run));
    if j'.Some? && j'.value.persister == j.persister {
      PersisterInvStable(j, st, j'.value, st');
    }
  }

  lemma PersisterStepFrame(j: Job, st: Store, f: Fault, j': Option<Job>, st': Store)
    requires (j', st') == PersisterStep(j, st, f)
    ensures st'.mounts == st.mounts && st'.signed == st.signed && st'.masked == st.masked
    ensures j'.Some? ==> j'.value == j.(persister := j'.value.persister, err := j'.value.err)
  {
    match j.persister {
      case Creating(_) =>
      case Updating(_, _, _) =>
      case _ => assert st' == st;
    }
  }

  lemma SameMainFlow(j: Job, st: Store, j': Job, st': Store)
    requires JobInv(j, st) && j' == j.(persister := j'.persister, err := j'.err)
    requires st'.mounts == st.mounts && st'.signed == st.signed && st'.masked == st.masked
    ensures forall t :: t != Goroutine ==> ThreadInv(t, j', st')
  {
    Concerns(j, st);
  }

  lemma PersisterStepGoroutine(j: Job, st: Store, f: Fault, j': Option<Job>, st': Store)
    requires StoreInv(st) && JobInv(j, st) && (j', st') == PersisterStep(j, st, f)
    ensures Continues(Goroutine, j', st')
  {
    Concerns(j, st);
    assert Holds(Secrets, st);
  }

  lemma PersisterStepStore(j: Job, st: Store, f: Fault, j': Option<Job>, st': Store, a: Actor)
    requires StoreInv(st) && JobInv(j, st) && (j', st') == PersisterStep(j, st, f)
    ensures StoreInv(st') && Allowed(st, st', a)
  {
    Concerns(j, st);
    var at := Name(st.home, "sip-root-ca");
    match j.persister {
      case Creating(root) =>
        CreateKeeps(st, at, map["ca.pem" := [CertBlock(root)]], Nobody, ForRootCA(root, map[]), f, a, st');
      case Updating(root, base, version) =>
        UpdateVersionedKeeps(st, at, base["ca.pem" := [CertBlock(root)]], version, ForRootCA(root, base), f, a, st');
      case _ =>
    }
  }

  // One call of the goroutine keeps them too; it never touches Vault, and the main flow's
  // invariants do not speak of `err`.
  lemma PersisterStepKeeps(j: Job, st: Store, f: Fault, j': Option<Job>, st': Store, a: Actor)
    requires StoreInv(st) && JobInv(j, st) && (j', st') == PersisterStep(j, st, f)
    ensures StoreInv(st') && Allowed(st, st', a)
    ensures forall k :: j' == Some(k) ==> JobInv(k, st')
  {
    PersisterStepStore(j, st, f, j', st', a);
    PersisterStepFrame(j, st, f, j', st');
    PersisterStepGoroutine(j, st, f, j', st');
    if j'.Some? {
      SameMainFlow(j, st, j'.value, st');
      forall t ensures ThreadInv(t, j'.value, st') {
        assert t == Goroutine ==> ThreadInv(Goroutine, j'.value, st');
      }
    }
  }
}
