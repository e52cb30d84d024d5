/** The two stores every program drives, the Kubernetes API and Vault, one call at a time.
    A call is a function from the store and a fault to the store and the reply. */
module Environment {
  import opened Options
  import opened Faults
  import opened Pki
  import opened MountNames

  datatype Name = Name(ns: string, id: string)

  datatype Reply = OK | NotFound | AlreadyExists | Failed

  // --- Custom resources and secrets ---

  datatype CAResource = CAResource(cn: string, secret: string, certName: string)

  datatype CertResource = CertResource(
    cn: string, issuer: string, clientAuth: bool, serverAuth: bool,
    secret: string, keyName: string, certName: string)

  type Data = map<string, Text>

  datatype Owner = Nobody | CAOwner(name: Name) | CertOwner(name: Name)

  // Provenance of a write. Programs never read it; it lets properties speak of who wrote what.
  datatype Writer =
    | Outside
    | ForClientCA(cn: string, certName: string)
    | ForClientCert(keyName: string, certName: string, from: Issued)
    | ForServerCert(keyName: string, certName: string, from: Issued)
    | ForRootCA(root: Cert, base: Data)

  // `version` changes with every write of the object; `created` stamps its creation.
  datatype Secret = Secret(data: Data, owner: Owner, version: nat, created: nat, writer: Writer)

  datatype Write = Write(at: Name, data: Data, writer: Writer)

  // --- Vault ---

  datatype Stage = Enable | Tune | Root | Urls | Role | Csr | Install

  // A reconcile invocation, a run of the PKI job, or anything that does not provision engines.
  datatype Actor = Reconcile(id: nat) | JobRun(run: nat) | Bystander

  datatype Entry = Entry(stage: Stage, actor: Actor)

  // `log` lists the provisioning calls that took effect; `csr` is the key behind the last CSR.
  datatype Mount = Mount(log: seq<Entry>, issuer: Option<Cert>, csr: Option<Key>)

  // Vault's answer to an issue request, with the engine that gave it.
  datatype Issued = Issued(path: Path, key: Key, cert: Cert, chain: seq<Cert>)

  datatype Store = Store(
    mounts: map<Path, Mount>,
    secrets: map<Name, Secret>,
    cas: map<Name, CAResource>,
    certs: map<Name, CertResource>,
    home: string,            // the namespace the jobs and operators run in
    clock: nat,              // next key and next version
    issued: seq<Issued>,     // every leaf Vault ever issued
    signed: seq<Cert>,       // every intermediate the root engine ever signed
    writes: seq<Write>,      // every secret write that took effect
    masked: bool)            // see PkiJob: a failed call was taken for a success

  const TOKEN_SECRET := "vault-root-token"
  const ROOT_SECRET := "sip-root-ca"
  const ROOT_KEY := "ca.pem"

  // --- Kubernetes calls ---

  function Put(st: Store, at: Name, s: Secret): Store {
    st.(secrets := st.secrets[at := s], clock := st.clock + 1, writes := st.writes + [Write(at, s.data, s.writer)])
  }

  function Answer(f: Fault, r: Reply): Reply {
    if f.Fine? then r else Failed
  }

  // Atomic; an empty data key is invalid; the object must not exist.
  function CreateSecret(st: Store, at: Name, data: Data, owner: Owner, writer: Writer, f: Fault): (Store, Reply) {
    if f.Lost? || "" in data then (st, Failed)
    else if at in st.secrets then (st, Answer(f, AlreadyExists))
    else (Put(st, at, Secret(data, owner, st.clock, st.clock, writer)), Answer(f, OK))
  }

  // Replaces the whole object, whatever its version; writing what is there already is no write.
  function UpdateSecret(st: Store, at: Name, data: Data, owner: Owner, writer: Writer, f: Fault): (Store, Reply) {
    if f.Lost? then (st, Failed)
    else if at !in st.secrets then (st, Answer(f, NotFound))
    else if "" in data then (st, Failed)
    else
      var s := st.secrets[at];
      if s.data == data && s.owner == owner then (st, Answer(f, OK))
      else (Put(st, at, Secret(data, owner, st.clock, s.created, writer)), Answer(f, OK))
  }

  // Writes back an object that was read at `version`; any write in between is a conflict.
  function UpdateVersioned(st: Store, at: Name, data: Data, version: nat, writer: Writer, f: Fault): (Store, Reply) {
    if f.Lost? || at !in st.secrets || st.secrets[at].version != version then (st, Failed)
    else
      var s := st.secrets[at];
      if s.data == data then (st, Answer(f, OK))
      else (Put(st, at, Secret(data, s.owner, st.clock, s.created, writer)), Answer(f, OK))
  }

  // --- Vault calls ---

  // Enable fails when the path is in use.
  function EnableEngine(st: Store, p: Path, a: Actor, f: Fault): (Store, bool) {
    if f.Lost? || p in st.mounts then (st, false)
    else (st.(mounts := st.mounts[p := Mount([Entry(Enable, a)], None, None)]), f.Fine?)
  }

  function Logged(m: Mount, stage: Stage, a: Actor): Mount {
    m.(log := m.log + [Entry(stage, a)])
  }

  // Tune, Urls and Role only need the mount.
  function Configure(st: Store, p: Path, stage: Stage, a: Actor, f: Fault): (Store, bool) {
    if f.Lost? || p !in st.mounts then (st, false)
    else (st.(mounts := st.mounts[p := Logged(st.mounts[p], stage, a)]), f.Fine?)
  }

  function GenerateRoot(st: Store, p: Path, a: Actor, f: Fault): (Store, Option<Cert>) {
    if f.Lost? || p !in st.mounts then (st, None)
    else
      var c := Cert(st.clock, st.clock, true);
      (st.(mounts := st.mounts[p := Logged(st.mounts[p], Root, a).(issuer := Some(c))], clock := st.clock + 1),
       if f.Fine? then Some(c) else None)
  }

  function GenerateCsr(st: Store, p: Path, a: Actor, f: Fault): (Store, Option<Key>) {
    if f.Lost? || p !in st.mounts then (st, None)
    else
      (st.(mounts := st.mounts[p := Logged(st.mounts[p], Csr, a).(csr := Some(st.clock))], clock := st.clock + 1),
       if f.Fine? then Some(st.clock) else None)
  }

  // Signing needs an issuer on the signing mount.
  function SignIntermediate(st: Store, p: Path, csr: Key, f: Fault): (Store, Option<Cert>) {
    if f.Lost? || p !in st.mounts || st.mounts[p].issuer.None? then (st, None)
    else
      var c := Cert(csr, st.mounts[p].issuer.value.subject, true);
      (st.(signed := st.signed + [c]), if f.Fine? then Some(c) else None)
  }

  // The certificate must be for the key behind the mount's CSR.
  function InstallSigned(st: Store, p: Path, c: Cert, a: Actor, f: Fault): (Store, bool) {
    if f.Lost? || p !in st.mounts || st.mounts[p].csr != Some(c.subject) then (st, false)
    else
      (st.(mounts := st.mounts[p := Logged(st.mounts[p], Install, a).(issuer := Some(c))]), f.Fine?)
  }

  predicate HasRole(m: Mount) {
    exists k :: 0 <= k < |m.log| && m.log[k].stage == Role
  }

  lemma LoggedRole(m: Mount, stage: Stage, a: Actor)
    ensures HasRole(Logged(m, stage, a)) <==> HasRole(m) || stage == Role
  {
    var log := Logged(m, stage, a).log;
    assert log[|m.log|] == Entry(stage, a);
    if HasRole(m) {
      var k :| 0 <= k < |m.log| && m.log[k].stage == Role;
      assert log[k].stage == Role;
    }
  }

  // Issuing needs an issuer and a role, and answers a fresh key pair with the engine's CA chain.
  function IssueLeaf(st: Store, p: Path, f: Fault): (Store, Option<Issued>) {
    if f.Lost? || p !in st.mounts || st.mounts[p].issuer.None? || !HasRole(st.mounts[p]) then (st, None)
    else
      var ca := st.mounts[p].issuer.value;
      var i := Issued(p, st.clock, Cert(st.clock, ca.subject, false), [ca]);
      (st.(issued := st.issued + [i], clock := st.clock + 1), if f.Fine? then Some(i) else None)
  }

  // The certificate text of an engine, empty when it has none.
  function IssuerText(st: Store, p: Path): Text {
    if p in st.mounts && st.mounts[p].issuer.Some? then [CertBlock(st.mounts[p].issuer.value)] else []
  }

  // --- What the provisioning calls leave alone ---

  predicate SameSecrets(st: Store, st': Store) {
    st'.secrets == st.secrets && st'.writes == st.writes && st'.issued == st.issued && st'.home == st.home
  }

  lemma EnableWritesNothing(st: Store, p: Path, a: Actor, f: Fault)
    ensures SameSecrets(st, EnableEngine(st, p, a, f).0)
  {
  }

  lemma ConfigureWritesNothing(st: Store, p: Path, stage: Stage, a: Actor, f: Fault)
    ensures SameSecrets(st, Configure(st, p, stage, a, f).0)
  {
  }

  lemma GenerateRootWritesNothing(st: Store, p: Path, a: Actor, f: Fault)
    ensures SameSecrets(st, GenerateRoot(st, p, a, f).0)
  {
  }

  lemma GenerateCsrWritesNothing(st: Store, p: Path, a: Actor, f: Fault)
    ensures SameSecrets(st, GenerateCsr(st, p, a, f).0)
  {
  }

  lemma SignWritesNothing(st: Store, p: Path, csr: Key, f: Fault)
    ensures SameSecrets(st, SignIntermediate(st, p, csr, f).0)
  {
  }

  lemma InstallWritesNothing(st: Store, p: Path, c: Cert, a: Actor, f: Fault)
    ensures SameSecrets(st, InstallSigned(st, p, c, a, f).0)
  {
  }

  // A call on one engine leaves every other as it is.
  predicate SameMount(st: Store, st': Store, q: Path) {
    (q in st'.mounts <==> q in st.mounts) && (q in st.mounts ==> st'.mounts[q] == st.mounts[q])
  }

  lemma EnableKeepsOthers(st: Store, p: Path, q: Path, a: Actor, f: Fault)
    requires p != q
    ensures SameMount(st, EnableEngine(st, p, a, f).0, q)
  {
  }

  lemma ConfigureKeepsOthers(st: Store, p: Path, q: Path, stage: Stage, a: Actor, f: Fault)
    requires p != q
    ensures SameMount(st, Configure(st, p, stage, a, f).0, q)
  {
  }

  lemma GenerateRootKeepsOthers(st: Store, p: Path, q: Path, a: Actor, f: Fault)
    requires p != q
    ensures SameMount(st, GenerateRoot(st, p, a, f).0, q)
  {
  }

  lemma GenerateCsrKeepsOthers(st: Store, p: Path, q: Path, a: Actor, f: Fault)
    requires p != q
    ensures SameMount(st, GenerateCsr(st, p, a, f).0, q)
  {
  }

  lemma InstallKeepsOthers(st: Store, p: Path, q: Path, c: Cert, a: Actor, f: Fault)
    requires p != q
    ensures SameMount(st, InstallSigned(st, p, c, a, f).0, q)
  {
  }
}
