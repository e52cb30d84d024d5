/** The InternalCertificate reconciler: one invocation as a sequence of API calls. */
module InternalCert {
  import opened Options
  import opened Pki
  import opened MountNames
  import opened Faults
  import opened Environment
  import opened Invariants

  // The call an invocation makes next; the first four belong to client authentication.
  datatype PC =
    | GetClient | IssueClient | CreateClient | UpdateClient
    | GetServer | IssueServer | CreateServer

  // `answer` is Vault's response once there is one. `since` is the time of the store in
  // which its Get found the secret absent, None when the Get failed for another reason.
  datatype Proc =
    | Load(req: Name)
    | At(pc: PC, req: Name, cr: CertResource, answer: Option<Issued>, since: Option<nat>)
    | Done(err: bool)

  function SecretName(req: Name, cr: CertResource): Name {
    Name(req.ns, cr.secret)
  }

  function BuildSecret(cr: CertResource, i: Issued): Data {
    KeyPair(cr.keyName, cr.certName, i, if cr.clientAuth then LeafText(i) else BundleText(i))
  }

  function WriterOf(cr: CertResource, i: Issued): Writer {
    if cr.clientAuth then ForClientCert(cr.keyName, cr.certName, i) else ForServerCert(cr.keyName, cr.certName, i)
  }

  function Engine(cr: CertResource): Path {
    if cr.clientAuth then Client(cr.issuer) else IntermMount
  }

  function Step(p: Proc, st: Store, f: Fault): (Proc, Store) {
    match p
    case Done(_) => (p, st)
    case Load(req) =>
      if !f.Fine? then (Done(true), st)
      else if req !in st.certs then (Done(false), st)
      else
        var cr := st.certs[req];
        if cr.clientAuth then (At(GetClient, req, cr, None, None), st)
        else if cr.serverAuth then (At(GetServer, req, cr, None, None), st)
        else (Done(false), st)
    case At(pc, req, cr, answer, since) =>
      if pc.GetClient? || pc.GetServer? then (AfterGet(p, st, f), st)
      else if pc.IssueClient? || pc.IssueServer? then IssueStep(p, st, f)
      else if answer.Some? then WriteStep(p, answer.value, st, f)
      else (Done(true), st)
  }

  // For client authentication any error of the Get leads to an issue; for server authentication
  // an error other than NotFound ends the invocation without one.
  function AfterGet(p: Proc, st: Store, f: Fault): Proc
    requires p.At?
  {
    if f.Fine? then
      if SecretName(p.req, p.cr) in st.secrets then Done(false)
      else p.(pc := if p.pc.GetClient? then IssueClient else IssueServer, since := Some(st.clock))
    else if p.pc.GetClient? then p.(pc := IssueClient, since := None)
    else Done(false)
  }

  // Taking the first certificate of an empty chain would panic.
  function IssueStep(p: Proc, st: Store, f: Fault): (Proc, Store)
    requires p.At?
  {
    var (st', r) := IssueLeaf(st, if p.pc.IssueClient? then Client(p.cr.issuer) else IntermMount, f);
    (if r.Some? && (p.pc.IssueClient? || r.value.chain != [])
     then p.(pc := if p.pc.IssueClient? then CreateClient else CreateServer, answer := r)
     else Done(true),
     st')
  }

  function WriteStep(p: Proc, i: Issued, st: Store, f: Fault): (Proc, Store)
    requires p.At?
  {
    var at, data, owner := SecretName(p.req, p.cr), BuildSecret(p.cr, i), CertOwner(p.req);
    if p.pc.UpdateClient? then
      var (st', r) := UpdateSecret(st, at, data, owner, WriterOf(p.cr, i), f);
      (Done(r != OK), st')
    else
      var (st', r) := CreateSecret(st, at, data, owner, WriterOf(p.cr, i), f);
      (if r.AlreadyExists? && p.pc.CreateClient? then p.(pc := UpdateClient) else Done(r != OK), st')
  }

  // Every step lowers the rank, so an invocation makes at most five calls.
  function Rank(p: Proc): nat {
    match p
    case Load(_) => 5
    case Done(_) => 0
    case At(pc, _, _, _, _) =>
      match pc
      case GetClient => 4
      case IssueClient => 3
      case CreateClient => 2
      case UpdateClient => 1
      case GetServer => 4
      case IssueServer => 3
      case CreateServer => 2
  }

  lemma StepLowersRank(p: Proc, st: Store, f: Fault)
    requires !p.Done?
    ensures Rank(Step(p, st, f).0) < Rank(p)
  {
  }

  // --- Effects of one call ---

  // A write touches the secret of the resource alone; only the Update replaces one that is there.
  lemma WriteEffect(p: Proc, i: Issued, st: Store, f: Fault, p': Proc, st': Store)
    requires p.At? && (p', st') == WriteStep(p, i, st, f)
    ensures st' == st || (
      && st'.writes == st.writes + [Write(SecretName(p.req, p.cr), BuildSecret(p.cr, i), WriterOf(p.cr, i))]
      && st'.issued == st.issued
      && SecretName(p.req, p.cr) in st'.secrets
      && st'.secrets == st.secrets[SecretName(p.req, p.cr) := st'.secrets[SecretName(p.req, p.cr)]])
    ensures st' != st && SecretName(p.req, p.cr) in st.secrets ==> p.pc.UpdateClient?
    ensures p.pc.CreateServer? ==> p'.Done?
  {
  }

  lemma IssueEffect(p: Proc, st: Store, f: Fault, p': Proc, st': Store)
    requires p.At? && (p', st') == IssueStep(p, st, f)
    ensures st'.secrets == st.secrets && st'.writes == st.writes
    ensures st'.issued == st.issued || exists i ::
      && st'.issued == st.issued + [i]
      && i.path == if p.pc.IssueClient? then Client(p.cr.issuer) else IntermMount
    ensures p'.At? ==> st'.issued != st.issued && p'.pc == if p.pc.IssueClient? then CreateClient else CreateServer
  {
  }

  // --- The invariant of one invocation ---

  // A secret that is there now although the invocation saw it absent was created since then.
  ghost predicate AppearedSince(st: Store, at: Name, t: nat) {
    t <= st.clock && (at in st.secrets ==> st.secrets[at].created >= t)
  }

  ghost predicate ProcInv(p: Proc, st: Store) {
    match p
    case At(pc, req, cr, answer, since) =>
      && cr.clientAuth != cr.serverAuth
      && (cr.clientAuth <==> pc in {GetClient, IssueClient, CreateClient, UpdateClient})
      && (answer.Some? <==> pc in {CreateClient, UpdateClient, CreateServer})
      && (answer.Some? ==> answer.value in st.issued && answer.value.path == Engine(cr))
      && (since.Some? ==> AppearedSince(st, SecretName(req, cr), since.value))
      && (pc in {IssueServer, CreateServer} ==> since.Some?)
    case _ => true
  }

  lemma ProcInvStable(p: Proc, st: Store, st': Store, a: Actor)
    requires ProcInv(p, st) && Allowed(st, st', a)
    ensures ProcInv(p, st')
  {
    if p.At? {
      assert PartAllowed(Ledgers, st, st', a);
      assert PartAllowed(SecretAt(SecretName(p.req, p.cr)), st, st', a);
    }
  }

  // The calls that a client cache may answer from an earlier store.
  predicate Reads(p: Proc) {
    p.Load? || (p.At? && (p.pc.GetClient? || p.pc.GetServer?))
  }

  // What is known of a store that a cache once held: what was absent then and is there now was
  // created since.
  ghost predicate Earlier(seen: Store, st: Store) {
    && seen.clock <= st.clock
    && AllAdmitted(seen)
    && forall n :: n !in seen.secrets ==> AppearedSince(st, n, seen.clock)
  }

  lemma EarlierStable(seen: Store, st: Store, st': Store, a: Actor)
    requires Earlier(seen, st) && Allowed(st, st', a)
    ensures Earlier(seen, st')
  {
    assert PartAllowed(Ledgers, st, st', a);
    forall n | n !in seen.secrets ensures AppearedSince(st', n, seen.clock) {
      assert AppearedSince(st, n, seen.clock);
      assert PartAllowed(SecretAt(n), st, st', a);
    }
  }

  lemma ReadKeeps(p: Proc, seen: Store, st: Store, f: Fault)
    requires Reads(p) && ProcInv(p, st) && Earlier(seen, st)
    ensures ProcInv(Step(p, seen, f).0, st)
  {
    if p.At? && SecretName(p.req, p.cr) !in seen.secrets {
      assert AppearedSince(st, SecretName(p.req, p.cr), seen.clock);
    }
  }

  lemma WriteStepKeeps(p: Proc, i: Issued, st: Store, f: Fault, p': Proc, st': Store, a: Actor)
    requires p.At? && p.answer == Some(i) && StoreInv(st) && ProcInv(p, st)
    requires (p', st') == WriteStep(p, i, st, f)
    ensures StoreInv(st') && Allowed(st, st', a)
    ensures p'.At? ==> p' == p.(pc := UpdateClient) && st' == st
  {
    var at, data, owner := SecretName(p.req, p.cr), BuildSecret(p.cr, i), CertOwner(p.req);
    assert WriteInv(data, WriterOf(p.cr, i), st);
    if p.pc.UpdateClient? {
      UpdateKeeps(st, at, data, owner, WriterOf(p.cr, i), f, a, st');
    } else {
      CreateKeeps(st, at, data, owner, WriterOf(p.cr, i), f, a, st');
    }
  }

  lemma IssueStepKeeps(p: Proc, st: Store, f: Fault, p': Proc, st': Store, a: Actor)
    requires p.At? && p.pc in {IssueClient, IssueServer}
    requires StoreInv(st) && ProcInv(p, st) && (p', st') == IssueStep(p, st, f)
    ensures StoreInv(st') && Allowed(st, st', a) && ProcInv(p', st')
  {
    IssueKeeps(st, Engine(p.cr), f, a, st');
    IssueAnswer(st, Engine(p.cr), f);
  }

  // One call of an invocation keeps the store's invariant and its own, and touches no mount.
  lemma StepKeeps(p: Proc, st: Store, f: Fault, p': Proc, st': Store, a: Actor)
    requires StoreInv(st) && ProcInv(p, st) && (p', st') == Step(p, st, f)
    ensures StoreInv(st') && Allowed(st, st', a) && ProcInv(p', st')
  {
    match p
    case Load(_) => assert Holds(Resources, st);
    case Done(_) =>
    case At(pc, _, _, answer, _) =>
      if pc in {IssueClient, IssueServer} {
        IssueStepKeeps(p, st, f, p', st', a);
      } else if answer.Some? {
        WriteStepKeeps(p, answer.value, st, f, p', st', a);
      }
  }
}
