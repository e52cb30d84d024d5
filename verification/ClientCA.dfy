/** The InternalClientCA reconciler: one invocation as a sequence of API calls. */
module ClientCA {
  import opened Options
  import opened Pki
  import opened MountNames
  import opened Faults
  import opened Environment
  import opened Invariants

  // The call an invocation makes next.
  datatype PC =
    | ListMounts
    | EnableIt | TuneIt | RootIt | UrlsIt | RoleIt   // enablePKIClientCA, steps 1 to 5
    | ClusterConfig | RootToken                      // its reading of the root token
    | CreateNew                                      // Create after provisioning
    | ReadChain | UpdateOld | CreateMissing          // the branch for an engine that is listed

  // `text` is the certificate the invocation holds, empty while it has none.
  datatype Proc =
    | Load(req: Name)
    | At(pc: PC, req: Name, cr: CAResource, text: Text)
    | Done(err: bool)

  function SecretName(req: Name, cr: CAResource): Name {
    Name(req.ns, cr.secret)
  }

  function BuildSecret(cr: CAResource, text: Text): Data {
    map[cr.certName := text]
  }

  function WriterOf(cr: CAResource): Writer {
    ForClientCA(cr.cn, cr.certName)
  }

  function Proceed(p: Proc, ok: bool, pc: PC): Proc
    requires p.At?
  {
    if ok then p.(pc := pc) else Done(true)
  }

  function Step(id: nat, p: Proc, st: Store, f: Fault): (Proc, Store) {
    match p
    case Done(_) => (p, st)
    case Load(req) =>
      if !f.Fine? then (Done(true), st)
      else if req !in st.cas then (Done(false), st)
      else (At(ListMounts, req, st.cas[req], []), st)
    case At(pc, req, cr, text) =>
      if pc in {CreateNew, UpdateOld, CreateMissing} then StoreStep(p, st, f) else VaultStep(id, p, st, f)
  }

  function VaultStep(id: nat, p: Proc, st: Store, f: Fault): (Proc, Store)
    requires p.At? && p.pc !in {CreateNew, UpdateOld, CreateMissing}
  {
    var m, a := ClientMount(p.cr.cn), Reconcile(id);
    match p.pc
    case ListMounts =>
      (Proceed(p, f.Fine?, if m in st.mounts then ReadChain else EnableIt), st)
    case EnableIt =>
      var (st', ok) := EnableEngine(st, m, a, f);
      (Proceed(p, ok, TuneIt), st')
    case TuneIt =>
      var (st', ok) := Configure(st, m, Tune, a, f);
      (Proceed(p, ok, RootIt), st')
    case RootIt =>
      var (st', c) := GenerateRoot(st, m, a, f);
      (if c.Some? then p.(pc := UrlsIt, text := [CertBlock(c.value)]) else Done(true), st')
    case UrlsIt =>
      var (st', ok) := Configure(st, m, Urls, a, f);
      (Proceed(p, ok, RoleIt), st')
    case RoleIt =>
      var (st', ok) := Configure(st, m, Role, a, f);
      (Proceed(p, ok, ClusterConfig), st')
    case ClusterConfig =>
      (Proceed(p, f.Fine?, RootToken), st)
    case RootToken =>
      // A token that cannot be read yields an empty certificate and no error.
      var held := f.Fine? && Name(st.home, TOKEN_SECRET) in st.secrets;
      (p.(pc := CreateNew, text := if held then p.text else []), st)
    case ReadChain =>
      (if f.Fine? then p.(pc := UpdateOld, text := IssuerText(st, m)) else Done(true), st)
  }

  function StoreStep(p: Proc, st: Store, f: Fault): (Proc, Store)
    requires p.At? && p.pc in {CreateNew, UpdateOld, CreateMissing}
  {
    var at, data, owner := SecretName(p.req, p.cr), BuildSecret(p.cr, p.text), CAOwner(p.req);
    if p.pc.UpdateOld? then
      var (st', r) := UpdateSecret(st, at, data, owner, WriterOf(p.cr), f);
      (if r.NotFound? then p.(pc := CreateMissing) else Done(r != OK), st')
    else
      // AlreadyExists is returned as an error, like any other.
      var (st', r) := CreateSecret(st, at, data, owner, WriterOf(p.cr), f);
      (Done(r != OK), st')
  }

  // Every step lowers the rank, so an invocation makes at most fourteen calls.
  function Rank(p: Proc): nat {
    match p
    case Load(_) => 12
    case Done(_) => 0
    case At(pc, _, _, _) =>
      match pc
      case ListMounts => 11
      case EnableIt => 10
      case TuneIt => 9
      case RootIt => 8
      case UrlsIt => 7
      case RoleIt => 6
      case ClusterConfig => 5
      case RootToken => 4
      case CreateNew => 1
      case ReadChain => 3
      case UpdateOld => 2
      case CreateMissing => 1
  }

  lemma StepLowersRank(id: nat, p: Proc, st: Store, f: Fault)
    requires !p.Done?
    ensures Rank(Step(id, p, st, f).0) < Rank(p)
  {
  }

  // Provisioning writes no secret and issues no leaf.
  lemma VaultStepEffect(id: nat, p: Proc, st: Store, f: Fault, st': Store)
    requires p.At? && p.pc !in {CreateNew, UpdateOld, CreateMissing} && st' == VaultStep(id, p, st, f).1
    ensures st'.secrets == st.secrets && st'.writes == st.writes && st'.issued == st.issued
  {
    match p.pc
    case EnableIt =>
    case TuneIt =>
    case RootIt =>
    case UrlsIt =>
    case RoleIt =>
    case _ =>
  }

  lemma StoreStepEffect(p: Proc, st: Store, f: Fault, st': Store)
    requires p.At? && p.pc in {CreateNew, UpdateOld, CreateMissing} && st' == StoreStep(p, st, f).1
    ensures st' == st || (
      && st'.writes == st.writes + [Write(SecretName(p.req, p.cr), BuildSecret(p.cr, p.text), WriterOf(p.cr))]
      && st'.issued == st.issued && st'.mounts == st.mounts
      && SecretName(p.req, p.cr) in st'.secrets
      && st'.secrets == st.secrets[SecretName(p.req, p.cr) := st'.secrets[SecretName(p.req, p.cr)]])
  {
  }

  // --- The invariant of one invocation ---

  // How many provisioning calls an invocation about to make the given call has behind it.
  function Progress(pc: PC): nat {
    match pc
    case TuneIt => 1
    case RootIt => 2
    case UrlsIt => 3
    case RoleIt => 4
    case ClusterConfig => 5
    case RootToken => 5
    case _ => 0
  }

  // While provisioning, the mount is exactly as far as this invocation brought it; a text that
  // is held is the engine's root.
  ghost predicate ProcInv(id: nat, p: Proc, st: Store) {
    match p
    case At(pc, _, cr, text) =>
      && (Progress(pc) > 0 ==> Owned(st, ClientMount(cr.cn), Progress(pc), Reconcile(id)))
      && (text == [] || text == IssuerText(st, ClientMount(cr.cn)))
    case _ => true
  }

  lemma ProcInvStable(id: nat, p: Proc, st: Store, st': Store, a: Actor)
    requires ProcInv(id, p, st) && Allowed(st, st', a) && a != Reconcile(id)
    ensures ProcInv(id, p, st')
  {
    if p.At? {
      assert PartAllowed(MountAt(ClientMount(p.cr.cn)), st, st', a);
    }
  }

  lemma ProvisioningKeeps(id: nat, p: Proc, st: Store, f: Fault, p': Proc, st': Store)
    requires p.At? && p.pc in {EnableIt, TuneIt, RootIt, UrlsIt, RoleIt}
    requires StoreInv(st) && ProcInv(id, p, st) && (p', st') == VaultStep(id, p, st, f)
    ensures StoreInv(st') && Allowed(st, st', Reconcile(id))
    ensures p'.At? ==> Owned(st', ClientMount(p.cr.cn), Progress(p'.pc), Reconcile(id))
    ensures p'.At? && p.pc.RootIt? ==> p'.text == IssuerText(st', ClientMount(p.cr.cn))
  {
    var m, a := ClientMount(p.cr.cn), Reconcile(id);
    match p.pc
    case EnableIt => EnableKeeps(st, m, a, f, st', EnableEngine(st, m, a, f).1);
    case TuneIt => ConfigureKeeps(st, m, 1, Tune, a, f, st', Configure(st, m, Tune, a, f).1);
    case RootIt => GenerateRootKeeps(st, m, a, f, st', GenerateRoot(st, m, a, f).1);
    case UrlsIt => ConfigureKeeps(st, m, 3, Urls, a, f, st', Configure(st, m, Urls, a, f).1);
    case RoleIt => ConfigureKeeps(st, m, 4, Role, a, f, st', Configure(st, m, Role, a, f).1);
  }

  lemma VaultStepKeeps(id: nat, p: Proc, st: Store, f: Fault, p': Proc, st': Store)
    requires p.At? && p.pc !in {CreateNew, UpdateOld, CreateMissing}
    requires StoreInv(st) && ProcInv(id, p, st) && (p', st') == VaultStep(id, p, st, f)
    ensures StoreInv(st') && Allowed(st, st', Reconcile(id)) && ProcInv(id, p', st')
  {
    if p.pc in {EnableIt, TuneIt, RootIt, UrlsIt, RoleIt} {
      ProvisioningKeeps(id, p, st, f, p', st');
      assert PartAllowed(MountAt(ClientMount(p.cr.cn)), st, st', Reconcile(id));
    }
  }

  lemma StoreStepKeeps(p: Proc, st: Store, f: Fault, p': Proc, st': Store, a: Actor)
    requires p.At? && p.pc in {CreateNew, UpdateOld, CreateMissing}
    requires StoreInv(st) && (p.text == [] || p.text == IssuerText(st, ClientMount(p.cr.cn)))
    requires (p', st') == StoreStep(p, st, f)
    ensures StoreInv(st') && Allowed(st, st', a)
    ensures p'.At? ==> p' == p.(pc := CreateMissing) && st' == st
  {
    var at, data, owner := SecretName(p.req, p.cr), BuildSecret(p.cr, p.text), CAOwner(p.req);
    assert WriteInv(data, WriterOf(p.cr), st);
    if p.pc.UpdateOld? {
      UpdateKeeps(st, at, data, owner, WriterOf(p.cr), f, a, st');
    } else {
      CreateKeeps(st, at, data, owner, WriterOf(p.cr), f, a, st');
    }
  }

  // Whatever other actors do in between, one call of an invocation keeps the store's invariant and
  // its own, and touches no mount that another actor enabled.
  lemma StepKeeps(id: nat, p: Proc, st: Store, f: Fault, p': Proc, st': Store)
    requires StoreInv(st) && ProcInv(id, p, st) && (p', st') == Step(id, p, st, f)
    ensures StoreInv(st') && Allowed(st, st', Reconcile(id)) && ProcInv(id, p', st')
  {
    if p.At? {
      if p.pc in {CreateNew, UpdateOld, CreateMissing} {
        StoreStepKeeps(p, st, f, p', st', Reconcile(id));
      } else {
        VaultStepKeeps(id, p, st, f, p', st');
      }
    }
  }
}
