/** What every reachable store satisfies, what every step may do to it, and the proof that each
    API call keeps the one and stays within the other. */
module Invariants {
  import opened Options
  import opened Pki
  import opened MountNames
  import opened Faults
  import opened Environment

  // The order in which the programs provision their engines.
  const CLIENT_SCRIPT := [Enable, Tune, Root, Urls, Role]
  const ROOT_SCRIPT := [Enable, Tune, Root, Urls, Role]
  const ROOT_GAP_SCRIPT := [Enable, Tune, Root, Role]
  const INTERM_SCRIPT := [Enable, Tune, Urls, Role, Csr, Install]

  function Script(p: Path, masked: bool): seq<Stage> {
    match p
    case Client(_) => CLIENT_SCRIPT
    case RootMount => if masked then ROOT_GAP_SCRIPT else ROOT_SCRIPT
    case IntermMount => INTERM_SCRIPT
    case Elsewhere(_) => []
  }

  // The log is a prefix of the script, all of it done by one actor.
  ghost predicate Follows(log: seq<Entry>, script: seq<Stage>, a: Actor) {
    |log| <= |script| && forall k :: 0 <= k < |log| ==> log[k] == Entry(script[k], a)
  }

  ghost predicate MountInv(p: Path, m: Mount, st: Store) {
    && Canonical(p)
    && (!p.Elsewhere? ==>
      && |m.log| > 0
      && Follows(m.log, Script(p, st.masked), m.log[0].actor)
      && (p.Client? ==> m.log[0].actor.Reconcile?)
      && (p.RootMount? || p.IntermMount? ==> m.log[0].actor.JobRun?)
      && (m.issuer.Some? <==> |m.log| >= if p.IntermMount? then 6 else 3)
      && (m.csr.Some? <==> p.IntermMount? && |m.log| >= 5)
      && (m.csr.Some? ==> m.csr.value < st.clock)
      && (m.issuer.Some? ==> m.issuer.value.subject < st.clock && m.issuer.value.isCA)
      && (m.issuer.Some? && !p.IntermMount? ==> Signs(m.issuer.value, m.issuer.value)))
  }

  // Two engines of ours never share a key.
  ghost predicate DistinctIssuers(st: Store) {
    forall p, q ::
      p in st.mounts && q in st.mounts && !p.Elsewhere? && !q.Elsewhere? && p != q &&
      st.mounts[p].issuer.Some? && st.mounts[q].issuer.Some? ==>
        st.mounts[p].issuer.value.subject != st.mounts[q].issuer.value.subject
  }

  // The CSR key of the intermediate is nobody's issuer key but the intermediate's own.
  ghost predicate DistinctCsr(st: Store) {
    IntermMount in st.mounts && st.mounts[IntermMount].csr.Some? ==>
      forall q ::
        q in st.mounts && !q.Elsewhere? && !q.IntermMount? && st.mounts[q].issuer.Some? ==>
          st.mounts[q].issuer.value.subject != st.mounts[IntermMount].csr.value
  }

  ghost predicate HasIssuer(st: Store, p: Path, c: Cert) {
    p in st.mounts && st.mounts[p].issuer == Some(c)
  }

  // At most one intermediate was ever signed, by the root, for the intermediate engine's CSR.
  ghost predicate ServerChain(st: Store) {
    && |st.signed| <= 1
    && (|st.signed| == 1 ==>
      && RootMount in st.mounts && st.mounts[RootMount].issuer.Some?
      && Signs(st.mounts[RootMount].issuer.value, st.signed[0])
      && st.signed[0].isCA
      && IntermMount in st.mounts && st.mounts[IntermMount].csr == Some(st.signed[0].subject))
    && (IntermMount in st.mounts && st.mounts[IntermMount].issuer.Some? ==>
      |st.signed| == 1 && st.mounts[IntermMount].issuer == Some(st.signed[0]))
  }

  ghost predicate IssuedInv(i: Issued, st: Store) {
    && !i.path.Elsewhere? && !i.path.RootMount?
    && i.path in st.mounts && st.mounts[i.path].issuer.Some?
    && i.cert == Cert(i.key, st.mounts[i.path].issuer.value.subject, false)
    && i.chain == [st.mounts[i.path].issuer.value]
    && i.key < st.clock
  }

  function KeyPair(keyName: string, certName: string, i: Issued, certText: Text): Data {
    map[keyName := [KeyBlock(i.key)]][certName := certText]
  }

  function LeafText(i: Issued): Text {
    [CertBlock(i.cert)]
  }

  function BundleText(i: Issued): Text {
    [CertBlock(i.cert)] + if i.chain == [] then [] else [CertBlock(i.chain[0])]
  }

  // What a secret holds, by who wrote it.
  ghost predicate WriteInv(data: Data, writer: Writer, st: Store) {
    match writer
    case Outside => true
    case ForClientCA(cn, certName) =>
      data.Keys == {certName} && (data[certName] == [] || data[certName] == IssuerText(st, ClientMount(cn)))
    case ForClientCert(keyName, certName, i) =>
      i in st.issued && i.path.Client? && data == KeyPair(keyName, certName, i, LeafText(i))
    case ForServerCert(keyName, certName, i) =>
      i in st.issued && i.path.IntermMount? && data == KeyPair(keyName, certName, i, BundleText(i))
    case ForRootCA(c, base) =>
      HasIssuer(st, RootMount, c) && data == base["ca.pem" := [CertBlock(c)]]
  }

  ghost predicate MountsInv(st: Store) {
    && (forall p :: p in st.mounts ==> MountInv(p, st.mounts[p], st))
    && (st.masked ==> RootMount in st.mounts && |st.mounts[RootMount].log| >= 3)
    && DistinctIssuers(st)
    && DistinctCsr(st)
    && ServerChain(st)
  }

  ghost predicate AllIssuedInv(st: Store) {
    forall i :: i in st.issued ==> IssuedInv(i, st)
  }

  ghost predicate SecretsInv(st: Store) {
    && (forall k :: 0 <= k < |st.writes| ==> WriteInv(st.writes[k].data, st.writes[k].writer, st))
    && (forall n :: n in st.secrets ==>
      && WriteInv(st.secrets[n].data, st.secrets[n].writer, st)
      && st.secrets[n].created <= st.secrets[n].version < st.clock)
  }

  // The webhook lets exactly one usage through.
  ghost predicate AllAdmitted(st: Store) {
    forall n :: n in st.certs ==> st.certs[n].clientAuth != st.certs[n].serverAuth
  }

  // The four sides of the invariant; proofs name the side they need.
  datatype Side = Engines | Leaves | Secrets | Resources

  ghost predicate Holds(side: Side, st: Store) {
    match side
    case Engines => MountsInv(st)
    case Leaves => AllIssuedInv(st)
    case Secrets => SecretsInv(st)
    case Resources => AllAdmitted(st)
  }

  ghost predicate StoreInv(st: Store) {
    forall side :: Holds(side, st)
  }

  // What never changes once it is there: issuers, and everything in the logs.
  ghost predicate Grows(st: Store, st': Store) {
    && st.clock <= st'.clock
    && st.home == st'.home
    && (forall p :: p in st.mounts ==>
      && p in st'.mounts
      && st.mounts[p].log <= st'.mounts[p].log
      && (!p.Elsewhere? && st.mounts[p].issuer.Some? ==> st'.mounts[p].issuer == st.mounts[p].issuer))
    && st.issued <= st'.issued
    && st.signed <= st'.signed
    && st.writes <= st'.writes
    && (st.masked ==> st'.masked)
  }

  // What one step of actor a may do, part by part: the ledgers only grow and only the job signs
  // intermediates; a mount changes only under the actor that enabled it, and keeps its issuer;
  // a secret that is written gets a version, and one that is created a stamp, never seen before.
  datatype Part = Ledgers | MountAt(p: Path) | SecretAt(n: Name)

  ghost predicate PartAllowed(part: Part, st: Store, st': Store, a: Actor) {
    match part
    case Ledgers =>
      && st.clock <= st'.clock && st.home == st'.home
      && st.issued <= st'.issued && st.signed <= st'.signed && st.writes <= st'.writes
      && (st.masked ==> st'.masked)
      && (!a.JobRun? ==> st'.signed == st.signed && st'.masked == st.masked)
    case MountAt(p) =>
      if p in st.mounts then
        && p in st'.mounts
        && st.mounts[p].log <= st'.mounts[p].log
        && (!p.Elsewhere? && st.mounts[p].issuer.Some? ==> st'.mounts[p].issuer == st.mounts[p].issuer)
        && (st'.mounts[p] == st.mounts[p] || (|st.mounts[p].log| > 0 && st.mounts[p].log[0].actor == a))
      else
        p in st'.mounts ==> |st'.mounts[p].log| > 0 && st'.mounts[p].log[0].actor == a
    case SecretAt(n) =>
      n in st'.secrets ==>
        if n in st.secrets then
          && (st'.secrets[n] == st.secrets[n] || st'.secrets[n].version >= st.clock)
          && (st'.secrets[n].created == st.secrets[n].created || st'.secrets[n].created >= st.clock)
        else st'.secrets[n].version >= st.clock && st'.secrets[n].created >= st.clock
  }

  ghost predicate Allowed(st: Store, st': Store, a: Actor) {
    forall part :: PartAllowed(part, st, st', a)
  }

  lemma AllowedGrows(st: Store, st': Store, a: Actor)
    requires Allowed(st, st', a)
    ensures Grows(st, st')
  {
    assert PartAllowed(Ledgers, st, st', a);
    forall p | p in st.mounts
      ensures p in st'.mounts && st.mounts[p].log <= st'.mounts[p].log
      ensures !p.Elsewhere? && st.mounts[p].issuer.Some? ==> st'.mounts[p].issuer == st.mounts[p].issuer
    {
      assert PartAllowed(MountAt(p), st, st', a);
    }
  }

  // --- Stability ---

  lemma GrowsTransitive(a: Store, b: Store, c: Store)
    requires Grows(a, b) && Grows(b, c)
    ensures Grows(a, c)
  {
  }

  lemma WriteInvStable(data: Data, writer: Writer, st: Store, st': Store)
    requires Grows(st, st') && WriteInv(data, writer, st)
    ensures WriteInv(data, writer, st')
  {
  }

  lemma SecretsInvStable(st: Store, st': Store)
    requires Grows(st, st') && Holds(Secrets, st)
    requires st'.secrets == st.secrets && st'.writes == st.writes
    ensures Holds(Secrets, st')
  {
    forall k | 0 <= k < |st'.writes| ensures WriteInv(st'.writes[k].data, st'.writes[k].writer, st') {
      WriteInvStable(st.writes[k].data, st.writes[k].writer, st, st');
    }
    forall n | n in st'.secrets ensures WriteInv(st'.secrets[n].data, st'.secrets[n].writer, st') {
      WriteInvStable(st.secrets[n].data, st.secrets[n].writer, st, st');
    }
  }

  lemma IssuedInvStable(st: Store, st': Store)
    requires Grows(st, st') && Holds(Leaves, st) && st'.issued == st.issued
    ensures Holds(Leaves, st')
  {
  }

  lemma Sides(st: Store)
    requires StoreInv(st)
    ensures Holds(Engines, st) && Holds(Leaves, st) && Holds(Secrets, st) && Holds(Resources, st)
  {
  }

  lemma EngineInv(st: Store, p: Path)
    requires Holds(Engines, st)
    ensures p in st.mounts ==> MountInv(p, st.mounts[p], st)
  {
  }

  lemma Assemble(st: Store)
    requires Holds(Engines, st) && Holds(Leaves, st) && Holds(Secrets, st) && Holds(Resources, st)
    ensures StoreInv(st)
  {
    forall side ensures Holds(side, st) {
      match side
      case Engines =>
      case Leaves =>
      case Secrets =>
      case Resources =>
    }
  }

  // --- Each call keeps the invariant ---

  lemma PutSecrets(st: Store, at: Name, s: Secret)
    requires Holds(Secrets, st) && WriteInv(s.data, s.writer, st)
    requires s.version == st.clock
    requires if at in st.secrets then s.created == st.secrets[at].created else s.created == st.clock
    ensures Holds(Secrets, Put(st, at, s))
  {
    var st' := Put(st, at, s);
    forall k | 0 <= k < |st'.writes| ensures WriteInv(st'.writes[k].data, st'.writes[k].writer, st') {
      assert k < |st.writes| ==> st'.writes[k] == st.writes[k];
    }
    forall n | n in st'.secrets ensures WriteInv(st'.secrets[n].data, st'.secrets[n].writer, st') {
      assert n != at ==> st'.secrets[n] == st.secrets[n];
    }
  }

  lemma PutKeeps(st: Store, at: Name, s: Secret, a: Actor, st': Store)
    requires StoreInv(st) && st' == Put(st, at, s) && WriteInv(s.data, s.writer, st)
    requires s.version == st.clock
    requires if at in st.secrets then s.created == st.secrets[at].created else s.created == st.clock
    ensures StoreInv(st') && Allowed(st, st', a)
  {
    Sides(st);
    PutSecrets(st, at, s);
    SameMountsKeep(st, st');
    IssuedInvStable(st, st');
    Assemble(st');
  }

  lemma CreateKeeps(st: Store, at: Name, data: Data, owner: Owner, writer: Writer, f: Fault, a: Actor, st': Store)
    requires StoreInv(st) && WriteInv(data, writer, st) && st' == CreateSecret(st, at, data, owner, writer, f).0
    ensures StoreInv(st') && Allowed(st, st', a)
  {
    if st' != st {
      PutKeeps(st, at, Secret(data, owner, st.clock, st.clock, writer), a, st');
    }
  }

  lemma UpdateKeeps(st: Store, at: Name, data: Data, owner: Owner, writer: Writer, f: Fault, a: Actor, st': Store)
    requires StoreInv(st) && WriteInv(data, writer, st) && st' == UpdateSecret(st, at, data, owner, writer, f).0
    ensures StoreInv(st') && Allowed(st, st', a)
  {
    if st' != st {
      PutKeeps(st, at, Secret(data, owner, st.clock, st.secrets[at].created, writer), a, st');
    }
  }

  lemma UpdateVersionedKeeps(st: Store, at: Name, data: Data, version: nat, writer: Writer, f: Fault,
      a: Actor, st': Store)
    requires StoreInv(st) && WriteInv(data, writer, st)
    requires st' == UpdateVersioned(st, at, data, version, writer, f).0
    ensures StoreInv(st') && Allowed(st, st', a)
  {
    if st' != st {
      var s := st.secrets[at];
      PutKeeps(st, at, Secret(data, s.owner, st.clock, s.created, writer), a, st');
    }
  }

  // Replacing one mount by a later state of it.
  ghost predicate MountStep(st: Store, st': Store, p: Path, m: Mount) {
    && !p.Elsewhere?
    && st' == st.(mounts := st.mounts[p := m], clock := st'.clock)
    && st.clock <= st'.clock
    && MountInv(p, m, st')
    && (p in st.mounts ==>
      && st.mounts[p].log <= m.log
      && (st.mounts[p].issuer.Some? ==> m.issuer == st.mounts[p].issuer)
      && (st.mounts[p].csr.Some? ==> m.csr == st.mounts[p].csr))
    && (m.issuer.Some? && (p !in st.mounts || st.mounts[p].issuer.None?) ==>
      if p.IntermMount? then |st.signed| == 1 && m.issuer.value == st.signed[0]
      else m.issuer.value.subject >= st.clock)
    && (m.csr.Some? && (p !in st.mounts || st.mounts[p].csr.None?) ==> m.csr.value >= st.clock)
  }

  lemma MountStepKeeps(st: Store, st': Store, p: Path, m: Mount, a: Actor)
    requires StoreInv(st) && MountStep(st, st', p, m) && m.log[0].actor == a
    ensures StoreInv(st') && Allowed(st, st', a)
  {
    Sides(st);
    MountStepMounts(st, st', p, m);
    IssuedInvStable(st, st');
    SecretsInvStable(st, st');
    Assemble(st');
  }

  lemma MountStepMounts(st: Store, st': Store, p: Path, m: Mount)
    requires Holds(Engines, st) && MountStep(st, st', p, m)
    ensures Holds(Engines, st') && Grows(st, st')
  {
    forall q | q in st'.mounts ensures MountInv(q, st'.mounts[q], st') {
      EngineInv(st, q);
    }
    MountStepDistinct(st, st', p, m);
  }

  lemma MountStepDistinct(st: Store, st': Store, p: Path, m: Mount)
    requires Holds(Engines, st) && MountStep(st, st', p, m)
    ensures DistinctIssuers(st') && DistinctCsr(st')
  {
    forall q | q in st.mounts ensures MountInv(q, st.mounts[q], st) {}
  }

  // The mount is there because a enabled it, with exactly k calls behind it.
  ghost predicate Owned(st: Store, p: Path, k: nat, a: Actor) {
    p in st.mounts && |st.mounts[p].log| == k && k > 0 && st.mounts[p].log[0].actor == a
  }

  ghost predicate MayOwn(p: Path, a: Actor) {
    match p
    case Client(_) => a.Reconcile?
    case Elsewhere(_) => false
    case _ => a.JobRun?
  }

  lemma EnableKeeps(st: Store, p: Path, a: Actor, f: Fault, st': Store, ok: bool)
    requires StoreInv(st) && MayOwn(p, a) && (st', ok) == EnableEngine(st, p, a, f)
    ensures StoreInv(st') && Allowed(st, st', a)
    ensures ok ==> Owned(st', p, 1, a)
    ensures st' == st || Owned(st', p, 1, a)
  {
    if st' != st {
      assert Holds(Engines, st);
      MountStepKeeps(st, st', p, st'.mounts[p], a);
    }
  }

  lemma ConfiguredMountInv(st: Store, p: Path, k: nat, stage: Stage, a: Actor)
    requires Holds(Engines, st) && Owned(st, p, k, a) && MayOwn(p, a)
    requires stage in {Tune, Urls, Role} && k < |Script(p, st.masked)| && Script(p, st.masked)[k] == stage
    ensures MountInv(p, Logged(st.mounts[p], stage, a), st)
  {
    EngineInv(st, p);
  }

  lemma ConfigureKeeps(st: Store, p: Path, k: nat, stage: Stage, a: Actor, f: Fault, st': Store, ok: bool)
    requires StoreInv(st) && Owned(st, p, k, a) && MayOwn(p, a)
    requires stage in {Tune, Urls, Role} && k < |Script(p, st.masked)| && Script(p, st.masked)[k] == stage
    requires (st', ok) == Configure(st, p, stage, a, f)
    ensures StoreInv(st') && Allowed(st, st', a)
    ensures if f.Lost? then st' == st && !ok else Owned(st', p, k + 1, a)
  {
    if st' != st {
      ConfiguredMountInv(st, p, k, stage, a);
      MountStepKeeps(st, st', p, Logged(st.mounts[p], stage, a), a);
    }
  }

  lemma GenerateRootKeeps(st: Store, p: Path, a: Actor, f: Fault, st': Store, c: Option<Cert>)
    requires StoreInv(st) && Owned(st, p, 2, a) && MayOwn(p, a) && !p.IntermMount?
    requires (st', c) == GenerateRoot(st, p, a, f)
    ensures StoreInv(st') && Allowed(st, st', a)
    ensures c.Some? ==> Owned(st', p, 3, a) && HasIssuer(st', p, c.value)
    ensures p.RootMount? ==> !st'.masked
  {
    EngineInv(st, p);
    if st' != st {
      MountStepKeeps(st, st', p, st'.mounts[p], a);
    }
  }

  lemma GenerateCsrKeeps(st: Store, a: Actor, f: Fault, st': Store, k: Option<Key>)
    requires StoreInv(st) && Owned(st, IntermMount, 4, a) && a.JobRun?
    requires (st', k) == GenerateCsr(st, IntermMount, a, f)
    ensures StoreInv(st') && Allowed(st, st', a)
    ensures k.Some? ==> Owned(st', IntermMount, 5, a) && st'.mounts[IntermMount].csr == k && st'.signed == []
  {
    EngineInv(st, IntermMount);
    if st' != st {
      MountStepKeeps(st, st', IntermMount, st'.mounts[IntermMount], a);
    }
  }

  lemma SignKeeps(st: Store, csr: Key, a: Actor, f: Fault, st': Store, c: Option<Cert>)
    requires StoreInv(st) && Owned(st, IntermMount, 5, a) && a.JobRun?
    requires st.mounts[IntermMount].csr == Some(csr) && st.signed == []
    requires (st', c) == SignIntermediate(st, RootMount, csr, f)
    ensures StoreInv(st') && Allowed(st, st', a)
    ensures c.Some? ==> st'.signed == [c.value]
  {
    if st' != st {
      Sides(st);
      forall q | q in st.mounts ensures MountInv(q, st.mounts[q], st') {
        EngineInv(st, q);
      }
      SecretsInvStable(st, st');
      IssuedInvStable(st, st');
      Assemble(st');
    }
  }

  lemma InstallKeeps(st: Store, c: Cert, a: Actor, f: Fault, st': Store)
    requires StoreInv(st) && Owned(st, IntermMount, 5, a) && a.JobRun? && st.signed == [c]
    requires st' == InstallSigned(st, IntermMount, c, a, f).0
    ensures StoreInv(st') && Allowed(st, st', a)
  {
    if st' != st {
      EngineInv(st, IntermMount);
      MountStepKeeps(st, st', IntermMount, st'.mounts[IntermMount], a);
    }
  }

  // Noting that a failure was masked only changes which script the root engine follows; at three
  // calls the two scripts agree.
  lemma MaskKeeps(st: Store, a: Actor, st': Store)
    requires StoreInv(st) && a.JobRun? && st' == st.(masked := st'.masked) && (st.masked ==> st'.masked)
    requires st'.masked && !st.masked ==> Owned(st, RootMount, 3, a)
    ensures StoreInv(st') && Allowed(st, st', a)
  {
    if st' != st {
      Sides(st);
      forall q | q in st.mounts ensures MountInv(q, st.mounts[q], st') {
        EngineInv(st, q);
      }
      SecretsInvStable(st, st');
      IssuedInvStable(st, st');
      Assemble(st');
    }
  }

  lemma IssueKeeps(st: Store, p: Path, f: Fault, a: Actor, st': Store)
    requires StoreInv(st) && !p.Elsewhere? && !p.RootMount? && st' == IssueLeaf(st, p, f).0
    ensures StoreInv(st') && Allowed(st, st', a)
  {
    if st' != st {
      Sides(st);
      SameMountsKeep(st, st');
      SecretsInvStable(st, st');
      IssueKeepsLog(st, p, f);
      Assemble(st');
    }
  }

  lemma IssueAnswer(st: Store, p: Path, f: Fault)
    ensures var (st', r) := IssueLeaf(st, p, f); r.Some? ==> r.value in st'.issued && r.value.path == p
  {
    var (st', r) := IssueLeaf(st, p, f);
    assert r.Some? ==> r.value == st'.issued[|st.issued|];
  }

  lemma SameMountsKeep(st: Store, st': Store)
    requires Holds(Engines, st) && st'.mounts == st.mounts && st'.signed == st.signed && st'.masked == st.masked
    requires st.clock <= st'.clock
    ensures Holds(Engines, st')
  {
    forall q | q in st.mounts ensures MountInv(q, st.mounts[q], st') {
      EngineInv(st, q);
    }
  }

  lemma IssueKeepsLog(st: Store, p: Path, f: Fault)
    requires Holds(Leaves, st) && !p.Elsewhere? && !p.RootMount?
    ensures Holds(Leaves, IssueLeaf(st, p, f).0)
  {
    var st' := IssueLeaf(st, p, f).0;
    forall i | i in st'.issued ensures IssuedInv(i, st') {
      assert i in st.issued || i == st'.issued[|st.issued|];
    }
  }
}
