/** The work queues of the two controllers with faults switched off. Each controller has one
    invocation in flight; their calls interleave in every way. A secret that changes wakes its
    owners, and an error the request. */
module WorkQueue {
  import opened Options
  import opened Pki
  import opened MountNames
  import opened Faults
  import opened Environment
  import C = ClientCA
  import I = InternalCert
  import V = Convergence

  // A queue holds a request once, also while that request is in flight; which one is picked up next
  // is left open.
  datatype State = State(
    st: Store, cas: set<Name>, certs: set<Name>, ca: Option<C.Proc>, cert: Option<I.Proc>)

  datatype Pick = PickUpCA(name: Name) | CallCA | PickUpCertificate(name: Name) | CallCertificate

  // --- The queues ---

  // The owners, before and after, of the secrets that changed.
  function Stirred(st: Store, st': Store): set<Owner> {
    (set n | n in st'.secrets && (n !in st.secrets || st.secrets[n] != st'.secrets[n]) :: st'.secrets[n].owner) +
    (set n | n in st'.secrets && n in st.secrets && st.secrets[n] != st'.secrets[n] :: st.secrets[n].owner)
  }

  function CANames(os: set<Owner>): set<Name> {
    set o | o in os && o.CAOwner? :: o.name
  }

  function CertNames(os: set<Owner>): set<Name> {
    set o | o in os && o.CertOwner? :: o.name
  }

  function Wake(s: State, st': Store): State {
    var os := Stirred(s.st, st');
    s.(st := st', cas := s.cas + CANames(os), certs := s.certs + CertNames(os))
  }

  function AfterCA(s: State, req: Name, p': C.Proc, st': Store): State {
    var t := Wake(s, st');
    if !p'.Done? then t.(ca := Some(p'))
    else t.(ca := None, cas := t.cas + if p'.err then {req} else {})
  }

  function AfterCertificate(s: State, req: Name, p': I.Proc, st': Store): State {
    var t := Wake(s, st');
    if !p'.Done? then t.(cert := Some(p'))
    else t.(cert := None, certs := t.certs + if p'.err then {req} else {})
  }

  predicate Flying(s: State) {
    && (s.ca.Some? ==> !s.ca.value.Done?)
    && (s.cert.Some? ==> !s.cert.value.Done?)
  }

  function Next(s: State, pick: Pick): State {
    match pick
    case PickUpCA(n) => if s.ca.Some? then s else s.(cas := s.cas - {n}, ca := Some(C.Load(n)))
    case PickUpCertificate(n) => if s.cert.Some? then s else s.(certs := s.certs - {n}, cert := Some(I.Load(n)))
    case CallCA =>
      if s.ca.None? || s.ca.value.Done? then s
      else
        var (p', st') := C.Step(0, s.ca.value, s.st, Fine);
        AfterCA(s, s.ca.value.req, p', st')
    case CallCertificate =>
      if s.cert.None? || s.cert.value.Done? then s
      else
        var (p', st') := I.Step(s.cert.value, s.st, Fine);
        AfterCertificate(s, s.cert.value.req, p', st')
  }

  predicate Enabled(s: State, pick: Pick) {
    match pick
    case PickUpCA(n) => s.ca.None? && n in s.cas
    case CallCA => s.ca.Some?
    case PickUpCertificate(n) => s.cert.None? && n in s.certs
    case CallCertificate => s.cert.Some?
  }

  // Nothing is queued and nothing in flight.
  predicate Drained(s: State) {
    s.cas == {} && s.certs == {} && s.ca.None? && s.cert.None?
  }

  // --- What the controllers are after ---

  function CATarget(st: Store, n: Name): Name
    requires n in st.cas
  {
    Name(n.ns, st.cas[n].secret)
  }

  function CertTarget(st: Store, n: Name): Name
    requires n in st.certs
  {
    Name(n.ns, st.certs[n].secret)
  }

  ghost predicate DistinctCASecrets(st: Store) {
    forall m, n :: m in st.cas && n in st.cas && m != n ==> CATarget(st, m) != CATarget(st, n)
  }

  ghost predicate AllDesired(st: Store) {
    && (forall n :: n in st.cas ==> V.Settled(st, n))
    && (forall n :: n in st.certs ==> CertTarget(st, n) in st.secrets)
  }

  // --- What holds all along ---

  predicate Rooted(st: Store, m: Path) {
    m in st.mounts && st.mounts[m].issuer.Some?
  }

  predicate CanIssue(st: Store, cr: CertResource) {
    Rooted(st, I.Engine(cr)) && HasRole(st.mounts[I.Engine(cr)])
  }

  // The engine that the invocation in flight is in the middle of provisioning.
  function Brewing(ca: Option<C.Proc>): Option<Path> {
    if ca.Some? && ca.value.At? && ca.value.pc in {C.TuneIt, C.RootIt, C.UrlsIt, C.RoleIt}
    then Some(ClientMount(ca.value.cr.cn)) else None
  }

  // Some InternalClientCA is for the engine, which is still to be provisioned, or is being so.
  ghost predicate Coming(s: State, m: Path) {
    && (m !in s.st.mounts || Brewing(s.ca) == Some(m))
    && exists a :: a in s.st.cas && ClientMount(s.st.cas[a].cn) == m
  }

  ghost predicate CAHealthy(s: State, n: Name)
    requires n in s.st.cas
  {
    var m := ClientMount(s.st.cas[n].cn);
    s.st.cas[n].certName != "" && (m in s.st.mounts ==> Rooted(s.st, m) || Brewing(s.ca) == Some(m))
  }

  ghost predicate CertHealthy(s: State, n: Name)
    requires n in s.st.certs
  {
    var cr := s.st.certs[n];
    && cr.clientAuth != cr.serverAuth && cr.keyName != "" && cr.certName != ""
    && (CanIssue(s.st, cr) || Coming(s, I.Engine(cr)))
  }

  // Every client engine is absent or rooted, but for the one in the making. Resources are admitted
  // and name their data keys; the engine of a certificate is complete or still to come.
  ghost predicate Healthy(s: State) {
    && (forall n :: n in s.st.cas ==> CAHealthy(s, n))
    && (forall n :: n in s.st.certs ==> CertHealthy(s, n))
  }

  // What an InternalClientCA invocation in flight knows.
  ghost predicate Knows(p: C.Proc, st: Store)
    requires p.At?
  {
    var m := ClientMount(p.cr.cn);
    && p.req in st.cas && p.cr == st.cas[p.req]
    && match p.pc
       case ListMounts => true
       case EnableIt => m !in st.mounts
       case TuneIt => m in st.mounts && st.mounts[m].issuer.None?
       case RootIt => m in st.mounts && st.mounts[m].issuer.None?
       case UrlsIt => Rooted(st, m) && p.text == IssuerText(st, m)
       case RoleIt => Rooted(st, m) && p.text == IssuerText(st, m)
       case ClusterConfig => Rooted(st, m) && p.text == IssuerText(st, m)
       case RootToken => Rooted(st, m) && p.text == IssuerText(st, m)
       case CreateNew => Rooted(st, m)
       case ReadChain => Rooted(st, m)
       case UpdateOld => Rooted(st, m) && p.text == IssuerText(st, m)
       case CreateMissing => Rooted(st, m) && p.text == IssuerText(st, m)
  }

  ghost predicate CAFlight(s: State) {
    s.ca.Some? && s.ca.value.At? ==> Knows(s.ca.value, s.st)
  }

  // What an InternalCertificate invocation in flight knows.
  ghost predicate CertFlight(s: State) {
    s.cert.Some? && s.cert.value.At? ==>
      var p := s.cert.value;
      && p.req in s.st.certs && p.cr == s.st.certs[p.req]
      && (p.cr.clientAuth <==> p.pc in {I.GetClient, I.IssueClient, I.CreateClient, I.UpdateClient})
      && (p.pc in {I.CreateClient, I.UpdateClient, I.CreateServer} ==>
        p.answer.Some? && p.answer.value in s.st.issued && p.answer.value.path == I.Engine(p.cr) && p.answer.value.chain != [])
      && (p.pc.UpdateClient? ==> CertTarget(s.st, p.req) in s.st.secrets)
  }

  predicate SameObjects(st: Store, st': Store) {
    st'.secrets == st.secrets && st'.cas == st.cas && st'.certs == st.certs && st'.home == st.home
  }

  predicate FliesCA(s: State, n: Name) {
    s.ca.Some? && !s.ca.value.Done? && s.ca.value.req == n
  }

  predicate FliesCertificate(s: State, n: Name) {
    s.cert.Some? && !s.cert.value.Done? && s.cert.value.req == n
  }

  // Whatever is not in its desired form is queued or in flight.
  ghost predicate CAWaiting(s: State) {
    forall n :: n in s.st.cas && !V.Settled(s.st, n) ==> n in s.cas || FliesCA(s, n)
  }

  ghost predicate CertWaiting(s: State) {
    forall n :: n in s.st.certs && CertTarget(s.st, n) !in s.st.secrets ==> n in s.certs || FliesCertificate(s, n)
  }

  ghost predicate Waiting(s: State) {
    CAWaiting(s) && CertWaiting(s)
  }

  ghost predicate Inv(s: State) {
    Flying(s) && CAFlight(s) && CertFlight(s) && Healthy(s) && Waiting(s)
  }

  lemma DrainedIsDesired(s: State)
    requires Inv(s) && Drained(s)
    ensures AllDesired(s.st)
  {
  }

  // --- What one call changes ---

  lemma NothingStirs(st: Store, st': Store)
    requires st'.secrets == st.secrets
    ensures Stirred(st, st') == {}
  {
  }

  lemma WriteStirs(st: Store, st': Store, at: Name)
    requires at in st'.secrets && st'.secrets == st.secrets[at := st'.secrets[at]]
    ensures Stirred(st, st') <= {st'.secrets[at].owner} + (if at in st.secrets then {st.secrets[at].owner} else {})
    ensures at !in st.secrets || st'.secrets[at] != st.secrets[at] ==> st'.secrets[at].owner in Stirred(st, st')
    ensures at in st.secrets && st'.secrets[at] != st.secrets[at] ==> st.secrets[at].owner in Stirred(st, st')
  {
  }

  // A call to Vault changes one engine at most, and no secret.
  ghost predicate VaultOnly(st: Store, st': Store, m: Path) {
    && SameObjects(st, st') && st.issued <= st'.issued
    && forall q :: q != m ==> SameMount(st, st', q)
  }

  // A write changes one secret at most, and no engine.
  ghost predicate WriteOnly(st: Store, st': Store, at: Name) {
    && st'.mounts == st.mounts && st'.cas == st.cas && st'.certs == st.certs && st'.issued == st.issued
    && (st'.secrets == st.secrets || (at in st'.secrets && st'.secrets == st.secrets[at := st'.secrets[at]]))
  }

  lemma CASettledElsewhere(st: Store, st': Store, m: Path, n: Name)
    requires VaultOnly(st, st', m) && n in st.cas && ClientMount(st.cas[n].cn) != m
    ensures V.Settled(st', n) <==> V.Settled(st, n)
  {
    assert SameMount(st, st', ClientMount(st.cas[n].cn));
  }

  // The engine gets no further from what it is for.
  ghost predicate Progresses(st: Store, st': Store, m: Path) {
    m in st.mounts ==>
      && m in st'.mounts
      && (st.mounts[m].issuer.Some? ==> st'.mounts[m].issuer == st.mounts[m].issuer)
      && (HasRole(st.mounts[m]) ==> HasRole(st'.mounts[m]))
  }

  predicate Writes(pc: C.PC) {
    pc.CreateNew? || pc.UpdateOld? || pc.CreateMissing?
  }

  // The call after a call to Vault.
  function Then(pc: C.PC, listed: bool): C.PC {
    match pc
    case ListMounts => if listed then C.ReadChain else C.EnableIt
    case EnableIt => C.TuneIt
    case TuneIt => C.RootIt
    case RootIt => C.UrlsIt
    case UrlsIt => C.RoleIt
    case RoleIt => C.ClusterConfig
    case ClusterConfig => C.RootToken
    case RootToken => C.CreateNew
    case ReadChain => C.UpdateOld
    case CreateNew => C.CreateNew
    case UpdateOld => C.UpdateOld
    case CreateMissing => C.CreateMissing
  }

  ghost predicate VaultMade(p: C.Proc, st: Store, p': C.Proc, st': Store)
    requires p.At?
  {
    var m := ClientMount(p.cr.cn);
    && p'.At? && p' == p.(pc := Then(p.pc, m in st.mounts), text := p'.text)
    && VaultOnly(st, st', m) && Progresses(st, st', m) && Knows(p', st')
    && (p.pc.RoleIt? ==> HasRole(st'.mounts[m]))
  }

  lemma EnableMade(p: C.Proc, st: Store)
    requires p.At? && p.pc.EnableIt? && Knows(p, st)
    ensures var (p', st') := C.VaultStep(0, p, st, Fine); VaultMade(p, st, p', st')
  {
  }

  lemma ConfigureMade(p: C.Proc, st: Store)
    requires p.At? && p.pc in {C.TuneIt, C.UrlsIt, C.RoleIt} && Knows(p, st)
    ensures var (p', st') := C.VaultStep(0, p, st, Fine); VaultMade(p, st, p', st')
  {
    var m := ClientMount(p.cr.cn);
    LoggedRole(st.mounts[m], if p.pc.TuneIt? then Tune else if p.pc.UrlsIt? then Urls else Role, Reconcile(0));
  }

  lemma RootMade(p: C.Proc, st: Store)
    requires p.At? && p.pc.RootIt? && Knows(p, st)
    ensures var (p', st') := C.VaultStep(0, p, st, Fine); VaultMade(p, st, p', st')
  {
    LoggedRole(st.mounts[ClientMount(p.cr.cn)], Root, Reconcile(0));
  }

  // The calls that only read; an engine that is listed has its root, unless it is in the making.
  lemma ReadMade(p: C.Proc, st: Store)
    requires p.At? && p.pc in {C.ListMounts, C.ClusterConfig, C.RootToken, C.ReadChain} && Knows(p, st)
    requires p.pc.ListMounts? && ClientMount(p.cr.cn) in st.mounts ==> Rooted(st, ClientMount(p.cr.cn))
    ensures var (p', st') := C.VaultStep(0, p, st, Fine); VaultMade(p, st, p', st') && st' == st
  {
  }

  lemma VaultCallMade(p: C.Proc, st: Store)
    requires p.At? && !Writes(p.pc) && Knows(p, st)
    requires p.pc.ListMounts? && ClientMount(p.cr.cn) in st.mounts ==> Rooted(st, ClientMount(p.cr.cn))
    ensures var (p', st') := C.VaultStep(0, p, st, Fine); VaultMade(p, st, p', st')
  {
    if p.pc.EnableIt? {
      EnableMade(p, st);
    } else if p.pc.RootIt? {
      RootMade(p, st);
    } else if p.pc in {C.TuneIt, C.UrlsIt, C.RoleIt} {
      ConfigureMade(p, st);
    } else {
      ReadMade(p, st);
    }
  }

  // The writing calls: an Update or a Create of the secret, or the step from the one to the other.
  ghost predicate WriteMade(p: C.Proc, st: Store, p': C.Proc, st': Store)
    requires p.At?
  {
    var at := Name(p.req.ns, p.cr.secret);
    if p.pc.UpdateOld? && at !in st.secrets then p' == p.(pc := C.CreateMissing) && st' == st
    else if !p.pc.UpdateOld? && at in st.secrets then p' == C.Done(true) && st' == st
    else
      && p' == C.Done(false) && WriteOnly(st, st', at)
      && at in st'.secrets && st'.secrets[at].data == map[p.cr.certName := p.text] && st'.secrets[at].owner == CAOwner(p.req)
  }

  lemma WriteCallMade(p: C.Proc, st: Store)
    requires p.At? && Writes(p.pc) && p.cr.certName != ""
    ensures var (p', st') := C.StoreStep(p, st, Fine); WriteMade(p, st, p', st')
  {
  }

  // --- A call of the InternalClientCA controller keeps the invariant ---

  lemma QuietCA(s: State, req: Name, p': C.Proc, st': Store)
    requires st'.secrets == s.st.secrets
    ensures AfterCA(s, req, p', st') ==
      if !p'.Done? then s.(st := st', ca := Some(p'))
      else s.(st := st', ca := None, cas := s.cas + if p'.err then {req} else {})
  {
    NothingStirs(s.st, st');
    assert CANames({}) == {} && CertNames({}) == {};
  }

  lemma VaultCallHealthy(s: State, p: C.Proc, p': C.Proc, st': Store, t: State)
    requires Inv(s) && s.ca == Some(p) && p.At? && !Writes(p.pc)
    requires VaultMade(p, s.st, p', st') && t == s.(st := st', ca := Some(p'))
    ensures Healthy(t)
  {
    var m := ClientMount(p.cr.cn);
    forall n | n in t.st.cas ensures CAHealthy(t, n) {
      assert CAHealthy(s, n);
      var q := ClientMount(t.st.cas[n].cn);
      if q != m {
        assert SameMount(s.st, st', q);
      }
    }
    forall n | n in t.st.certs ensures CertHealthy(t, n) {
      assert CertHealthy(s, n);
      var q := I.Engine(t.st.certs[n]);
      if q != m {
        assert SameMount(s.st, st', q);
      }
    }
  }

  lemma VaultCallWaits(s: State, p: C.Proc, p': C.Proc, st': Store, t: State)
    requires Inv(s) && s.ca == Some(p) && p.At? && !Writes(p.pc)
    requires VaultMade(p, s.st, p', st') && t == s.(st := st', ca := Some(p'))
    ensures Waiting(t) && CertFlight(t)
    ensures forall n :: n in s.st.cas && V.Settled(s.st, n) ==> V.Settled(st', n)
  {
    var m := ClientMount(p.cr.cn);
    forall n | n in s.st.cas && V.Settled(s.st, n) ensures V.Settled(st', n) {
      if ClientMount(s.st.cas[n].cn) != m {
        CASettledElsewhere(s.st, st', m, n);
      }
    }
  }

  lemma WrittenIsSettled(p: C.Proc, st: Store)
    requires p.At? && Knows(p, st) && p.text == IssuerText(st, ClientMount(p.cr.cn)) && Rooted(st, ClientMount(p.cr.cn))
    requires CATarget(st, p.req) in st.secrets
    requires st.secrets[CATarget(st, p.req)].data == map[p.cr.certName := p.text]
    requires st.secrets[CATarget(st, p.req)].owner == CAOwner(p.req)
    ensures V.Settled(st, p.req)
  {
  }

  // Whoever is unsettled by a write of another is woken by it.
  lemma UnsettledIsWoken(st: Store, st': Store, at: Name, n: Name)
    requires WriteOnly(st, st', at) && n in st.cas && V.Settled(st, n) && !V.Settled(st', n)
    ensures CATarget(st, n) == at && n in CANames(Stirred(st, st'))
  {
    var o := CAOwner(n);
    WriteStirs(st, st', at);
    assert o in Stirred(st, st');
  }

  lemma WriteCallWaits(s: State, p: C.Proc, p': C.Proc, st': Store, t: State)
    requires Inv(s) && s.ca == Some(p) && p.At? && Writes(p.pc)
    requires WriteMade(p, s.st, p', st') && t == AfterCA(s, p.req, p', st')
    ensures Waiting(t)
  {
    var at := CATarget(s.st, p.req);
    if st'.secrets == s.st.secrets {
      QuietCA(s, p.req, p', st');
    } else {
      WriteStirs(s.st, st', at);
      assert CAOwner(p.req) in Stirred(s.st, st');
      forall n | n in t.st.cas && !V.Settled(t.st, n) ensures n in t.cas || FliesCA(t, n) {
        if n != p.req && V.Settled(s.st, n) {
          UnsettledIsWoken(s.st, st', at, n);
        }
      }
    }
    if st'.secrets == s.st.secrets && p.pc.UpdateOld? && p'.Done? {
      WrittenIsSettled(p, st');
    }
  }

  // Healthy speaks of engines, resources and what is in the making.
  lemma HealthyStays(s: State, t: State)
    requires Healthy(s) && t.st.mounts == s.st.mounts && t.st.cas == s.st.cas && t.st.certs == s.st.certs
    requires Brewing(t.ca) == Brewing(s.ca)
    ensures Healthy(t)
  {
    forall n | n in t.st.cas ensures CAHealthy(t, n) {
      assert CAHealthy(s, n);
    }
    forall n | n in t.st.certs ensures CertHealthy(t, n) {
      assert CertHealthy(s, n);
    }
  }

  lemma CAFlightStays(s: State, t: State)
    requires CAFlight(s) && t.ca == s.ca
    requires t.st.mounts == s.st.mounts && t.st.cas == s.st.cas
    ensures CAFlight(t)
  {
  }

  lemma CertFlightStays(s: State, t: State)
    requires CertFlight(s) && t.cert == s.cert
    requires t.st.certs == s.st.certs && s.st.issued <= t.st.issued && s.st.secrets.Keys <= t.st.secrets.Keys
    ensures CertFlight(t)
  {
  }

  lemma WriteCallKeeps(s: State, p: C.Proc, p': C.Proc, st': Store, t: State)
    requires Inv(s) && s.ca == Some(p) && p.At? && Writes(p.pc)
    requires WriteMade(p, s.st, p', st') && t == AfterCA(s, p.req, p', st')
    ensures Flying(t) && CAFlight(t) && CertFlight(t) && Healthy(t)
  {
    CertFlightStays(s, t);
    HealthyStays(s, t);
  }

  lemma CallCAKeeps(s: State)
    requires Inv(s)
    ensures Inv(Next(s, CallCA))
  {
    if s.ca.Some? {
      var p := s.ca.value;
      var (p', st') := C.Step(0, p, s.st, Fine);
      var t := Next(s, CallCA);
      if p.Load? {
        QuietCA(s, p.req, p', st');
        SameStoreKeeps(s, t);
      } else if Writes(p.pc) {
        assert CAHealthy(s, p.req);
        WriteCallMade(p, s.st);
        WriteCallWaits(s, p, p', st', t);
        WriteCallKeeps(s, p, p', st', t);
      } else {
        assert CAHealthy(s, p.req);
        VaultCallMade(p, s.st);
        QuietCA(s, p.req, p', st');
        VaultCallHealthy(s, p, p', st', t);
        VaultCallWaits(s, p, p', st', t);
      }
    }
  }

  // Picking a request up, or loading its resource, changes neither the store nor what is known.
  lemma SameStoreKeeps(s: State, t: State)
    requires Inv(s) && t.st == s.st && Flying(t) && CAFlight(t) && CertFlight(t) && Waiting(t)
    requires Brewing(t.ca) == Brewing(s.ca)
    ensures Inv(t)
  {
    HealthyStays(s, t);
  }

  // --- So does a call of the InternalCertificate controller ---

  predicate Issues(pc: I.PC) {
    pc.IssueClient? || pc.IssueServer?
  }

  predicate Gets(pc: I.PC) {
    pc.GetClient? || pc.GetServer?
  }

  // What a resource's secret is to hold: the key, and the leaf, followed for server usage by its issuer.
  function PairData(cr: CertResource, i: Issued): Data
    requires i.chain != []
  {
    map[cr.keyName := [KeyBlock(i.key)]]
      [cr.certName := if cr.clientAuth then [CertBlock(i.cert)] else [CertBlock(i.cert), CertBlock(i.chain[0])]]
  }

  ghost predicate CertMade(p: I.Proc, st: Store, p': I.Proc, st': Store)
    requires p.At?
  {
    var at := Name(p.req.ns, p.cr.secret);
    if Gets(p.pc) then
      && st' == st
      && (if at in st.secrets then p' == I.Done(false)
          else p'.At? && p' == p.(pc := if p.pc.GetClient? then I.IssueClient else I.IssueServer, since := p'.since))
    else if Issues(p.pc) then
      if CanIssue(st, p.cr) then
        && p'.At? && p' == p.(pc := if p.pc.IssueClient? then I.CreateClient else I.CreateServer, answer := p'.answer)
        && p'.answer.Some? && p'.answer.value in st'.issued && p'.answer.value.path == I.Engine(p.cr) && p'.answer.value.chain != []
        && st'.mounts == st.mounts && st.issued <= st'.issued && SameObjects(st, st')
      else p' == I.Done(true) && st' == st
    else if !p.pc.UpdateClient? && at in st.secrets then
      st' == st && p' == if p.pc.CreateClient? then p.(pc := I.UpdateClient) else I.Done(true)
    else
      && p' == I.Done(false) && WriteOnly(st, st', at)
      && at in st'.secrets && p.answer.Some?
      && p.answer.value.chain != []
      && st'.secrets[at].data == PairData(p.cr, p.answer.value) && st'.secrets[at].owner == CertOwner(p.req)
  }

  lemma IssueCallMade(p: I.Proc, st: Store)
    requires p.At? && Issues(p.pc) && (p.pc.IssueClient? <==> p.cr.clientAuth)
    ensures var (p', st') := I.IssueStep(p, st, Fine); CertMade(p, st, p', st')
  {
    var (st', r) := IssueLeaf(st, I.Engine(p.cr), Fine);
    if r.Some? {
      assert st'.issued[|st.issued|] == r.value;
    }
  }

  lemma PairIsBuilt(cr: CertResource, i: Issued)
    requires i.chain != []
    ensures I.BuildSecret(cr, i) == PairData(cr, i)
  {
    assert [CertBlock(i.cert)] + [CertBlock(i.chain[0])] == [CertBlock(i.cert), CertBlock(i.chain[0])];
  }

  lemma StoreCallMade(p: I.Proc, st: Store)
    requires p.At? && !Gets(p.pc) && !Issues(p.pc) && p.answer.Some? && p.answer.value.chain != []
    requires p.cr.keyName != "" && p.cr.certName != ""
    requires p.pc.UpdateClient? ==> Name(p.req.ns, p.cr.secret) in st.secrets
    ensures var (p', st') := I.WriteStep(p, p.answer.value, st, Fine); CertMade(p, st, p', st')
  {
    PairIsBuilt(p.cr, p.answer.value);
  }

  lemma CertCallMade(s: State, p: I.Proc)
    requires Inv(s) && s.cert == Some(p) && p.At?
    ensures var (p', st') := I.Step(p, s.st, Fine); CertMade(p, s.st, p', st')
  {
    assert CertHealthy(s, p.req);
    if Issues(p.pc) {
      IssueCallMade(p, s.st);
    } else if !Gets(p.pc) {
      StoreCallMade(p, s.st);
    }
  }

  lemma QuietCertificate(s: State, req: Name, p': I.Proc, st': Store)
    requires st'.secrets == s.st.secrets
    ensures AfterCertificate(s, req, p', st') ==
      if !p'.Done? then s.(st := st', cert := Some(p'))
      else s.(st := st', cert := None, certs := s.certs + if p'.err then {req} else {})
  {
    NothingStirs(s.st, st');
    assert CANames({}) == {} && CertNames({}) == {};
  }

  lemma CAWaitingStays(s: State, t: State)
    requires CAWaiting(s) && t.st.mounts == s.st.mounts && SameObjects(s.st, t.st) && t.ca == s.ca && s.cas <= t.cas
    ensures CAWaiting(t)
  {
    forall n | n in t.st.cas && !V.Settled(t.st, n) ensures n in t.cas || FliesCA(t, n) {
      assert !V.Settled(s.st, n);
    }
  }

  lemma CertCallWaits(s: State, p: I.Proc, p': I.Proc, st': Store, t: State)
    requires Inv(s) && s.cert == Some(p) && p.At? && SameObjects(s.st, st') && st'.mounts == s.st.mounts
    requires CertMade(p, s.st, p', st') && t == AfterCertificate(s, p.req, p', st')
    ensures Waiting(t)
  {
    QuietCertificate(s, p.req, p', st');
    CAWaitingStays(s, t);
  }

  lemma CertWriteWaits(s: State, p: I.Proc, p': I.Proc, st': Store, t: State)
    requires Inv(s) && s.cert == Some(p) && p.At? && WriteOnly(s.st, st', CertTarget(s.st, p.req)) && p' == I.Done(false)
    requires CertTarget(s.st, p.req) in st'.secrets && t == AfterCertificate(s, p.req, p', st')
    ensures Waiting(t)
  {
    var at := CertTarget(s.st, p.req);
    forall n | n in t.st.cas && !V.Settled(t.st, n) ensures n in t.cas || FliesCA(t, n) {
      if V.Settled(s.st, n) {
        UnsettledIsWoken(s.st, st', at, n);
      }
    }
  }

  lemma CertCallKeeps(s: State, p: I.Proc, p': I.Proc, st': Store, t: State)
    requires Inv(s) && s.cert == Some(p) && p.At?
    requires CertMade(p, s.st, p', st') && t == AfterCertificate(s, p.req, p', st')
    ensures Flying(t) && CAFlight(t) && CertFlight(t) && Healthy(t)
  {
    HealthyStays(s, t);
    CAFlightStays(s, t);
  }

  // The last call of an invocation, and the one that writes.
  predicate Stores(p: I.Proc, st: Store)
    requires p.At?
  {
    !Gets(p.pc) && !Issues(p.pc) && (p.pc.UpdateClient? || Name(p.req.ns, p.cr.secret) !in st.secrets)
  }

  lemma CallCertificateKeeps(s: State)
    requires Inv(s)
    ensures Inv(Next(s, CallCertificate))
  {
    if s.cert.Some? {
      var p := s.cert.value;
      var (p', st') := I.Step(p, s.st, Fine);
      var t := Next(s, CallCertificate);
      if p.Load? {
        QuietCertificate(s, p.req, p', st');
        assert p.req in s.st.certs ==> CertHealthy(s, p.req);
        SameStoreKeeps(s, t);
      } else {
        CertCallMade(s, p);
        if Stores(p, s.st) {
          CertWriteWaits(s, p, p', st', t);
        } else {
          CertCallWaits(s, p, p', st', t);
        }
        CertCallKeeps(s, p, p', st', t);
      }
    }
  }

  lemma NextKeeps(s: State, pick: Pick)
    requires Inv(s)
    ensures Inv(Next(s, pick))
  {
    match pick
    case CallCA => CallCAKeeps(s);
    case CallCertificate => CallCertificateKeeps(s);
    case PickUpCA(n) => SameStoreKeeps(s, Next(s, pick));
    case PickUpCertificate(n) => SameStoreKeeps(s, Next(s, pick));
  }
}
