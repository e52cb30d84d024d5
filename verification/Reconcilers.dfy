/** The two reconcilers as the imperative code they are, against one mutable API. Each method is
    proved to do what its sequence of steps says, whatever others do before each call and whatever
    happens to the call itself. */
module Reconcilers {
  import opened Options
  import opened Pki
  import opened MountNames
  import opened Faults
  import opened Environment
  import opened Invariants
  import C = ClientCA
  import I = InternalCert

  // What surrounds one call: how others changed the store before it, the store from which a client
  // cache answers it if it is a read, and what happens to it.
  datatype Turn = Turn(others: Store -> Store, cached: Store -> Store, f: Fault)

  // The rest of an invocation under a sequence of turns: final store, calls made, error or not.
  function RunClientCA(id: nat, p: C.Proc, st: Store, turns: nat -> Turn, k: nat): (Store, nat, bool)
    decreases C.Rank(p)
  {
    if p.Done? then (st, k, p.err)
    else
      var now := turns(k).others(st);
      var seen := if p.Load? then turns(k).cached(now) else now;
      C.StepLowersRank(id, p, seen, turns(k).f);
      var (p', st') := C.Step(id, p, seen, turns(k).f);
      RunClientCA(id, p', if p.Load? then now else st', turns, k + 1)
  }

  function RunCertificate(p: I.Proc, st: Store, turns: nat -> Turn, k: nat): (Store, nat, bool)
    decreases I.Rank(p)
  {
    if p.Done? then (st, k, p.err)
    else
      var now := turns(k).others(st);
      var seen := if I.Reads(p) then turns(k).cached(now) else now;
      I.StepLowersRank(p, seen, turns(k).f);
      var (p', st') := I.Step(p, seen, turns(k).f);
      RunCertificate(p', if I.Reads(p) then now else st', turns, k + 1)
  }

  // --- One turn of an InternalClientCA run, by the call it makes ---

  lemma LoadTurn(id: nat, req: Name, st: Store, turns: nat -> Turn, k: nat)
    ensures var s, f := turns(k).others(st), turns(k).f;
      var seen := turns(k).cached(s);
      RunClientCA(id, C.Load(req), st, turns, k) ==
        if !f.Fine? then (s, k + 1, true)
        else if req !in seen.cas then (s, k + 1, false)
        else RunClientCA(id, C.At(C.ListMounts, req, seen.cas[req], []), s, turns, k + 1)
  {
  }

  lemma ListTurn(id: nat, p: C.Proc, st: Store, turns: nat -> Turn, k: nat)
    requires p.At? && p.pc.ListMounts?
    ensures var s, f := turns(k).others(st), turns(k).f;
      RunClientCA(id, p, st, turns, k) ==
        if !f.Fine? then (s, k + 1, true)
        else if ClientMount(p.cr.cn) in s.mounts then RunClientCA(id, p.(pc := C.ReadChain), s, turns, k + 1)
        else RunClientCA(id, p.(pc := C.EnableIt), s, turns, k + 1)
  {
  }

  lemma EnableTurn(id: nat, p: C.Proc, st: Store, turns: nat -> Turn, k: nat)
    requires p.At? && p.pc.EnableIt?
    ensures var (s, ok) := EnableEngine(turns(k).others(st), ClientMount(p.cr.cn), Reconcile(id), turns(k).f);
      RunClientCA(id, p, st, turns, k) ==
        if ok then RunClientCA(id, p.(pc := C.TuneIt), s, turns, k + 1) else (s, k + 1, true)
  {
  }

  lemma ConfigureTurn(id: nat, p: C.Proc, stage: Stage, next: C.PC, st: Store, turns: nat -> Turn, k: nat)
    requires p.At? && (p.pc, stage, next) in {(C.TuneIt, Tune, C.RootIt), (C.UrlsIt, Urls, C.RoleIt), (C.RoleIt, Role, C.ClusterConfig)}
    ensures var (s, ok) := Configure(turns(k).others(st), ClientMount(p.cr.cn), stage, Reconcile(id), turns(k).f);
      RunClientCA(id, p, st, turns, k) ==
        if ok then RunClientCA(id, p.(pc := next), s, turns, k + 1) else (s, k + 1, true)
  {
  }

  lemma RootTurn(id: nat, p: C.Proc, st: Store, turns: nat -> Turn, k: nat)
    requires p.At? && p.pc.RootIt?
    ensures var (s, c) := GenerateRoot(turns(k).others(st), ClientMount(p.cr.cn), Reconcile(id), turns(k).f);
      RunClientCA(id, p, st, turns, k) ==
        if c.Some? then RunClientCA(id, p.(pc := C.UrlsIt, text := [CertBlock(c.value)]), s, turns, k + 1)
        else (s, k + 1, true)
  {
  }

  lemma ConfigTurn(id: nat, p: C.Proc, st: Store, turns: nat -> Turn, k: nat)
    requires p.At? && p.pc.ClusterConfig?
    ensures var s, f := turns(k).others(st), turns(k).f;
      RunClientCA(id, p, st, turns, k) ==
        if f.Fine? then RunClientCA(id, p.(pc := C.RootToken), s, turns, k + 1) else (s, k + 1, true)
  {
  }

  lemma TokenTurn(id: nat, p: C.Proc, st: Store, turns: nat -> Turn, k: nat)
    requires p.At? && p.pc.RootToken?
    ensures var s, f := turns(k).others(st), turns(k).f;
      var text := if f.Fine? && Name(s.home, "vault-root-token") in s.secrets then p.text else [];
      RunClientCA(id, p, st, turns, k) == RunClientCA(id, p.(pc := C.CreateNew, text := text), s, turns, k + 1)
  {
  }

  lemma ChainTurn(id: nat, p: C.Proc, st: Store, turns: nat -> Turn, k: nat)
    requires p.At? && p.pc.ReadChain?
    ensures var s, f := turns(k).others(st), turns(k).f;
      RunClientCA(id, p, st, turns, k) ==
        if f.Fine? then RunClientCA(id, p.(pc := C.UpdateOld, text := IssuerText(s, ClientMount(p.cr.cn))), s, turns, k + 1)
        else (s, k + 1, true)
  {
  }

  lemma UpdateTurn(id: nat, p: C.Proc, st: Store, turns: nat -> Turn, k: nat)
    requires p.At? && p.pc.UpdateOld?
    ensures var (s, r) := UpdateSecret(turns(k).others(st), Name(p.req.ns, p.cr.secret), map[p.cr.certName := p.text],
        CAOwner(p.req), C.WriterOf(p.cr), turns(k).f);
      RunClientCA(id, p, st, turns, k) ==
        if r.NotFound? then RunClientCA(id, p.(pc := C.CreateMissing), s, turns, k + 1) else (s, k + 1, r != OK)
  {
  }

  lemma CreateTurn(id: nat, p: C.Proc, st: Store, turns: nat -> Turn, k: nat)
    requires p.At? && (p.pc.CreateNew? || p.pc.CreateMissing?)
    ensures var (s, r) := CreateSecret(turns(k).others(st), Name(p.req.ns, p.cr.secret), map[p.cr.certName := p.text],
        CAOwner(p.req), C.WriterOf(p.cr), turns(k).f);
      RunClientCA(id, p, st, turns, k) == (s, k + 1, r != OK)
  {
  }

  // --- One turn of an InternalCertificate run ---

  lemma CertificateLoadTurn(req: Name, st: Store, turns: nat -> Turn, k: nat)
    ensures var s, f := turns(k).others(st), turns(k).f;
      var seen := turns(k).cached(s);
      RunCertificate(I.Load(req), st, turns, k) ==
        if !f.Fine? then (s, k + 1, true)
        else if req !in seen.certs || (!seen.certs[req].clientAuth && !seen.certs[req].serverAuth) then (s, k + 1, false)
        else RunCertificate(I.At(if seen.certs[req].clientAuth then I.GetClient else I.GetServer,
          req, seen.certs[req], None, None), s, turns, k + 1)
  {
  }

  lemma GetClientTurn(p: I.Proc, st: Store, turns: nat -> Turn, k: nat)
    requires p.At? && p.pc.GetClient?
    ensures var s, f := turns(k).others(st), turns(k).f;
      var seen := turns(k).cached(s);
      RunCertificate(p, st, turns, k) ==
        if f.Fine? && Name(p.req.ns, p.cr.secret) in seen.secrets then (s, k + 1, false)
        else RunCertificate(p.(pc := I.IssueClient, since := if f.Fine? then Some(seen.clock) else None), s, turns, k + 1)
  {
  }

  lemma GetServerTurn(p: I.Proc, st: Store, turns: nat -> Turn, k: nat)
    requires p.At? && p.pc.GetServer?
    ensures var s, f := turns(k).others(st), turns(k).f;
      var seen := turns(k).cached(s);
      RunCertificate(p, st, turns, k) ==
        if !f.Fine? || Name(p.req.ns, p.cr.secret) in seen.secrets then (s, k + 1, false)
        else RunCertificate(p.(pc := I.IssueServer, since := Some(seen.clock)), s, turns, k + 1)
  {
  }

  lemma IssueTurn(p: I.Proc, st: Store, turns: nat -> Turn, k: nat)
    requires p.At? && (p.pc.IssueClient? || p.pc.IssueServer?)
    ensures var (s, i) := IssueLeaf(turns(k).others(st), if p.pc.IssueClient? then Client(p.cr.issuer) else IntermMount, turns(k).f);
      RunCertificate(p, st, turns, k) ==
        if i.None? || (p.pc.IssueServer? && i.value.chain == []) then (s, k + 1, true)
        else RunCertificate(p.(pc := if p.pc.IssueClient? then I.CreateClient else I.CreateServer, answer := i), s, turns, k + 1)
  {
  }

  lemma WriteTurn(p: I.Proc, i: Issued, st: Store, turns: nat -> Turn, k: nat)
    requires p.At? && p.answer == Some(i) && p.pc in {I.CreateClient, I.UpdateClient, I.CreateServer}
    ensures var now, f := turns(k).others(st), turns(k).f;
      var at, data, owner, writer := I.SecretName(p.req, p.cr), I.BuildSecret(p.cr, i), CertOwner(p.req), I.WriterOf(p.cr, i);
      var (s, r) := if p.pc.UpdateClient? then UpdateSecret(now, at, data, owner, writer, f)
                    else CreateSecret(now, at, data, owner, writer, f);
      RunCertificate(p, st, turns, k) ==
        if r.AlreadyExists? && p.pc.CreateClient? then RunCertificate(p.(pc := I.UpdateClient), s, turns, k + 1)
        else (s, k + 1, r != OK)
  {
  }

  ghost predicate CanonicalMounts(st: Store) {
    forall p :: p in st.mounts ==> Canonical(p)
  }

  // Kubernetes and Vault as their clients see them: paths are strings, replies are values.
  class Api {
    var st: Store
    var calls: nat
    const turns: nat -> Turn

    constructor (st: Store, turns: nat -> Turn)
      ensures this.st == st && this.turns == turns && calls == 0
    {
      this.st := st;
      this.turns := turns;
      calls := 0;
    }

    // Every mount has one description, and others keep it so.
    ghost predicate Valid()
      reads this
    {
      CanonicalMounts(st) && forall k: nat, s: Store :: CanonicalMounts(s) ==> CanonicalMounts(turns(k).others(s))
    }

    // The store the next call finds, and what happens to that call.
    function Now(): Store
      reads this
    {
      turns(calls).others(st)
    }

    function Luck(): Fault
      reads this
    {
      turns(calls).f
    }

    // The store from which the controllers' own client answers a read.
    function Seen(): Store
      reads this
    {
      turns(calls).cached(Now())
    }

    method GetClientCA(name: Name) returns (cr: Option<CAResource>, r: Reply)
      modifies this
      ensures st == old(Now()) && calls == old(calls) + 1
      ensures r.OK? ==> cr.Some?
      ensures (cr, r) == if !old(Luck()).Fine? then (None, Failed)
        else if name in old(Seen()).cas then (Some(old(Seen()).cas[name]), OK) else (None, NotFound)
    {
      var f, seen := turns(calls).f, Seen();
      st, calls := turns(calls).others(st), calls + 1;
      if f != Fine { return None, Failed; }
      if name !in seen.cas { return None, NotFound; }
      return Some(seen.cas[name]), OK;
    }

    method GetCertificate(name: Name) returns (cr: Option<CertResource>, r: Reply)
      modifies this
      ensures st == old(Now()) && calls == old(calls) + 1
      ensures r.OK? ==> cr.Some?
      ensures (cr, r) == if !old(Luck()).Fine? then (None, Failed)
        else if name in old(Seen()).certs then (Some(old(Seen()).certs[name]), OK) else (None, NotFound)
    {
      var f, seen := turns(calls).f, Seen();
      st, calls := turns(calls).others(st), calls + 1;
      if f != Fine { return None, Failed; }
      if name !in seen.certs { return None, NotFound; }
      return Some(seen.certs[name]), OK;
    }

    method GetSecret(name: Name) returns (r: Reply)
      modifies this
      ensures st == old(Now()) && calls == old(calls) + 1
      ensures r == if !old(Luck()).Fine? then Failed else if name in old(Seen()).secrets then OK else NotFound
    {
      var f, seen := turns(calls).f, Seen();
      st, calls := turns(calls).others(st), calls + 1;
      r := if f != Fine then Failed else if name in seen.secrets then OK else NotFound;
    }

    // A secret of the namespace the process runs in, read past the cache.
    method GetHomeSecret(id: string) returns (r: Reply)
      modifies this
      ensures st == old(Now()) && calls == old(calls) + 1
      ensures r == if !old(Luck()).Fine? then Failed else if Name(st.home, id) in st.secrets then OK else NotFound
    {
      var f := turns(calls).f;
      st, calls := turns(calls).others(st), calls + 1;
      r := if f != Fine then Failed else if Name(st.home, id) in st.secrets then OK else NotFound;
    }

    method Create(name: Name, data: Data, owner: Owner, writer: Writer) returns (r: Reply)
      modifies this
      ensures (st, r) == CreateSecret(old(Now()), name, data, owner, writer, old(Luck())) && calls == old(calls) + 1
    {
      var f := turns(calls).f;
      var out := CreateSecret(turns(calls).others(st), name, data, owner, writer, f);
      st, r, calls := out.0, out.1, calls + 1;
    }

    method Update(name: Name, data: Data, owner: Owner, writer: Writer) returns (r: Reply)
      modifies this
      ensures (st, r) == UpdateSecret(old(Now()), name, data, owner, writer, old(Luck())) && calls == old(calls) + 1
    {
      var f := turns(calls).f;
      var out := UpdateSecret(turns(calls).others(st), name, data, owner, writer, f);
      st, r, calls := out.0, out.1, calls + 1;
    }

    // Whether a purely local step, such as reading the in-cluster configuration, succeeds.
    method Local() returns (ok: bool)
      modifies this
      ensures st == old(Now()) && calls == old(calls) + 1 && ok == old(Luck()).Fine?
    {
      ok := turns(calls).f == Fine;
      st, calls := turns(calls).others(st), calls + 1;
    }

    method ListSecretsEngines() returns (listing: Option<set<string>>)
      modifies this
      ensures st == old(Now()) && calls == old(calls) + 1
      ensures listing == if old(Luck()).Fine? then Some(Listing(st.mounts.Keys)) else None
    {
      var f := turns(calls).f;
      st, calls := turns(calls).others(st), calls + 1;
      listing := if f == Fine then Some(Listing(st.mounts.Keys)) else None;
    }

    method EnableSecretsEngine(path: string, id: nat) returns (ok: bool)
      modifies this
      ensures (st, ok) == EnableEngine(old(Now()), PathOf(path), Reconcile(id), old(Luck())) && calls == old(calls) + 1
    {
      var out := EnableEngine(turns(calls).others(st), PathOf(path), Reconcile(id), turns(calls).f);
      st, ok, calls := out.0, out.1, calls + 1;
    }

    method ConfigureEngine(path: string, stage: Stage, id: nat) returns (ok: bool)
      modifies this
      ensures (st, ok) == Configure(old(Now()), PathOf(path), stage, Reconcile(id), old(Luck()))
      ensures calls == old(calls) + 1
    {
      var out := Configure(turns(calls).others(st), PathOf(path), stage, Reconcile(id), turns(calls).f);
      st, ok, calls := out.0, out.1, calls + 1;
    }

    method PkiGenerateRoot(path: string, id: nat) returns (c: Option<Cert>)
      modifies this
      ensures (st, c) == GenerateRoot(old(Now()), PathOf(path), Reconcile(id), old(Luck())) && calls == old(calls) + 1
    {
      var out := GenerateRoot(turns(calls).others(st), PathOf(path), Reconcile(id), turns(calls).f);
      st, c, calls := out.0, out.1, calls + 1;
    }

    method PkiReadCertCaChain(path: string) returns (text: Option<Text>)
      modifies this
      ensures st == old(Now()) && calls == old(calls) + 1
      ensures text == if old(Luck()).Fine? then Some(IssuerText(st, PathOf(path))) else None
    {
      var f := turns(calls).f;
      st, calls := turns(calls).others(st), calls + 1;
      text := if f == Fine then Some(IssuerText(st, PathOf(path))) else None;
    }

    method PkiIssueWithRole(path: string) returns (i: Option<Issued>)
      modifies this
      ensures (st, i) == IssueLeaf(old(Now()), PathOf(path), old(Luck())) && calls == old(calls) + 1
    {
      var out := IssueLeaf(turns(calls).others(st), PathOf(path), turns(calls).f);
      st, i, calls := out.0, out.1, calls + 1;
    }
  }

  // The string the reconciler looks for is listed exactly when its mount is there, and the string it
  // then uses denotes that mount.
  lemma PathListed(cn: string, st: Store)
    requires CanonicalMounts(st)
    ensures CLIENT_PREFIX + cn + "-ca/" in Listing(st.mounts.Keys) <==> ClientMount(cn) in st.mounts
    ensures PathOf(TrimSuffix(CLIENT_PREFIX + cn + "-ca/", "/")) == ClientMount(cn)
  {
    TrimmedPathIsTheMount(cn);
    ListedIffMounted(st.mounts.Keys, ClientMount(cn));
    assert CLIENT_PREFIX + cn + "-ca/" == Denote(ClientMount(cn)) + "/";
  }

  class InternalClientCAReconciler {
    const api: Api
    const id: nat

    constructor (api: Api, id: nat)
      ensures this.api == api && this.id == id
    {
      this.api := api;
      this.id := id;
    }

    method BuildSecretFrom(req: Name, cr: CAResource, cert: Text) returns (at: Name, data: Data, owner: Owner)
      ensures at == Name(req.ns, cr.secret) && data == map[cr.certName := cert] && owner == CAOwner(req)
    {
      at := Name(req.ns, cr.secret);
      data := map[cr.certName := cert];
      owner := CAOwner(req);
    }

    // The steps of a run that provisions: it ends with an error, or goes on with the certificate.
    method EnablePKIClientCA(req: Name, cr: CAResource, path: string) returns (cert: Text, err: bool)
      requires PathOf(path) == ClientMount(cr.cn)
      modifies api
      ensures RunClientCA(id, C.At(C.EnableIt, req, cr, []), old(api.st), api.turns, old(api.calls)) ==
        if err then (api.st, api.calls, true)
        else RunClientCA(id, C.At(C.CreateNew, req, cr, cert), api.st, api.turns, api.calls)
    {
      var root := GenerateRootAt(req, cr, path);
      if root.None? { return [], true; }
      ghost var p := C.At(C.UrlsIt, req, cr, [CertBlock(root.value)]);
      ConfigureTurn(id, p, Urls, C.RoleIt, api.st, api.turns, api.calls);
      var ok := api.ConfigureEngine(path, Urls, id);
      if !ok { return [], true; }
      ConfigureTurn(id, p.(pc := C.RoleIt), Role, C.ClusterConfig, api.st, api.turns, api.calls);
      ok := api.ConfigureEngine(path, Role, id);
      if !ok { return [], true; }
      ConfigTurn(id, p.(pc := C.ClusterConfig), api.st, api.turns, api.calls);
      ok := api.Local();
      if !ok { return [], true; }
      TokenTurn(id, p.(pc := C.RootToken), api.st, api.turns, api.calls);
      var token := api.GetHomeSecret("vault-root-token");
      if token != OK { return [], false; }
      return [CertBlock(root.value)], false;
    }

    // The first three steps.
    method GenerateRootAt(req: Name, cr: CAResource, path: string) returns (root: Option<Cert>)
      requires PathOf(path) == ClientMount(cr.cn)
      modifies api
      ensures RunClientCA(id, C.At(C.EnableIt, req, cr, []), old(api.st), api.turns, old(api.calls)) ==
        if root.None? then (api.st, api.calls, true)
        else RunClientCA(id, C.At(C.UrlsIt, req, cr, [CertBlock(root.value)]), api.st, api.turns, api.calls)
    {
      ghost var p := C.At(C.EnableIt, req, cr, []);
      EnableTurn(id, p, api.st, api.turns, api.calls);
      var ok := api.EnableSecretsEngine(path, id);
      if !ok { return None; }
      ConfigureTurn(id, p.(pc := C.TuneIt), Tune, C.RootIt, api.st, api.turns, api.calls);
      ok := api.ConfigureEngine(path, Tune, id);
      if !ok { return None; }
      RootTurn(id, p.(pc := C.RootIt), api.st, api.turns, api.calls);
      root := api.PkiGenerateRoot(path, id);
    }

    method Reconcile(req: Name) returns (err: bool)
      requires api.Valid()
      modifies api
      ensures (api.st, api.calls, err) == RunClientCA(id, C.Load(req), old(api.st), api.turns, old(api.calls))
    {
      LoadTurn(id, req, api.st, api.turns, api.calls);
      var found, r := api.GetClientCA(req);
      if r == NotFound { return false; }
      if r != OK { return true; }
      var cr := found.value;
      ghost var p := C.At(C.ListMounts, req, cr, []);
      var clientCAPath := CLIENT_PREFIX + cr.cn + "-ca/";
      ListTurn(id, p, api.st, api.turns, api.calls);
      var listing := api.ListSecretsEngines();
      if listing.None? { return true; }
      PathListed(cr.cn, api.st);
      if clientCAPath !in listing.value {
        err := Provision(req, cr, TrimSuffix(clientCAPath, "/"));
      } else {
        err := Refresh(req, cr, TrimSuffix(clientCAPath, "/"));
      }
    }

    method Provision(req: Name, cr: CAResource, path: string) returns (err: bool)
      requires PathOf(path) == ClientMount(cr.cn)
      modifies api
      ensures (api.st, api.calls, err) ==
        RunClientCA(id, C.At(C.EnableIt, req, cr, []), old(api.st), api.turns, old(api.calls))
    {
      var cert;
      cert, err := EnablePKIClientCA(req, cr, path);
      if err { return true; }
      CreateTurn(id, C.At(C.CreateNew, req, cr, cert), api.st, api.turns, api.calls);
      var at, data, owner := BuildSecretFrom(req, cr, cert);
      var r := api.Create(at, data, owner, C.WriterOf(cr));
      err := r != OK;
    }

    method Refresh(req: Name, cr: CAResource, path: string) returns (err: bool)
      requires PathOf(path) == ClientMount(cr.cn)
      modifies api
      ensures (api.st, api.calls, err) ==
        RunClientCA(id, C.At(C.ReadChain, req, cr, []), old(api.st), api.turns, old(api.calls))
    {
      ChainTurn(id, C.At(C.ReadChain, req, cr, []), api.st, api.turns, api.calls);
      var caCert := api.PkiReadCertCaChain(path);
      if caCert.None? { return true; }
      var at, data, owner := BuildSecretFrom(req, cr, caCert.value);
      ghost var p := C.At(C.UpdateOld, req, cr, caCert.value);
      UpdateTurn(id, p, api.st, api.turns, api.calls);
      var r := api.Update(at, data, owner, C.WriterOf(cr));
      if r == NotFound {
        CreateTurn(id, p.(pc := C.CreateMissing), api.st, api.turns, api.calls);
        r := api.Create(at, data, owner, C.WriterOf(cr));
      }
      err := r != OK;
    }
  }

  class InternalCertificateReconciler {
    const api: Api

    constructor (api: Api)
      ensures this.api == api
    {
      this.api := api;
    }

    method BuildSecretFrom(req: Name, cr: CertResource, i: Issued) returns (at: Name, data: Data, owner: Owner)
      requires !cr.clientAuth ==> i.chain != []
      ensures at == Name(req.ns, cr.secret) && owner == CertOwner(req)
      ensures data == map[cr.keyName := [KeyBlock(i.key)]]
        [cr.certName := if cr.clientAuth then [CertBlock(i.cert)] else [CertBlock(i.cert), CertBlock(i.chain[0])]]
      ensures data == I.BuildSecret(cr, i)
    {
      var cert: Text;
      if cr.clientAuth {
        cert := [CertBlock(i.cert)];
      } else {
        cert := [CertBlock(i.cert)] + [CertBlock(i.chain[0])];
        assert cert == [CertBlock(i.cert), CertBlock(i.chain[0])];
      }
      at := Name(req.ns, cr.secret);
      data := map[cr.keyName := [KeyBlock(i.key)]][cr.certName := cert];
      owner := CertOwner(req);
    }

    method Reconcile(req: Name) returns (err: bool)
      modifies api
      ensures (api.st, api.calls, err) == RunCertificate(I.Load(req), old(api.st), api.turns, old(api.calls))
    {
      CertificateLoadTurn(req, api.st, api.turns, api.calls);
      var found, r := api.GetCertificate(req);
      if r == NotFound { return false; }
      if r != OK { return true; }
      var cr := found.value;
      if cr.clientAuth {
        err := ReconcileClientAuth(req, cr);
      } else if cr.serverAuth {
        err := ReconcileServerAuth(req, cr);
      } else {
        return false;
      }
    }

    method ReconcileClientAuth(req: Name, cr: CertResource) returns (err: bool)
      requires cr.clientAuth
      modifies api
      ensures (api.st, api.calls, err) ==
        RunCertificate(I.At(I.GetClient, req, cr, None, None), old(api.st), api.turns, old(api.calls))
    {
      ghost var p := I.At(I.GetClient, req, cr, None, None);
      GetClientTurn(p, api.st, api.turns, api.calls);
      ghost var f, seen := api.Luck(), api.Seen();
      var r := api.GetSecret(Name(req.ns, cr.secret));
      if r != OK {
        p := p.(pc := I.IssueClient, since := if f.Fine? then Some(seen.clock) else None);
        IssuerResolvesToMount(cr.issuer, "");
        IssueTurn(p, api.st, api.turns, api.calls);
        var issued := api.PkiIssueWithRole(CLIENT_PREFIX + cr.issuer);
        if issued.None? { return true; }
        err := StoreClientPair(req, cr, issued.value, p.(pc := I.CreateClient, answer := issued));
        return err;
      }
      return false;
    }

    // The Create of a client pair, and the Update that replaces a secret which appeared meanwhile.
    method StoreClientPair(req: Name, cr: CertResource, i: Issued, ghost p: I.Proc) returns (err: bool)
      requires cr.clientAuth && p.At? && p.pc.CreateClient? && p.req == req && p.cr == cr && p.answer == Some(i)
      modifies api
      ensures (api.st, api.calls, err) == RunCertificate(p, old(api.st), api.turns, old(api.calls))
    {
      var at, data, owner := BuildSecretFrom(req, cr, i);
      WriteTurn(p, i, api.st, api.turns, api.calls);
      var r := api.Create(at, data, owner, I.WriterOf(cr, i));
      if r != OK {
        if r == AlreadyExists {
          WriteTurn(p.(pc := I.UpdateClient), i, api.st, api.turns, api.calls);
          r := api.Update(at, data, owner, I.WriterOf(cr, i));
          if r != OK { return true; }
        }
        return r != OK;
      }
      return false;
    }

    method ReconcileServerAuth(req: Name, cr: CertResource) returns (err: bool)
      requires !cr.clientAuth && cr.serverAuth
      modifies api
      ensures (api.st, api.calls, err) ==
        RunCertificate(I.At(I.GetServer, req, cr, None, None), old(api.st), api.turns, old(api.calls))
    {
      ghost var p := I.At(I.GetServer, req, cr, None, None);
      GetServerTurn(p, api.st, api.turns, api.calls);
      ghost var seen := api.Seen();
      var r := api.GetSecret(Name(req.ns, cr.secret));
      if r == NotFound {
        p := p.(pc := I.IssueServer, since := Some(seen.clock));
        IssueTurn(p, api.st, api.turns, api.calls);
        var issued := api.PkiIssueWithRole(INTERM_PATH);
        if issued.None? || issued.value.chain == [] { return true; }
        p := p.(pc := I.CreateServer, answer := issued);
        var at, data, owner := BuildSecretFrom(req, cr, issued.value);
        WriteTurn(p, issued.value, api.st, api.turns, api.calls);
        r := api.Create(at, data, owner, I.WriterOf(cr, issued.value));
        if r != OK { return true; }
      }
      return false;
    }
  }
}
