/** Undisturbed invocations run to their end, and what they converge to. */
module Convergence {
  import opened Options
  import opened Pki
  import opened MountNames
  import opened Faults
  import opened Environment
  import opened Invariants
  import opened ClientCA

  // The rest of an invocation that nothing disturbs: the store it leaves and whether it fails.
  function Finish(id: nat, p: Proc, st: Store): (Store, bool)
    decreases Rank(p)
  {
    if p.Done? then (st, p.err)
    else
      StepLowersRank(id, p, st, Fine);
      var (p', st') := Step(id, p, st, Fine);
      Finish(id, p', st')
  }

  function Pass(id: nat, req: Name, st: Store): (Store, bool) {
    Finish(id, Load(req), st)
  }

  // The secret is exactly the engine's root under the resource's name, owned by the resource.
  ghost predicate Settled(st: Store, req: Name) {
    && req in st.cas
    && var cr := st.cas[req];
       var at, root := Name(req.ns, cr.secret), IssuerText(st, Client(cr.cn + "-ca"));
       && root != []
       && at in st.secrets
       && st.secrets[at].data == map[cr.certName := root]
       && st.secrets[at].owner == CAOwner(req)
  }

  ghost predicate Mounted(st: Store, req: Name)
    requires req in st.cas
  {
    ClientMount(st.cas[req].cn) in st.mounts
  }

  // The engine of the resource was never begun, or it has its root.
  ghost predicate NeverBegunOrRooted(st: Store, req: Name)
    requires req in st.cas
  {
    Mounted(st, req) ==> st.mounts[ClientMount(st.cas[req].cn)].issuer.Some?
  }

  // --- What a pass amounts to ---

  lemma FinishStep(id: nat, p: Proc, st: Store, p': Proc, st': Store)
    requires !p.Done? && (p', st') == Step(id, p, st, Fine)
    ensures Finish(id, p, st) == Finish(id, p', st')
  {
    StepLowersRank(id, p, st, Fine);
  }

  // With the engine listed, a pass is one Update, and one Create if there was nothing to update.
  function Refreshed(st: Store, req: Name, cr: CAResource, text: Text): (Store, Reply) {
    var at, data, owner := Name(req.ns, cr.secret), map[cr.certName := text], CAOwner(req);
    if at in st.secrets then UpdateSecret(st, at, data, owner, ForClientCA(cr.cn, cr.certName), Fine)
    else CreateSecret(st, at, data, owner, ForClientCA(cr.cn, cr.certName), Fine)
  }

  lemma PassWhenMounted(id: nat, req: Name, st: Store)
    requires req in st.cas && Mounted(st, req)
    ensures var cr := st.cas[req]; var (st', r) := Refreshed(st, req, cr, IssuerText(st, ClientMount(cr.cn)));
      Pass(id, req, st) == (st', r != OK)
  {
    var cr := st.cas[req];
    var p := At(ListMounts, req, cr, []);
    var q := At(UpdateOld, req, cr, IssuerText(st, ClientMount(cr.cn)));
    FinishStep(id, Load(req), st, p, st);
    FinishStep(id, p, st, p.(pc := ReadChain), st);
    FinishStep(id, p.(pc := ReadChain), st, q, st);
    var (p', st') := Step(id, q, st, Fine);
    FinishStep(id, q, st, p', st');
    if SecretName(req, cr) !in st.secrets {
      var (p'', st'') := Step(id, p', st', Fine);
      FinishStep(id, p', st', p'', st'');
    }
  }

  // The engine once an invocation has provisioned it without disturbance.
  function Provisioned(id: nat, st: Store, m: Path): Store {
    var a := Reconcile(id);
    st.(clock := st.clock + 1, mounts := st.mounts[m := Mount(
      [Entry(Enable, a), Entry(Tune, a), Entry(Root, a), Entry(Urls, a), Entry(Role, a)],
      Some(Cert(st.clock, st.clock, true)), None)])
  }

  function WithMount(st: Store, m: Path, log: seq<Entry>, issuer: Option<Cert>, clock: nat): Store {
    st.(mounts := st.mounts[m := Mount(log, issuer, None)], clock := clock)
  }

  lemma ProvisioningRuns(id: nat, req: Name, cr: CAResource, st: Store)
    requires ClientMount(cr.cn) !in st.mounts
    ensures Finish(id, At(EnableIt, req, cr, []), st) ==
      Finish(id, At(ClusterConfig, req, cr, [CertBlock(Cert(st.clock, st.clock, true))]), Provisioned(id, st, ClientMount(cr.cn)))
  {
    var m, a, c := ClientMount(cr.cn), Reconcile(id), Cert(st.clock, st.clock, true);
    var p := At(EnableIt, req, cr, []);
    var l1 := [Entry(Enable, a)];
    var l2 := l1 + [Entry(Tune, a)];
    var l3 := l2 + [Entry(Root, a)];
    var l4 := l3 + [Entry(Urls, a)];
    var s1, s2 := WithMount(st, m, l1, None, st.clock), WithMount(st, m, l2, None, st.clock);
    var s3, s4 := WithMount(st, m, l3, Some(c), st.clock + 1), WithMount(st, m, l4, Some(c), st.clock + 1);
    var q := p.(text := [CertBlock(c)]);
    FinishStep(id, p, st, p.(pc := TuneIt), s1);
    assert s1.mounts[m := s2.mounts[m]] == s2.mounts;
    FinishStep(id, p.(pc := TuneIt), s1, p.(pc := RootIt), s2);
    assert s2.mounts[m := s3.mounts[m]] == s3.mounts;
    FinishStep(id, p.(pc := RootIt), s2, q.(pc := UrlsIt), s3);
    assert s3.mounts[m := s4.mounts[m]] == s4.mounts;
    FinishStep(id, q.(pc := UrlsIt), s3, q.(pc := RoleIt), s4);
    var s5 := Provisioned(id, st, m);
    assert l4 + [Entry(Role, a)] == s5.mounts[m].log;
    assert s4.mounts[m := s5.mounts[m]] == s5.mounts;
    FinishStep(id, q.(pc := RoleIt), s4, q.(pc := ClusterConfig), s5);
  }

  // Without an engine, a pass provisions it and makes one Create, of the root if the token could
  // be read and of an empty text otherwise.
  lemma PassWhenAbsent(id: nat, req: Name, st: Store)
    requires req in st.cas && !Mounted(st, req)
    ensures var cr := st.cas[req]; var mid := Provisioned(id, st, ClientMount(cr.cn));
      var text := if Name(st.home, "vault-root-token") in st.secrets then IssuerText(mid, ClientMount(cr.cn)) else [];
      var (st', r) := CreateSecret(mid, Name(req.ns, cr.secret), map[cr.certName := text], CAOwner(req),
        ForClientCA(cr.cn, cr.certName), Fine);
      Pass(id, req, st) == (st', r != OK)
  {
    var cr := st.cas[req];
    var mid := Provisioned(id, st, ClientMount(cr.cn));
    var p := At(ListMounts, req, cr, []);
    var q := At(ClusterConfig, req, cr, [CertBlock(Cert(st.clock, st.clock, true))]);
    FinishStep(id, Load(req), st, p, st);
    FinishStep(id, p, st, p.(pc := EnableIt), st);
    ProvisioningRuns(id, req, cr, st);
    FinishStep(id, q, mid, q.(pc := RootToken), mid);
    var text := if Name(st.home, "vault-root-token") in st.secrets then q.text else [];
    FinishStep(id, q.(pc := RootToken), mid, q.(pc := CreateNew, text := text), mid);
    var (p', st') := Step(id, q.(pc := CreateNew, text := text), mid, Fine);
    FinishStep(id, q.(pc := CreateNew, text := text), mid, p', st');
  }

  // --- Convergence ---

  // A settled resource costs nothing: a pass changes neither Vault nor the cluster, and succeeds.
  lemma PassOnSettledChangesNothing(id: nat, req: Name, st: Store)
    requires Settled(st, req) && st.cas[req].certName != ""
    ensures Pass(id, req, st) == (st, false)
  {
    PassWhenMounted(id, req, st);
  }

  // With the engine there and rooted, one pass settles the resource.
  lemma PassWhenMountedSettles(id: nat, req: Name, st: Store)
    requires req in st.cas && Mounted(st, req) && NeverBegunOrRooted(st, req) && st.cas[req].certName != ""
    ensures var (st', err) := Pass(id, req, st); Settled(st', req) && !err && st'.mounts == st.mounts
  {
    PassWhenMounted(id, req, st);
  }

  // A first pass fails exactly when the engine is absent and the secret is already there.
  lemma FirstPass(id: nat, req: Name, st: Store)
    requires req in st.cas && NeverBegunOrRooted(st, req) && st.cas[req].certName != ""
    ensures var (st', err) := Pass(id, req, st);
      && st'.cas == st.cas && Mounted(st', req) && NeverBegunOrRooted(st', req)
      && (err <==> !Mounted(st, req) && Name(req.ns, st.cas[req].secret) in st.secrets)
  {
    if Mounted(st, req) {
      PassWhenMounted(id, req, st);
    } else {
      PassWhenAbsent(id, req, st);
    }
  }

  // Two undisturbed passes settle the resource exactly when its engine was never begun or has its
  // root, and its certificate name is not empty; no number of passes does otherwise.
  lemma TwoPassesSettleIff(req: Name, st: Store, first: nat, second: nat)
    requires req in st.cas
    ensures var mid := Pass(first, req, st).0; var (st', err) := Pass(second, req, mid);
      (Settled(st', req) && !err) <==> (NeverBegunOrRooted(st, req) && st.cas[req].certName != "")
  {
    if NeverBegunOrRooted(st, req) && st.cas[req].certName != "" {
      FirstPass(first, req, st);
      PassWhenMountedSettles(second, req, Pass(first, req, st).0);
    } else {
      HopelessPass(first, req, st);
      HopelessPass(second, req, Pass(first, req, st).0);
    }
  }

  lemma PassKeepsResources(id: nat, req: Name, st: Store)
    requires req in st.cas
    ensures Pass(id, req, st).0.cas == st.cas
  {
    if Mounted(st, req) {
      PassWhenMounted(id, req, st);
    } else {
      PassWhenAbsent(id, req, st);
    }
  }

  // A pass of a resource changes no secret but the one it names.
  lemma PassTouchesOneSecret(id: nat, req: Name, st: Store, n: Name)
    requires req in st.cas && n != Name(req.ns, st.cas[req].secret)
    ensures var st' := Pass(id, req, st).0;
      && (n in st'.secrets <==> n in st.secrets) && (n in st.secrets ==> st'.secrets[n] == st.secrets[n])
  {
    if Mounted(st, req) {
      PassWhenMounted(id, req, st);
    } else {
      PassWhenAbsent(id, req, st);
    }
  }

  // What two undisturbed passes come to, where they come to anything: the secret that the resource
  // names holds exactly the root certificate of the engine of its common name, under the name it
  // gives, and belongs to it; and every other secret is as it was.
  lemma TwoPassesStoreTheRoot(req: Name, st: Store, first: nat, second: nat)
    requires req in st.cas && NeverBegunOrRooted(st, req) && st.cas[req].certName != ""
    ensures var cr := st.cas[req];
      var st' := Pass(second, req, Pass(first, req, st).0).0;
      var at, m := Name(req.ns, cr.secret), Client(cr.cn + "-ca");
      && m in st'.mounts && st'.mounts[m].issuer.Some?
      && at in st'.secrets
      && st'.secrets[at].data == map[cr.certName := [CertBlock(st'.mounts[m].issuer.value)]]
      && st'.secrets[at].owner == CAOwner(req)
      && forall n :: n != at ==>
        (n in st'.secrets <==> n in st.secrets) && (n in st.secrets ==> st'.secrets[n] == st.secrets[n])
  {
    var cr, mid := st.cas[req], Pass(first, req, st).0;
    var st' := Pass(second, req, mid).0;
    FirstPass(first, req, st);
    PassWhenMountedSettles(second, req, mid);
    PassKeepsResources(second, req, mid);
    assert Settled(st', req);
    forall n | n != Name(req.ns, cr.secret)
      ensures (n in st'.secrets <==> n in st.secrets) && (n in st.secrets ==> st'.secrets[n] == st.secrets[n])
    {
      PassTouchesOneSecret(first, req, st, n);
      PassTouchesOneSecret(second, req, mid, n);
    }
  }

  ghost predicate Hopeless(st: Store, req: Name) {
    && req in st.cas
    && (!NeverBegunOrRooted(st, req) || st.cas[req].certName == "")
  }

  // A half-provisioned engine is never resumed, and a nameless certificate never stored.
  lemma HopelessPass(id: nat, req: Name, st: Store)
    requires Hopeless(st, req)
    ensures var (st', err) := Pass(id, req, st);
      Hopeless(st', req) && (err || !Settled(st', req)) && (Mounted(st, req) ==> st'.mounts == st.mounts)
  {
    if Mounted(st, req) {
      PassWhenMounted(id, req, st);
    } else {
      PassWhenAbsent(id, req, st);
    }
  }

  function Passes(req: Name, st: Store, n: nat): Store {
    if n == 0 then st else Pass(n, req, Passes(req, st, n - 1)).0
  }

  lemma {:induction false} HopelessForever(req: Name, st: Store, n: nat)
    requires Hopeless(st, req)
    ensures Hopeless(Passes(req, st, n), req)
    ensures Pass(n + 1, req, Passes(req, st, n)).1 || !Settled(Passes(req, st, n + 1), req)
  {
    if n == 0 {
    } else {
      HopelessForever(req, st, n - 1);
      HopelessPass(n, req, Passes(req, st, n - 1));
    }
    HopelessPass(n + 1, req, Passes(req, st, n));
  }
}
