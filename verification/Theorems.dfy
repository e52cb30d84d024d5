/** What holds in every state the composed system can reach. `Reached` is the store after any
    sequence of events from any initial world. */
module Theorems {
  import opened Options
  import opened Pki
  import opened MountNames
  import opened Faults
  import opened Environment
  import opened Invariants
  import opened System
  import ClientCA
  import InternalCert
  import PkiJob

  function Reached(w: World, es: seq<Event>): Store {
    Run(w, es).store
  }

  lemma ReachedSides(w: World, es: seq<Event>)
    requires Init(w)
    ensures Inv(Run(w, es)) && StoreInv(Reached(w, es))
    ensures Holds(Engines, Reached(w, es)) && Holds(Leaves, Reached(w, es))
    ensures Holds(Secrets, Reached(w, es)) && Holds(Resources, Reached(w, es))
  {
    InitInv(w);
    RunKeeps(w, es);
    assert ConcernInv(TheStore, Run(w, es));
    Sides(Reached(w, es));
  }

  predicate Stores(d: Data, key: string, text: Text) {
    key in d && d[key] == text
  }

  // --- Provisioning ---

  function Stages(log: seq<Entry>): seq<Stage> {
    seq(|log|, k requires 0 <= k < |log| => log[k].stage)
  }

  ghost predicate AtMostOnce(log: seq<Entry>, stage: Stage) {
    forall i, j :: 0 <= i < |log| && 0 <= j < |log| && log[i].stage == stage && log[j].stage == stage ==> i == j
  }

  // However many invocations race for a common name, its engine has gone through a prefix of the
  // five provisioning calls, all made by the invocation that enabled it, with one root key.
  lemma ClientEnginesAreProvisionedInOrder(w: World, es: seq<Event>, ref: string)
    requires Init(w) && Client(ref) in Reached(w, es).mounts
    ensures var log := Reached(w, es).mounts[Client(ref)].log;
      && 1 <= |log| && Stages(log) <= CLIENT_SCRIPT && AtMostOnce(log, Root)
      && log[0].actor.Reconcile? && (forall k :: 0 <= k < |log| ==> log[k].actor == log[0].actor)
  {
    ReachedSides(w, es);
    EngineInv(Reached(w, es), Client(ref));
  }

  // A later run of events never replaces the root of an engine.
  lemma IssuersNeverChange(w: World, es: seq<Event>, later: seq<Event>, p: Path, c: Cert)
    requires Init(w) && !p.Elsewhere? && HasIssuer(Reached(w, es), p, c)
    ensures HasIssuer(Run(Run(w, es), later).store, p, c)
  {
    ReachedSides(w, es);
    RunKeeps(Run(w, es), later);
  }

  // Over any number of job runs, each stopped anywhere: the intermediate engine has gone through a
  // prefix of its script, one intermediate at most was signed, and one that is installed is that
  // one, signed by the root engine's root for the engine's own CSR key.
  lemma IntermediateIsSignedOnce(w: World, es: seq<Event>)
    requires Init(w)
    ensures var st := Reached(w, es);
      && |st.signed| <= 1
      && (IntermMount in st.mounts ==> Stages(st.mounts[IntermMount].log) <= INTERM_SCRIPT)
      && (IntermMount in st.mounts && st.mounts[IntermMount].issuer.Some? ==>
        && st.signed == [st.mounts[IntermMount].issuer.value]
        && RootMount in st.mounts && st.mounts[RootMount].issuer.Some?
        && st.mounts[IntermMount].csr == Some(st.signed[0].subject)
        && ValidPath(st.signed, st.mounts[RootMount].issuer.value))
  {
    ReachedSides(w, es);
    EngineInv(Reached(w, es), IntermMount);
  }

  // The root engine generates one root at most. Its calls follow the script exactly when no run
  // took a lost URL configuration for a success and went on to write the role.
  lemma RootEngineIsInOrderUnlessMasked(w: World, es: seq<Event>)
    requires Init(w) && RootMount in Reached(w, es).mounts
    ensures var st := Reached(w, es); var log := st.mounts[RootMount].log;
      && AtMostOnce(log, Root)
      && (Stages(log) <= ROOT_SCRIPT <==> !(st.masked && |log| == 4))
      && (Stages(log) <= ROOT_SCRIPT || Stages(log) == ROOT_GAP_SCRIPT)
  {
    ReachedSides(w, es);
    var st := Reached(w, es);
    EngineInv(st, RootMount);
    var log := st.mounts[RootMount].log;
    if st.masked && |log| == 4 {
      assert Stages(log)[3] == Role && ROOT_SCRIPT[3] == Urls;
    }
  }

  // --- Chains of trust ---

  // Every server certificate ever stored, in whatever namespace, is a leaf and the intermediate
  // that signed it, and every root certificate the job ever published validates that path.
  lemma PublishedRootValidatesServerBundles(w: World, es: seq<Event>, k: nat, m: nat)
    requires Init(w) && k < |Reached(w, es).writes| && m < |Reached(w, es).writes|
    requires Reached(w, es).writes[k].writer.ForServerCert? && Reached(w, es).writes[m].writer.ForRootCA?
    ensures var server, root := Reached(w, es).writes[k], Reached(w, es).writes[m];
      exists leaf, interm, anchor ::
        && Stores(server.data, server.writer.certName, [CertBlock(leaf), CertBlock(interm)])
        && Stores(root.data, "ca.pem", [CertBlock(anchor)])
        && ValidPath([leaf, interm], anchor) && Signs(anchor, anchor)
        && HasIssuer(Reached(w, es), RootMount, anchor) && HasIssuer(Reached(w, es), IntermMount, interm)
  {
    ReachedSides(w, es);
    var st := Reached(w, es);
    EngineInv(st, IntermMount);
    EngineInv(st, RootMount);
    var i := st.writes[k].writer.from;
    assert IssuedInv(i, st);
    var anchor, interm := st.mounts[RootMount].issuer.value, st.mounts[IntermMount].issuer.value;
    assert ValidPath([i.cert, interm], anchor) by {
      assert [i.cert, interm][1..] == [interm];
    }
    assert BundleText(i) == [CertBlock(i.cert), CertBlock(interm)];
    assert WriteInv(st.writes[k].data, st.writes[k].writer, st) && WriteInv(st.writes[m].data, st.writes[m].writer, st);
  }

  // What is in the cluster now: a secret whose last writer was a server reconcile is such a bundle.
  lemma ServerSecretsAreBundles(w: World, es: seq<Event>, at: Name)
    requires Init(w) && at in Reached(w, es).secrets && Reached(w, es).secrets[at].writer.ForServerCert?
    ensures var st := Reached(w, es); var s := st.secrets[at];
      && RootMount in st.mounts && st.mounts[RootMount].issuer.Some?
      && exists leaf, interm ::
        && Stores(s.data, s.writer.certName, [CertBlock(leaf), CertBlock(interm)])
        && ValidPath([leaf, interm], st.mounts[RootMount].issuer.value)
  {
    ReachedSides(w, es);
    var st := Reached(w, es);
    EngineInv(st, IntermMount);
    EngineInv(st, RootMount);
    var i := st.secrets[at].writer.from;
    assert IssuedInv(i, st);
    var anchor, interm := st.mounts[RootMount].issuer.value, st.mounts[IntermMount].issuer.value;
    assert ValidPath([i.cert, interm], anchor) by {
      assert [i.cert, interm][1..] == [interm];
    }
    assert BundleText(i) == [CertBlock(i.cert), CertBlock(interm)];
  }

  // A client certificate verifies against a certificate that an InternalClientCA for cn ever
  // stored, anywhere and at any time, exactly when it was issued by the engine of cn.
  lemma ClientLeafVerifiesIffSameCN(w: World, es: seq<Event>, k: nat, n: nat, ca: Cert)
    requires Init(w) && k < |Reached(w, es).writes| && n < |Reached(w, es).issued|
    requires Reached(w, es).writes[k].writer.ForClientCA?
    requires Stores(Reached(w, es).writes[k].data, Reached(w, es).writes[k].writer.certName, [CertBlock(ca)])
    requires Reached(w, es).issued[n].path.Client?
    ensures var cn := Reached(w, es).writes[k].writer.cn; var i := Reached(w, es).issued[n];
      && (Signs(ca, i.cert) <==> i.path == ClientMount(cn))
      && (i.path == ClientMount(cn) <==> i.path.ref == cn + "-ca")
  {
    ReachedSides(w, es);
    var st := Reached(w, es);
    var m, i := ClientMount(st.writes[k].writer.cn), st.issued[n];
    assert IssuedInv(i, st) && WriteInv(st.writes[k].data, st.writes[k].writer, st);
    EngineInv(st, m);
    EngineInv(st, i.path);
  }

  // An InternalClientCA stores one text, which is empty or its engine's root; so two texts stored
  // for one common name, neither of them empty, are the same certificate.
  lemma StoredClientCAsAgree(w: World, es: seq<Event>, k: nat, m: nat, s: Text, t: Text)
    requires Init(w) && k < |Reached(w, es).writes| && m < |Reached(w, es).writes|
    requires Reached(w, es).writes[k].writer.ForClientCA? && Reached(w, es).writes[m].writer.ForClientCA?
    requires Reached(w, es).writes[k].writer.cn == Reached(w, es).writes[m].writer.cn
    requires Stores(Reached(w, es).writes[k].data, Reached(w, es).writes[k].writer.certName, s) && s != []
    requires Stores(Reached(w, es).writes[m].data, Reached(w, es).writes[m].writer.certName, t) && t != []
    ensures Reached(w, es).writes[k].data.Keys == {Reached(w, es).writes[k].writer.certName}
    ensures s == t && |s| == 1 && s[0].CertBlock? && Signs(s[0].cert, s[0].cert)
  {
    ReachedSides(w, es);
    var st := Reached(w, es);
    assert WriteInv(st.writes[k].data, st.writes[k].writer, st);
    assert WriteInv(st.writes[m].data, st.writes[m].writer, st);
    EngineInv(st, ClientMount(st.writes[k].writer.cn));
  }

  // --- Key pairs ---

  // The data holds a private key under keyName and, first under certName, the leaf for it.
  predicate HoldsPair(d: Data, keyName: string, certName: string, key: Key, leaf: Cert) {
    && Stores(d, keyName, [KeyBlock(key)])
    && certName in d && |d[certName]| > 0 && d[certName][0] == CertBlock(leaf)
    && leaf.subject == key
  }

  // Whatever races, replacements and rotations went before, a secret written by a certificate
  // reconcile holds the key and the leaf of one Vault response, exactly when its two names differ;
  // and it holds two certificates exactly when the intermediate engine issued the leaf.
  lemma SecretsHoldMatchingPairs(w: World, es: seq<Event>, k: nat)
    requires Init(w) && k < |Reached(w, es).writes|
    requires Reached(w, es).writes[k].writer.ForClientCert? || Reached(w, es).writes[k].writer.ForServerCert?
    ensures var x := Reached(w, es).writes[k]; var who := x.writer;
      && who.from in Reached(w, es).issued
      && (HoldsPair(x.data, who.keyName, who.certName, who.from.key, who.from.cert) <==> who.keyName != who.certName)
      && x.data.Keys == {who.keyName, who.certName}
      && |x.data[who.certName]| == (if who.from.path == IntermMount then 2 else 1)
      && (who.ForServerCert? <==> who.from.path == IntermMount)
  {
    ReachedSides(w, es);
    var st := Reached(w, es);
    assert WriteInv(st.writes[k].data, st.writes[k].writer, st);
    assert IssuedInv(st.writes[k].writer.from, st);
  }

  // --- Admission ---

  // Every stored certificate resource has one usage, so an invocation that loads it asks exactly
  // one kind of engine: the final branch of Reconcile is never taken.
  lemma DispatchIsDecided(w: World, es: seq<Event>, req: Name)
    requires Init(w) && req in Reached(w, es).certs
    ensures var st := Reached(w, es); var p := InternalCert.Step(InternalCert.Load(req), st, Fine).0;
      && st.certs[req].clientAuth != st.certs[req].serverAuth
      && p.At? && (p.pc.GetClient? <==> st.certs[req].clientAuth) && (p.pc.GetServer? <==> st.certs[req].serverAuth)
  {
    ReachedSides(w, es);
  }

  // And it keeps asking that kind, even when the resource is edited while it runs.
  lemma InvocationsIssueFromTheirEngine(w: World, es: seq<Event>, id: nat)
    requires Init(w) && id in Run(w, es).certificates && Run(w, es).certificates[id].At?
    ensures var p := Run(w, es).certificates[id];
      && p.cr.clientAuth != p.cr.serverAuth
      && (p.pc.IssueServer? || p.pc.CreateServer? ==> p.cr.serverAuth)
      && (p.pc.IssueClient? || p.pc.CreateClient? || p.pc.UpdateClient? ==> p.cr.clientAuth)
      && (p.answer.Some? ==>
        p.answer.value.path == if p.cr.clientAuth then Client(p.cr.issuer) else IntermMount)
  {
    ReachedSides(w, es);
    assert ConcernInv(CertificateProc(id), Run(w, es));
  }
}
