/** Where the controllers' writes go: to the secrets that resources name, in whatever order things
    happen. */
module Provenance {
  import opened Options
  import opened Pki
  import opened MountNames
  import opened Faults
  import opened Environment
  import opened Invariants
  import opened System
  import Histories
  import ClientCA
  import InternalCert
  import PkiJob

  // The stores a history goes through.
  ghost function Past(w: World, es: seq<Event>): set<Store>
    decreases |es|
  {
    {w.store} + if es == [] then {} else Past(Next(w, es[0]), es[1..])
  }

  // The resource stood under the name in one of the stores.
  ghost predicate CAStood(h: set<Store>, req: Name, cr: CAResource) {
    exists st :: st in h && req in st.cas && st.cas[req] == cr
  }

  ghost predicate CertStood(h: set<Store>, req: Name, cr: CertResource) {
    exists st :: st in h && req in st.certs && st.certs[req] == cr
  }

  // A write of an InternalClientCA: to the secret a resource names, one entry under the name it
  // gives.
  ghost predicate CAWriteFits(x: Write, req: Name, cr: CAResource) {
    && x.at == Name(req.ns, cr.secret)
    && x.data.Keys == {cr.certName}
    && x.writer == ForClientCA(cr.cn, cr.certName)
  }

  // A write of an InternalCertificate: a pair of the engine of its usage under the names it gives.
  ghost predicate CertWriteFits(x: Write, i: Issued, req: Name, cr: CertResource) {
    && x.at == Name(req.ns, cr.secret)
    && i.path == (if cr.clientAuth then Client(cr.issuer) else IntermMount)
    && x.writer == (if cr.clientAuth then ForClientCert(cr.keyName, cr.certName, i) else ForServerCert(cr.keyName, cr.certName, i))
    && x.data == map[cr.keyName := [KeyBlock(i.key)]]
         [cr.certName := [CertBlock(i.cert)] + if cr.clientAuth || i.chain == [] then [] else [CertBlock(i.chain[0])]]
  }

  ghost predicate WriteFits(x: Write, h: set<Store>) {
    match x.writer
    case Outside => true
    case ForRootCA(_, _) => true
    case ForClientCA(_, _) => exists req, cr :: CAStood(h, req, cr) && CAWriteFits(x, req, cr)
    case ForClientCert(_, _, i) => exists req, cr :: CertStood(h, req, cr) && CertWriteFits(x, i, req, cr)
    case ForServerCert(_, _, i) => exists req, cr :: CertStood(h, req, cr) && CertWriteFits(x, i, req, cr)
  }

  ghost predicate ClientCAFits(p: ClientCA.Proc, h: set<Store>) {
    p.At? ==> CAStood(h, p.req, p.cr)
  }

  ghost predicate CertificateFits(p: InternalCert.Proc, h: set<Store>) {
    p.At? ==> CertStood(h, p.req, p.cr)
  }

  ghost predicate Fits(w: World, h: set<Store>) {
    && w.store in h
    && (forall k :: 0 <= k < |w.seen| ==> w.seen[k] in h)
    && (forall id :: id in w.clientCAs ==> ClientCAFits(w.clientCAs[id], h))
    && (forall id :: id in w.certificates ==> CertificateFits(w.certificates[id], h))
    && (forall k :: 0 <= k < |w.store.writes| ==> WriteFits(w.store.writes[k], h))
  }

  lemma WriteStillFits(x: Write, h: set<Store>, h': set<Store>)
    requires WriteFits(x, h) && h <= h'
    ensures WriteFits(x, h')
  {
    match x.writer
    case Outside =>
    case ForRootCA(_, _) =>
    case ForClientCA(_, _) =>
      var req, cr :| CAStood(h, req, cr) && CAWriteFits(x, req, cr);
      assert CAStood(h', req, cr);
    case ForClientCert(_, _, i) =>
      var req, cr :| CertStood(h, req, cr) && CertWriteFits(x, i, req, cr);
      assert CertStood(h', req, cr);
    case ForServerCert(_, _, i) =>
      var req, cr :| CertStood(h, req, cr) && CertWriteFits(x, i, req, cr);
      assert CertStood(h', req, cr);
  }

  lemma StillFits(w: World, h: set<Store>, h': set<Store>)
    requires Fits(w, h) && h <= h'
    ensures Fits(w, h')
  {
    forall k | 0 <= k < |w.store.writes| ensures WriteFits(w.store.writes[k], h') {
      WriteStillFits(w.store.writes[k], h, h');
    }
    forall id | id in w.clientCAs ensures ClientCAFits(w.clientCAs[id], h') {
      assert ClientCAFits(w.clientCAs[id], h);
    }
    forall id | id in w.certificates ensures CertificateFits(w.certificates[id], h') {
      assert CertificateFits(w.certificates[id], h);
    }
  }

  // The writes after a step: none, or one that fits.
  ghost predicate Appends(st: Store, st': Store, h: set<Store>) {
    st'.writes == st.writes || exists x :: st'.writes == st.writes + [x] && WriteFits(x, h)
  }

  lemma ClientCAStepFits(id: nat, p: ClientCA.Proc, st: Store, f: Fault, h: set<Store>)
    requires ClientCAFits(p, h) && st in h
    ensures var (p', st') := ClientCA.Step(id, p, st, f); ClientCAFits(p', h) && Appends(st, st', h)
  {
    var (p', st') := ClientCA.Step(id, p, st, f);
    if p.At? {
      if p.pc in {ClientCA.CreateNew, ClientCA.UpdateOld, ClientCA.CreateMissing} {
        ClientCA.StoreStepEffect(p, st, f, st');
        if st' != st {
          var x := Write(ClientCA.SecretName(p.req, p.cr), ClientCA.BuildSecret(p.cr, p.text), ClientCA.WriterOf(p.cr));
          assert CAWriteFits(x, p.req, p.cr);
        }
      } else {
        ClientCA.VaultStepEffect(id, p, st, f, st');
      }
    }
  }

  lemma CertificateStepFits(p: InternalCert.Proc, st: Store, f: Fault, h: set<Store>)
    requires CertificateFits(p, h) && st in h && InternalCert.ProcInv(p, st)
    ensures var (p', st') := InternalCert.Step(p, st, f); CertificateFits(p', h) && Appends(st, st', h)
  {
    var (p', st') := InternalCert.Step(p, st, f);
    if p.At? {
      if p.pc in {InternalCert.IssueClient, InternalCert.IssueServer} {
        InternalCert.IssueEffect(p, st, f, p', st');
      } else if p.answer.Some? {
        var i := p.answer.value;
        InternalCert.WriteEffect(p, i, st, f, p', st');
        if st' != st {
          var x := Write(InternalCert.SecretName(p.req, p.cr), InternalCert.BuildSecret(p.cr, i), InternalCert.WriterOf(p.cr, i));
          assert [CertBlock(i.cert)] + [] == [CertBlock(i.cert)];
          assert CertWriteFits(x, i, p.req, p.cr);
        }
      }
    }
  }

  lemma JobStepFits(w: World, e: Event, h: set<Store>)
    requires Inv(w) && (e.StepMain? || e.StepGoroutine?)
    ensures Appends(w.store, Next(w, e).store, h)
  {
    var st' := Next(w, e).store;
    if w.job.None? {
    } else if e.StepMain? {
      PkiJob.MainStepEffect(w.job.value, w.store, e.f, st');
    } else {
      assert ConcernInv(TheJob, w);
      PkiJob.Concerns(w.job.value, w.store);
      PkiJob.PersisterEffect(w.job.value, w.store, e.f, st');
    }
  }

  lemma WritesFit(st: Store, st': Store, h: set<Store>)
    requires (forall k :: 0 <= k < |st.writes| ==> WriteFits(st.writes[k], h)) && Appends(st, st', h)
    ensures forall k :: 0 <= k < |st'.writes| ==> WriteFits(st'.writes[k], h)
  {
  }

  // What the event does to the writes, and to the invocations.
  lemma NextAppends(w: World, e: Event, h: set<Store>)
    requires Inv(w) && Fits(w, h)
    ensures Appends(w.store, Next(w, e).store, h)
  {
    if e.StepClientCA? && e.id in w.clientCAs {
      ClientCAStepFits(e.id, w.clientCAs[e.id], w.store, e.f, h);
    } else if e.StepCertificate? && e.id in w.certificates {
      assert ConcernInv(CertificateProc(e.id), w);
      CertificateStepFits(w.certificates[e.id], w.store, e.f, h);
    } else if e.StepMain? || e.StepGoroutine? {
      JobStepFits(w, e, h);
    } else if e.User? && e.edit.PutSecret? {
      assert WriteFits(Write(e.edit.name, e.edit.data, Outside), h);
    }
  }

  lemma NextInvocationsFit(w: World, e: Event, h: set<Store>)
    requires Inv(w) && Fits(w, h)
    ensures var w' := Next(w, e);
      && (forall id :: id in w'.clientCAs ==> ClientCAFits(w'.clientCAs[id], h))
      && (forall id :: id in w'.certificates ==> CertificateFits(w'.certificates[id], h))
  {
    if e.StepClientCA? && e.id in w.clientCAs {
      ClientCAStepFits(e.id, w.clientCAs[e.id], w.store, e.f, h);
    } else if e.StepCertificate? && e.id in w.certificates {
      assert ConcernInv(CertificateProc(e.id), w);
      CertificateStepFits(w.certificates[e.id], w.store, e.f, h);
    }
  }

  lemma NextFits(w: World, e: Event, h: set<Store>)
    requires Inv(w) && Fits(w, h)
    ensures Fits(Next(w, e), h + {Next(w, e).store})
  {
    var w', h' := Next(w, e), h + {Next(w, e).store};
    NextInvocationsFit(w, e, h);
    NextAppends(w, e, h);
    WritesFit(w.store, w'.store, h);
    StillFits(World(w.store, w.seen, w'.clientCAs, w'.certificates, w.job, w.nextId, w.nextRun, w.refused, w.lost, w.stopped), h, h');
    forall k | 0 <= k < |w'.store.writes| ensures WriteFits(w'.store.writes[k], h') {
      WriteStillFits(w'.store.writes[k], h, h');
    }
  }

  lemma {:induction false} RunFits(w: World, es: seq<Event>, h: set<Store>)
    requires Inv(w) && Fits(w, h)
    ensures Fits(Run(w, es), h + Past(w, es))
    decreases |es|
  {
    if es == [] {
      StillFits(w, h, h + Past(w, es));
    } else {
      var w' := Next(w, es[0]);
      NextFits(w, es[0], h);
      NextKeeps(w, es[0]);
      RunFits(w', es[1..], h + {w'.store});
      var all := h + {w'.store} + Past(w', es[1..]);
      assert w'.store in Past(w', es[1..]);
      StillFits(Run(w, es), all, h + Past(w, es));
    }
  }

  // Over every history: a write of an InternalClientCA invocation went to the secret that a resource
  // named, which stood in one of the stores the history went through, under the name it gave; and a
  // write of an InternalCertificate invocation is, in the same sense, the pair its resource asked for.
  lemma WritesLandWhereNamed(w: World, es: seq<Event>, k: nat)
    requires Init(w) && k < |Run(w, es).store.writes|
    ensures var x := Run(w, es).store.writes[k];
      && (x.writer.ForClientCA? ==>
        exists req, cr :: CAStood(Past(w, es), req, cr) && CAWriteFits(x, req, cr))
      && (x.writer.ForClientCert? || x.writer.ForServerCert? ==>
        exists req, cr :: CertStood(Past(w, es), req, cr) && CertWriteFits(x, x.writer.from, req, cr))
  {
    InitInv(w);
    RunFits(w, es, {w.store});
    assert {w.store} + Past(w, es) == Past(w, es);
    assert WriteFits(Run(w, es).store.writes[k], Past(w, es));
  }
}
