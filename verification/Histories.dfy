/** Properties of steps and of whole histories: what may change a stored secret, where every server
    certificate ends up, and when the shared error variable of the PKI job loses a failure. */
module Histories {
  import opened Options
  import opened Pki
  import opened MountNames
  import opened Faults
  import opened Environment
  import opened Invariants
  import opened System
  import opened Theorems
  import ClientCA
  import InternalCert
  import PkiJob

  // --- Stability of stored key pairs ---

  // No call of a server reconcile changes a secret that exists.
  lemma ServerReconcilesRewriteNothing(w: World, es: seq<Event>, id: nat, f: Fault, n: Name)
    requires Init(w) && n in Reached(w, es).secrets
    requires id in Run(w, es).certificates && Run(w, es).certificates[id].At?
    requires Run(w, es).certificates[id].cr.serverAuth
    ensures var st' := Next(Run(w, es), StepCertificate(id, f)).store;
      n in st'.secrets && st'.secrets[n] == Reached(w, es).secrets[n]
  {
    ReachedSides(w, es);
    var now := Run(w, es);
    assert ConcernInv(CertificateProc(id), now);
    CertificateStepEffect(now.certificates[id], now.store, f, Next(now, StepCertificate(id, f)).store);
  }

  // The calls of an invocation replace a secret in one place only.
  lemma CertificateStepEffect(p: InternalCert.Proc, st: Store, f: Fault, st': Store)
    requires p.At? && st' == InternalCert.Step(p, st, f).1
    ensures forall n :: n in st.secrets ==>
      && n in st'.secrets
      && (st'.secrets[n] == st.secrets[n] || (p.pc.UpdateClient? && n == Name(p.req.ns, p.cr.secret)))
  {
    var p' := InternalCert.Step(p, st, f).0;
    if p.pc in {InternalCert.IssueClient, InternalCert.IssueServer} {
      InternalCert.IssueEffect(p, st, f, p', st');
    } else if p.pc !in {InternalCert.GetClient, InternalCert.GetServer} && p.answer.Some? {
      InternalCert.WriteEffect(p, p.answer.value, st, f, p', st');
    }
  }

  // A call of a client reconcile changes a secret only in its Update, only the secret it names, and
  // only if its Get had failed for another reason than NotFound, or else the secret was created
  // after the store from which a cache, perhaps, answered the Get.
  lemma ClientReconcilesRewriteOnlyIf(w: World, es: seq<Event>, id: nat, f: Fault, n: Name)
    requires Init(w) && n in Reached(w, es).secrets
    requires id in Run(w, es).certificates && Run(w, es).certificates[id].At?
    ensures var p, st := Run(w, es).certificates[id], Reached(w, es);
      var st' := Next(Run(w, es), StepCertificate(id, f)).store;
      n in st'.secrets &&
      (st'.secrets[n] != st.secrets[n] ==>
        && p.pc.UpdateClient? && n == Name(p.req.ns, p.cr.secret)
        && (p.since.None? || st.secrets[n].created >= p.since.value))
  {
    ReachedSides(w, es);
    var now := Run(w, es);
    assert ConcernInv(CertificateProc(id), now);
    CertificateStepEffect(now.certificates[id], now.store, f, Next(now, StepCertificate(id, f)).store);
  }

  // `since` says what it should, `st` being the store that answers the Get, present or cached: it is
  // the time of that store exactly when the secret was absent there.
  lemma SinceRecordsTheGet(p: InternalCert.Proc, st: Store, f: Fault)
    requires p.At? && (p.pc.GetClient? || p.pc.GetServer?)
    ensures var p' := InternalCert.Step(p, st, f).0;
      p'.At? ==>
        (p'.since == Some(st.clock) <==> f == Fine && Name(p.req.ns, p.cr.secret) !in st.secrets) &&
        (p'.since == None <==> f != Fine)
  {
  }

  // --- Where server certificates go ---

  function FromInterm(s: seq<Issued>): nat {
    if s == [] then 0 else FromInterm(s[..|s| - 1]) + if s[|s| - 1].path == IntermMount then 1 else 0
  }

  function ServerWrites(s: seq<Write>): nat {
    if s == [] then 0 else ServerWrites(s[..|s| - 1]) + if s[|s| - 1].writer.ForServerCert? then 1 else 0
  }

  ghost function HoldersIn(certificates: map<nat, InternalCert.Proc>): set<nat> {
    set id | id in certificates && Holding(certificates[id])
  }

  ghost function Holders(w: World): set<nat> {
    HoldersIn(w.certificates)
  }

  function One(b: bool): nat {
    if b then 1 else 0
  }

  // Whether an invocation holds a certificate is what it contributes.
  lemma HoldersChange(ps: map<nat, InternalCert.Proc>, id: nat, p: InternalCert.Proc)
    requires id in ps
    ensures |HoldersIn(ps[id := p])| + One(Holding(ps[id])) == |HoldersIn(ps)| + One(Holding(p))
  {
    var rest := HoldersIn(ps) - {id};
    assert HoldersIn(ps) == rest + (if Holding(ps[id]) then {id} else {});
    assert HoldersIn(ps[id := p]) == rest + (if Holding(p) then {id} else {});
  }

  lemma HoldersStart(ps: map<nat, InternalCert.Proc>, id: nat, p: InternalCert.Proc)
    requires id !in ps && !Holding(p)
    ensures HoldersIn(ps[id := p]) == HoldersIn(ps)
  {
  }

  lemma HoldersCrash(ps: map<nat, InternalCert.Proc>, id: nat)
    ensures |HoldersIn(ps - {id})| + One(id in ps && Holding(ps[id])) == |HoldersIn(ps)|
  {
    assert HoldersIn(ps - {id}) == HoldersIn(ps) - {id};
  }

  ghost predicate Balanced(w: World) {
    FromInterm(w.store.issued) == ServerWrites(w.store.writes) + w.refused + w.lost + w.stopped + |Holders(w)|
  }

  // What a step may add to the two ledgers.
  ghost predicate Adds(st: Store, st': Store, leaf: nat, write: nat) {
    && FromInterm(st'.issued) == FromInterm(st.issued) + leaf
    && ServerWrites(st'.writes) == ServerWrites(st.writes) + write
  }

  lemma PutAdds(st: Store, at: Name, s: Secret)
    ensures Adds(st, Put(st, at, s), 0, if s.writer.ForServerCert? then 1 else 0)
  {
    assert (st.writes + [Write(at, s.data, s.writer)])[..|st.writes|] == st.writes;
  }

  lemma ClientCAAddsNothing(id: nat, p: ClientCA.Proc, st: Store, f: Fault, st': Store)
    requires st' == ClientCA.Step(id, p, st, f).1
    ensures Adds(st, st', 0, 0)
  {
    if p.At? {
      if p.pc in {ClientCA.CreateNew, ClientCA.UpdateOld, ClientCA.CreateMissing} {
        ClientCA.StoreStepEffect(p, st, f, st');
        assert st' != st ==> st'.writes[..|st.writes|] == st.writes;
      } else {
        ClientCA.VaultStepEffect(id, p, st, f, st');
      }
    }
  }

  lemma GoroutineAddsNothing(j: PkiJob.Job, st: Store, f: Fault, st': Store)
    requires PkiJob.PersisterInv(j, st) && st' == PkiJob.PersisterStep(j, st, f).1
    ensures Adds(st, st', 0, 0)
  {
    PkiJob.PersisterEffect(j, st, f, st');
    assert st' != st ==> st'.writes[..|st.writes|] == st.writes;
  }

  lemma CertificateAdds(p: InternalCert.Proc, st: Store, f: Fault, p': InternalCert.Proc, st': Store)
    requires InternalCert.ProcInv(p, st) && (p', st') == InternalCert.Step(p, st, f)
    ensures Adds(st, st',
      if p.At? && p.pc.IssueServer? && st'.issued != st.issued then 1 else 0,
      if Holding(p) && st'.writes != st.writes then 1 else 0)
    ensures Holding(p') ==> p.At? && p.pc.IssueServer? && st'.issued != st.issued
    ensures Holding(p) ==> !Holding(p')
  {
    if p.At? {
      if p.pc in {InternalCert.IssueClient, InternalCert.IssueServer} {
        InternalCert.IssueEffect(p, st, f, p', st');
        assert st'.issued != st.issued ==> st'.issued[..|st.issued|] == st.issued;
      } else if p.answer.Some? {
        InternalCert.WriteEffect(p, p.answer.value, st, f, p', st');
        assert st' != st ==> st'.writes[..|st.writes|] == st.writes;
      }
    }
  }

  // One certificate more in the ledger is one more held or lost, and one fewer held is one more
  // stored or refused.
  lemma CertificateStepBalances(w: World, id: nat, f: Fault)
    requires Inv(w) && Balanced(w) && id in w.certificates
    ensures Balanced(CertificateStep(w, id, f))
  {
    assert ConcernInv(CertificateProc(id), w);
    var w' := CertificateStep(w, id, f);
    CertificateAdds(w.certificates[id], w.store, f, w'.certificates[id], w'.store);
    HoldersChange(w.certificates, id, w'.certificates[id]);
    Weighed(w, w', id);
  }

  lemma Weighed(w: World, w': World, id: nat)
    requires Balanced(w) && id in w.certificates && id in w'.certificates
    requires var p, p' := w.certificates[id], w'.certificates[id];
      && Adds(w.store, w'.store, One(p.At? && p.pc.IssueServer? && w'.store.issued != w.store.issued),
           One(Holding(p) && w'.store.writes != w.store.writes))
      && w'.refused == w.refused + One(Holding(p) && w'.store.writes == w.store.writes)
      && w'.lost == w.lost + One(p.At? && p.pc.IssueServer? && w'.store.issued != w.store.issued && !Holding(p'))
      && w'.stopped == w.stopped
      && (Holding(p') ==> p.At? && p.pc.IssueServer? && w'.store.issued != w.store.issued)
      && |Holders(w')| + One(Holding(p)) == |Holders(w)| + One(Holding(p'))
    ensures Balanced(w')
  {
  }

  // Events that concern no certificate invocation add nothing to the ledgers.
  predicate ConcernsOthers(e: Event) {
    !e.StartCertificate? && !e.StepCertificate? && !e.CrashCertificate? && !e.CachedCertificate?
  }

  lemma ElsewhereAddsNothing(w: World, e: Event)
    requires Inv(w) && ConcernsOthers(e)
    ensures Adds(w.store, Next(w, e).store, 0, 0)
  {
    var st' := Next(w, e).store;
    if e.StepClientCA? && e.id in w.clientCAs {
      ClientCAAddsNothing(e.id, w.clientCAs[e.id], w.store, e.f, st');
    } else if e.StepMain? && w.job.Some? {
      PkiJob.MainStepEffect(w.job.value, w.store, e.f, st');
    } else if e.StepGoroutine? && w.job.Some? {
      assert ConcernInv(TheJob, w);
      PkiJob.Concerns(w.job.value, w.store);
      GoroutineAddsNothing(w.job.value, w.store, e.f, st');
    } else if e.User? && e.edit.PutSecret? {
      PutAdds(w.store, e.edit.name, st'.secrets[e.edit.name]);
    }
  }

  lemma ElsewhereLeavesCertificates(w: World, e: Event)
    requires ConcernsOthers(e)
    ensures var w' := Next(w, e);
      w'.certificates == w.certificates && (w'.refused, w'.lost, w'.stopped) == (w.refused, w.lost, w.stopped)
  {
  }

  lemma ControlBalances(w: World, e: Event)
    requires Inv(w) && Balanced(w) && (e.StartCertificate? || e.CrashCertificate? || e.CachedCertificate?)
    ensures Balanced(Next(w, e))
  {
    if e.StartCertificate? {
      assert ConcernInv(CertificateProc(w.nextId), w);
      HoldersStart(w.certificates, w.nextId, InternalCert.Load(e.req));
    } else if e.CrashCertificate? {
      HoldersCrash(w.certificates, e.id);
    } else if Next(w, e) != w {
      HoldersChange(w.certificates, e.id, Next(w, e).certificates[e.id]);
    }
  }

  lemma NextBalances(w: World, e: Event)
    requires Inv(w) && Balanced(w)
    ensures Balanced(Next(w, e))
  {
    if e.StepCertificate? {
      if e.id in w.certificates { CertificateStepBalances(w, e.id, e.f); }
    } else if ConcernsOthers(e) {
      ElsewhereAddsNothing(w, e);
      ElsewhereLeavesCertificates(w, e);
      assert Holders(Next(w, e)) == Holders(w);
    } else {
      ControlBalances(w, e);
    }
  }

  lemma {:induction false} RunBalances(w: World, es: seq<Event>)
    requires Inv(w) && Balanced(w)
    ensures Balanced(Run(w, es))
    decreases |es|
  {
    if es == [] {
    } else {
      NextKeeps(w, es[0]);
      NextBalances(w, es[0]);
      RunBalances(Next(w, es[0]), es[1..]);
    }
  }

  // Every certificate the intermediate engine ever issued was stored by a successful Create, or its
  // Create failed, or Vault's answer was lost, or the invocation stopped while it held it, or an
  // invocation holds it now.
  lemma ServerCertificatesAreAccountedFor(w: World, es: seq<Event>)
    requires Init(w)
    ensures var now := Run(w, es);
      FromInterm(now.store.issued) ==
        ServerWrites(now.store.writes) + now.refused + now.lost + now.stopped + |Holders(now)|
  {
    InitInv(w);
    assert Holders(w) == {};
    RunBalances(w, es);
  }

  // --- The published root ---

  predicate HoldsData(secrets: map<Name, Secret>, at: Name, d: Data) {
    at in secrets && secrets[at].data == d
  }

  // Whenever the goroutine writes, it writes the generated root under "ca.pem", and every other key
  // of the secret is what it was at that moment.
  lemma PublishingKeepsOtherKeys(w: World, es: seq<Event>, f: Fault)
    requires Init(w)
    ensures var now, after := Reached(w, es), Next(Run(w, es), StepGoroutine(f)).store;
      var at := Name(now.home, "sip-root-ca");
      after.secrets != now.secrets ==>
        && RootMount in now.mounts && now.mounts[RootMount].issuer.Some?
        && HoldsData(after.secrets, at, (if at in now.secrets then now.secrets[at].data else map[])
             ["ca.pem" := [CertBlock(now.mounts[RootMount].issuer.value)]])
        && after.secrets - {at} == now.secrets - {at}
  {
    ReachedSides(w, es);
    var now := Run(w, es);
    assert ConcernInv(TheJob, now);
    if now.job.Some? {
      PkiJob.Concerns(now.job.value, now.store);
      var after := Next(now, StepGoroutine(f)).store;
      if after.secrets != now.store.secrets {
        PkiJob.PersisterWritesRoot(now.job.value, now.store, f, after);
      }
    }
  }

  // No step of the job, whatever happens to it, changes another secret.
  lemma JobTouchesRootSecretAlone(w: World, es: seq<Event>, e: Event, n: Name)
    requires Init(w) && (e.StepMain? || e.StepGoroutine?)
    requires n != Name(Reached(w, es).home, "sip-root-ca")
    ensures var now, after := Reached(w, es), Next(Run(w, es), e).store;
      (n in after.secrets <==> n in now.secrets) && (n in now.secrets ==> after.secrets[n] == now.secrets[n])
  {
    var now := Run(w, es);
    if now.job.Some? && e.StepMain? {
      PkiJob.MainStepEffect(now.job.value, now.store, e.f, Next(now, e).store);
    } else if now.job.Some? {
      ReachedSides(w, es);
      assert ConcernInv(TheJob, now);
      PkiJob.Concerns(now.job.value, now.store);
      PkiJob.PersisterEffect(now.job.value, now.store, e.f, Next(now, e).store);
    }
  }

  // As far as the secret has only ever been written by the job, it holds one key.
  ghost predicate RootAlone(st: Store, at: Name) {
    (forall k :: 0 <= k < |st.writes| && st.writes[k].at == at ==> st.writes[k].writer.ForRootCA?) ==>
      (at in st.secrets ==> st.secrets[at].data.Keys == {"ca.pem"})
  }

  // A write is of somebody else's, or to another secret, or of the root alone.
  ghost predicate WritesAlone(st: Store, st': Store, at: Name, x: Write) {
    && st'.writes == st.writes + [x]
    && (x.at == at ==> !x.writer.ForRootCA? || (at in st'.secrets && (RootOnly(st, at) ==> RootOnly(st', at))))
    && (x.at != at && at in st'.secrets ==> at in st.secrets && st'.secrets[at].data == st.secrets[at].data)
  }

  predicate RootOnly(st: Store, at: Name) {
    at in st.secrets ==> st.secrets[at].data.Keys == {"ca.pem"}
  }

  lemma AloneAfter(st: Store, st': Store, at: Name, x: Write)
    requires RootAlone(st, at) && WritesAlone(st, st', at, x)
    ensures RootAlone(st', at)
  {
    assert st'.writes[|st.writes|] == x;
    assert forall k :: 0 <= k < |st.writes| ==> st'.writes[k] == st.writes[k];
  }

  lemma ClientCAAlone(id: nat, p: ClientCA.Proc, st: Store, f: Fault, st': Store, at: Name)
    requires RootAlone(st, at) && st' == ClientCA.Step(id, p, st, f).1
    ensures RootAlone(st', at)
  {
    if p.At? {
      if p.pc in {ClientCA.CreateNew, ClientCA.UpdateOld, ClientCA.CreateMissing} {
        ClientCA.StoreStepEffect(p, st, f, st');
        if st' != st {
          AloneAfter(st, st', at, st'.writes[|st.writes|]);
        }
      } else {
        ClientCA.VaultStepEffect(id, p, st, f, st');
      }
    }
  }

  lemma CertificateAlone(p: InternalCert.Proc, st: Store, f: Fault, st': Store, at: Name)
    requires RootAlone(st, at) && InternalCert.ProcInv(p, st) && st' == InternalCert.Step(p, st, f).1
    ensures RootAlone(st', at)
  {
    if p.At? {
      var p' := InternalCert.Step(p, st, f).0;
      if p.pc in {InternalCert.IssueClient, InternalCert.IssueServer} {
        InternalCert.IssueEffect(p, st, f, p', st');
      } else if p.answer.Some? {
        InternalCert.WriteEffect(p, p.answer.value, st, f, p', st');
        if st' != st {
          AloneAfter(st, st', at, st'.writes[|st.writes|]);
        }
      }
    }
  }

  lemma GoroutineAlone(j: PkiJob.Job, st: Store, f: Fault, st': Store, at: Name)
    requires RootAlone(st, at) && PkiJob.PersisterInv(j, st) && st' == PkiJob.PersisterStep(j, st, f).1
    ensures RootAlone(st', at)
  {
    PkiJob.PersisterEffect(j, st, f, st');
    if st' != st {
      AloneAfter(st, st', at, st'.writes[|st.writes|]);
    }
  }

  lemma NextAlone(w: World, e: Event, at: Name)
    requires Inv(w) && RootAlone(w.store, at)
    ensures RootAlone(Next(w, e).store, at)
  {
    var st' := Next(w, e).store;
    if e.StepClientCA? && e.id in w.clientCAs {
      ClientCAAlone(e.id, w.clientCAs[e.id], w.store, e.f, st', at);
    } else if e.StepCertificate? && e.id in w.certificates {
      assert ConcernInv(CertificateProc(e.id), w);
      CertificateAlone(w.certificates[e.id], w.store, e.f, st', at);
    } else if e.StepMain? && w.job.Some? {
      PkiJob.MainStepEffect(w.job.value, w.store, e.f, st');
    } else if e.StepGoroutine? && w.job.Some? {
      assert ConcernInv(TheJob, w);
      PkiJob.Concerns(w.job.value, w.store);
      GoroutineAlone(w.job.value, w.store, e.f, st', at);
    } else if e.User? && e.edit.PutSecret? {
      AloneAfter(w.store, st', at, Write(e.edit.name, e.edit.data, Outside));
    }
  }

  lemma {:induction false} RunAlone(w: World, es: seq<Event>, at: Name)
    requires Inv(w) && RootAlone(w.store, at)
    ensures RootAlone(Reached(w, es), at)
    decreases |es|
  {
    if es == [] {
    } else {
      NextKeeps(w, es[0]);
      NextAlone(w, es[0], at);
      RunAlone(Next(w, es[0]), es[1..], at);
    }
  }

  // A secret of that name that was not there at first and that nobody but the job ever wrote holds
  // exactly the one root, over all runs of the job and everything else that goes on.
  lemma PublishedRootIsExact(w: World, es: seq<Event>, at: Name)
    requires Init(w) && at !in w.store.secrets && at in Reached(w, es).secrets
    requires Reached(w, es).secrets[at].writer.ForRootCA?
    requires forall k :: 0 <= k < |Reached(w, es).writes| && Reached(w, es).writes[k].at == at ==>
      Reached(w, es).writes[k].writer.ForRootCA?
    ensures var st := Reached(w, es);
      && RootMount in st.mounts && st.mounts[RootMount].issuer.Some?
      && st.secrets[at].data == map["ca.pem" := [CertBlock(st.mounts[RootMount].issuer.value)]]
  {
    InitInv(w);
    RunAlone(w, es, at);
    ReachedSides(w, es);
    var st := Reached(w, es);
    assert WriteInv(st.secrets[at].data, st.secrets[at].writer, st);
  }

  // --- A root that was never published ---

  // The root engine is there, and no run is about to generate or publish a root.
  predicate PastPublishing(w: World) {
    && RootMount in w.store.mounts
    && (w.job.Some? ==> w.job.value.persister.NotStarted? && !PkiJob.OnRoot(w.job.value.main))
  }

  predicate NoRootSince(n: nat, st: Store) {
    n <= |st.writes| && forall k :: n <= k < |st.writes| ==> !st.writes[k].writer.ForRootCA?
  }

  lemma AppendsNoRoot(n: nat, st: Store, st': Store, x: Write)
    requires NoRootSince(n, st) && st'.writes == st.writes + [x] && !x.writer.ForRootCA?
    ensures NoRootSince(n, st')
  {
  }

  lemma ReconcilersPublishNoRoot(w: World, e: Event, n: nat)
    requires Inv(w) && NoRootSince(n, w.store) && (e.StepClientCA? || e.StepCertificate?)
    ensures NoRootSince(n, Next(w, e).store)
  {
    var st, st' := w.store, Next(w, e).store;
    if e.StepClientCA? && e.id in w.clientCAs && w.clientCAs[e.id].At? {
      var p := w.clientCAs[e.id];
      if p.pc in {ClientCA.CreateNew, ClientCA.UpdateOld, ClientCA.CreateMissing} {
        ClientCA.StoreStepEffect(p, st, e.f, st');
        if st' != st { AppendsNoRoot(n, st, st', st'.writes[|st.writes|]); }
      } else {
        ClientCA.VaultStepEffect(e.id, p, st, e.f, st');
      }
    } else if e.StepCertificate? && e.id in w.certificates && w.certificates[e.id].At? {
      assert ConcernInv(CertificateProc(e.id), w);
      var p := w.certificates[e.id];
      var p' := InternalCert.Step(p, st, e.f).0;
      if p.pc in {InternalCert.IssueClient, InternalCert.IssueServer} {
        InternalCert.IssueEffect(p, st, e.f, p', st');
      } else if p.answer.Some? {
        InternalCert.WriteEffect(p, p.answer.value, st, e.f, p', st');
        if st' != st { AppendsNoRoot(n, st, st', st'.writes[|st.writes|]); }
      }
    }
  }

  lemma NextPublishesNoRoot(w: World, e: Event, n: nat)
    requires Inv(w) && PastPublishing(w) && NoRootSince(n, w.store)
    ensures NoRootSince(n, Next(w, e).store)
  {
    if e.StepClientCA? || e.StepCertificate? {
      ReconcilersPublishNoRoot(w, e, n);
    } else if e.StepMain? && w.job.Some? {
      PkiJob.MainStepEffect(w.job.value, w.store, e.f, Next(w, e).store);
    } else if e.User? && e.edit.PutSecret? {
      AppendsNoRoot(n, w.store, Next(w, e).store, Write(e.edit.name, e.edit.data, Outside));
    }
  }

  lemma NextStaysPastPublishing(w: World, e: Event)
    requires Inv(w) && PastPublishing(w)
    ensures PastPublishing(Next(w, e))
  {
    NextKeeps(w, e);
    if e.StepMain? && w.job.Some? && !w.job.value.main.ListMounts? && !w.job.value.main.Exit? {
      PkiJob.IntermStepStays(w.job.value, w.store, e.f);
    }
  }

  // A run that ended before its goroutine's call leaves a root that no later run ever publishes:
  // from then on the job writes no root certificate at all.
  lemma {:induction false} UnpublishedForever(w: World, es: seq<Event>, n: nat)
    requires Inv(w) && PastPublishing(w) && NoRootSince(n, w.store)
    ensures NoRootSince(n, Reached(w, es))
    decreases |es|
  {
    if es == [] {
    } else {
      NextKeeps(w, es[0]);
      NextPublishesNoRoot(w, es[0], n);
      NextStaysPastPublishing(w, es[0]);
      UnpublishedForever(Next(w, es[0]), es[1..], n);
    }
  }

  // --- The shared error variable ---

  // The goroutine's own call clears `err` after the call that sets the root engine's URLs was lost
  // and before the main flow looks at its error.
  predicate Races(w: World, e: Event) {
    && e.StepGoroutine? && w.job.Some? && w.job.value.main.UrlsRootTest? && w.job.value.urlsLost
    && var j := Next(w, e).job; j.Some? && j.value.err.Nil?
  }

  predicate RaceFree(w: World, es: seq<Event>)
    decreases |es|
  {
    es == [] || (!Races(w, es[0]) && RaceFree(Next(w, es[0]), es[1..]))
  }

  ghost predicate Unmasked(w: World) {
    && !w.store.masked
    && (w.job.Some? && w.job.value.main.UrlsRootTest? && w.job.value.urlsLost ==> !w.job.value.err.Nil?)
  }

  // The main flow passes the test of its error after that call was lost.
  predicate Masks(w: World, e: Event) {
    && e.StepMain? && w.job.Some?
    && w.job.value.main.UrlsRootTest? && w.job.value.urlsLost && w.job.value.err.Nil?
  }

  predicate MasksAlong(w: World, es: seq<Event>)
    decreases |es|
  {
    es != [] && (Masks(w, es[0]) || MasksAlong(Next(w, es[0]), es[1..]))
  }

  lemma ReconcilersMaskNothing(w: World, e: Event)
    requires Inv(w) && (e.StepClientCA? || e.StepCertificate?)
    ensures Next(w, e).store.masked == w.store.masked
  {
    if e.StepClientCA? && e.id in w.clientCAs {
      ClientCAStepKeeps(w, e.id, e.f);
      assert PartAllowed(Ledgers, w.store, Next(w, e).store, Reconcile(e.id));
    } else if e.StepCertificate? && e.id in w.certificates {
      CertificateStepKeeps(w, e.id, e.f);
      assert PartAllowed(Ledgers, w.store, Next(w, e).store, Bystander);
    }
  }

  lemma JobStepsMask(w: World, e: Event)
    requires e.StepMain? || e.StepGoroutine?
    ensures Next(w, e).store.masked <==> w.store.masked || Masks(w, e)
  {
    if w.job.None? {
    } else if e.StepMain? {
      PkiJob.MainStepMasks(w.job.value, w.store, e.f, Next(w, e).job, Next(w, e).store);
    } else {
      PkiJob.PersisterStepFrame(w.job.value, w.store, e.f, Next(w, e).job, Next(w, e).store);
    }
  }

  lemma NextMasks(w: World, e: Event)
    requires Inv(w)
    ensures Next(w, e).store.masked <==> w.store.masked || Masks(w, e)
  {
    if e.StepClientCA? || e.StepCertificate? {
      ReconcilersMaskNothing(w, e);
    } else if e.StepMain? || e.StepGoroutine? {
      JobStepsMask(w, e);
    }
  }

  lemma {:induction false} RunMasks(w: World, es: seq<Event>)
    requires Inv(w)
    ensures Run(w, es).store.masked <==> w.store.masked || MasksAlong(w, es)
    decreases |es|
  {
    if es == [] {
    } else {
      NextMasks(w, es[0]);
      NextKeeps(w, es[0]);
      RunMasks(Next(w, es[0]), es[1..]);
    }
  }

  // The root engine's calls follow the script exactly when at no event of the history the main flow
  // took a lost URL configuration for a success, or the role has not been written after it.
  lemma RootEngineIsInOrderIff(w: World, es: seq<Event>)
    requires Init(w) && RootMount in Reached(w, es).mounts
    ensures var log := Reached(w, es).mounts[RootMount].log;
      && AtMostOnce(log, Root)
      && (Stages(log) <= ROOT_SCRIPT <==> !(MasksAlong(w, es) && |log| == 4))
      && (Stages(log) <= ROOT_SCRIPT || Stages(log) == ROOT_GAP_SCRIPT)
  {
    InitInv(w);
    RunMasks(w, es);
    RootEngineIsInOrderUnlessMasked(w, es);
  }

  lemma NextStaysUnmasked(w: World, e: Event)
    requires Inv(w) && Unmasked(w) && !Races(w, e)
    ensures Unmasked(Next(w, e))
  {
    var w' := Next(w, e);
    NextMasks(w, e);
    if e.StepMain? && w.job.Some? {
      PkiJob.MainStepMasks(w.job.value, w.store, e.f, w'.job, w'.store);
    } else if e.StepGoroutine? && w.job.Some? {
      PkiJob.PersisterStepFrame(w.job.value, w.store, e.f, w'.job, w'.store);
    }
  }

  lemma {:induction false} RaceFreeRunsStayUnmasked(w: World, es: seq<Event>)
    requires Inv(w) && Unmasked(w) && RaceFree(w, es)
    ensures Unmasked(Run(w, es))
    decreases |es|
  {
    if es == [] {
    } else {
      NextKeeps(w, es[0]);
      NextStaysUnmasked(w, es[0]);
      RaceFreeRunsStayUnmasked(Next(w, es[0]), es[1..]);
    }
  }

  // As long as the goroutine does not clear a pending error, the root engine is provisioned in order.
  lemma RaceFreeRunsProvisionRootInOrder(w: World, es: seq<Event>)
    requires Init(w) && RaceFree(w, es) && RootMount in Reached(w, es).mounts
    ensures Stages(Reached(w, es).mounts[RootMount].log) <= ROOT_SCRIPT
  {
    InitInv(w);
    RaceFreeRunsStayUnmasked(w, es);
    RootEngineIsInOrderUnlessMasked(w, es);
  }
}
