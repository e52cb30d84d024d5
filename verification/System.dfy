/** The composed system: any number of reconcile invocations of both controllers and runs of the
    PKI job, interleaved call by call, with faults, crashes and users editing resources. */
module System {
  import opened Options
  import opened Pki
  import opened MountNames
  import opened Faults
  import opened Environment
  import opened Invariants
  import Admission
  import ClientCA
  import InternalCert
  import PkiJob

  // `refused`, `lost` and `stopped` count what became of server certificates that were issued and
  // never stored: the Create failed, Vault's answer was lost, or the invocation stopped in between.
  // `seen` holds the stores that client caches have taken in; the controllers' reads of Kubernetes
  // answer from the present store or from any of these.
  datatype World = World(
    store: Store,
    seen: seq<Store>,
    clientCAs: map<nat, ClientCA.Proc>,
    certificates: map<nat, InternalCert.Proc>,
    job: Option<PkiJob.Job>,
    nextId: nat,
    nextRun: nat,
    refused: nat,
    lost: nat,
    stopped: nat)

  datatype Event =
    | StartClientCA(req: Name) | StepClientCA(id: nat, f: Fault) | CrashClientCA(id: nat)
    | StartCertificate(req: Name) | StepCertificate(id: nat, f: Fault) | CrashCertificate(id: nat)
    | Sync | CachedClientCA(id: nat, f: Fault, k: nat) | CachedCertificate(id: nat, f: Fault, k: nat)
    | StartJob | StepMain(f: Fault) | StepGoroutine(f: Fault) | KillJob
    | User(edit: Edit)

  datatype Edit =
    | PutClientCA(name: Name, ca: CAResource) | DeleteClientCA(name: Name)
    | PutCertificate(name: Name, cert: CertResource) | DeleteCertificate(name: Name)
    | PutSecret(name: Name, data: Data) | DeleteSecret(name: Name)

  // An event that is not enabled changes nothing. At most one run of the job is alive.
  function Next(w: World, e: Event): World {
    match e
    case StartClientCA(req) =>
      w.(clientCAs := w.clientCAs[w.nextId := ClientCA.Load(req)], nextId := w.nextId + 1)
    case StepClientCA(id, f) =>
      if id !in w.clientCAs then w
      else
        var (p, st) := ClientCA.Step(id, w.clientCAs[id], w.store, f);
        w.(store := st, clientCAs := w.clientCAs[id := p])
    case CrashClientCA(id) => w.(clientCAs := w.clientCAs - {id})
    case StartCertificate(req) =>
      w.(certificates := w.certificates[w.nextId := InternalCert.Load(req)], nextId := w.nextId + 1)
    case StepCertificate(id, f) => if id !in w.certificates then w else CertificateStep(w, id, f)
    case CrashCertificate(id) =>
      w.(certificates := w.certificates - {id},
         stopped := w.stopped + if id in w.certificates && Holding(w.certificates[id]) then 1 else 0)
    case Sync => w.(seen := w.seen + [w.store])
    case CachedClientCA(id, f, k) =>
      if id !in w.clientCAs || !w.clientCAs[id].Load? || k >= |w.seen| then w
      else w.(clientCAs := w.clientCAs[id := ClientCA.Step(id, w.clientCAs[id], w.seen[k], f).0])
    case CachedCertificate(id, f, k) =>
      if id !in w.certificates || !InternalCert.Reads(w.certificates[id]) || k >= |w.seen| then w
      else w.(certificates := w.certificates[id := InternalCert.Step(w.certificates[id], w.seen[k], f).0])
    case StartJob =>
      if w.job.Some? then w else w.(job := Some(PkiJob.Start(w.nextRun)), nextRun := w.nextRun + 1)
    case StepMain(f) =>
      if w.job.None? then w
      else
        var (j, st) := PkiJob.MainStep(w.job.value, w.store, f);
        w.(store := st, job := j)
    case StepGoroutine(f) =>
      if w.job.None? then w
      else
        var (j, st) := PkiJob.PersisterStep(w.job.value, w.store, f);
        w.(store := st, job := j)
    case KillJob => w.(job := None)
    case User(edit) => w.(store := UserEdit(w.store, edit))
  }

  // A server certificate has been issued and not been offered to the cluster yet.
  predicate Holding(p: InternalCert.Proc) {
    p.At? && p.pc.CreateServer?
  }

  function CertificateStep(w: World, id: nat, f: Fault): World
    requires id in w.certificates
  {
    var p := w.certificates[id];
    var (p', st) := InternalCert.Step(p, w.store, f);
    w.(store := st, certificates := w.certificates[id := p'],
       refused := w.refused + (if Holding(p) && st.writes == w.store.writes then 1 else 0),
       lost := w.lost + (if p.At? && p.pc.IssueServer? && st.issued != w.store.issued && !Holding(p') then 1 else 0))
  }

  function UserEdit(st: Store, e: Edit): Store {
    match e
    case PutClientCA(name, ca) => st.(cas := st.cas[name := ca])
    case DeleteClientCA(name) => st.(cas := st.cas - {name})
    case PutCertificate(name, cert) => st.(certs := Admission.Submit(st.certs, name, cert))
    case DeleteCertificate(name) => st.(certs := st.certs - {name})
    case PutSecret(name, data) =>
      var created := if name in st.secrets then st.secrets[name].created else st.clock;
      Put(st, name, Secret(data, Nobody, st.clock, created, Outside))
    case DeleteSecret(name) => st.(secrets := st.secrets - {name})
  }

  function Run(w: World, es: seq<Event>): World
    decreases |es|
  {
    if es == [] then w else Run(Next(w, es[0]), es[1..])
  }

  // At the start no program has run; engines and secrets of others may be there.
  ghost predicate Init(w: World) {
    && w.clientCAs == map[] && w.certificates == map[] && w.job.None? && w.seen == []
    && w.nextId == w.nextRun == w.refused == w.lost == w.stopped == 0
    && w.store.issued == [] && w.store.signed == [] && w.store.writes == [] && !w.store.masked
    && (forall p :: p in w.store.mounts ==> p.Elsewhere? && Canonical(p))
    && (forall n :: n in w.store.secrets ==>
      && w.store.secrets[n].writer.Outside?
      && w.store.secrets[n].created <= w.store.secrets[n].version < w.store.clock)
    && AllAdmitted(w.store)
  }

  datatype Concern = TheStore | ClientCAProc(id: nat) | CertificateProc(id: nat) | TheJob | TheCaches

  ghost predicate ConcernInv(c: Concern, w: World) {
    match c
    case TheStore => StoreInv(w.store)
    case ClientCAProc(id) =>
      id in w.clientCAs ==> id < w.nextId && ClientCA.ProcInv(id, w.clientCAs[id], w.store)
    case CertificateProc(id) =>
      id in w.certificates ==> id < w.nextId && InternalCert.ProcInv(w.certificates[id], w.store)
    case TheJob => w.job.Some? ==> PkiJob.JobInv(w.job.value, w.store)
    case TheCaches => forall k :: 0 <= k < |w.seen| ==> InternalCert.Earlier(w.seen[k], w.store)
  }

  ghost predicate Inv(w: World) {
    forall c :: ConcernInv(c, w)
  }

  lemma InitInv(w: World)
    requires Init(w)
    ensures Inv(w)
  {
    forall side ensures Holds(side, w.store) {
      match side
      case Engines =>
      case Leaves =>
      case Secrets =>
      case Resources =>
    }
  }

  // Everybody but the actor of a step keeps its invariant through the step.
  lemma OthersKeep(w: World, w': World, a: Actor, c: Concern)
    requires Inv(w) && StoreInv(w'.store) && Allowed(w.store, w'.store, a) && w'.nextId == w.nextId
    requires match c
      case TheStore => true
      case ClientCAProc(id) =>
        a != Reconcile(id) &&
        (id in w'.clientCAs ==> id in w.clientCAs && w'.clientCAs[id] == w.clientCAs[id])
      case CertificateProc(id) =>
        id in w'.certificates ==> id in w.certificates && w'.certificates[id] == w.certificates[id]
      case TheJob => !a.JobRun? && (w'.job.Some? ==> w'.job == w.job)
      case TheCaches => w'.seen == w.seen
    ensures ConcernInv(c, w')
  {
    assert ConcernInv(c, w);
    match c
    case TheStore =>
    case ClientCAProc(id) =>
      if id in w'.clientCAs {
        ClientCA.ProcInvStable(id, w.clientCAs[id], w.store, w'.store, a);
      }
    case CertificateProc(id) =>
      if id in w'.certificates {
        InternalCert.ProcInvStable(w.certificates[id], w.store, w'.store, a);
      }
    case TheJob =>
      Sides(w'.store);
      if w'.job.Some? {
        PkiJob.JobInvStable(w.job.value, w.store, w'.store, a);
      }
    case TheCaches =>
      forall k | 0 <= k < |w.seen| ensures InternalCert.Earlier(w'.seen[k], w'.store) {
        InternalCert.EarlierStable(w.seen[k], w.store, w'.store, a);
      }
  }

  lemma ClientCAStepKeeps(w: World, id: nat, f: Fault)
    requires Inv(w) && id in w.clientCAs
    ensures Inv(Next(w, StepClientCA(id, f)))
    ensures Allowed(w.store, Next(w, StepClientCA(id, f)).store, Reconcile(id))
  {
    var w' := Next(w, StepClientCA(id, f));
    assert ConcernInv(TheStore, w) && ConcernInv(ClientCAProc(id), w);
    ClientCA.StepKeeps(id, w.clientCAs[id], w.store, f, w'.clientCAs[id], w'.store);
    forall c ensures ConcernInv(c, w') {
      if c != ClientCAProc(id) {
        OthersKeep(w, w', Reconcile(id), c);
      }
    }
  }

  lemma CertificateStepKeeps(w: World, id: nat, f: Fault)
    requires Inv(w) && id in w.certificates
    ensures Inv(CertificateStep(w, id, f))
    ensures Allowed(w.store, CertificateStep(w, id, f).store, Bystander)
  {
    var w' := CertificateStep(w, id, f);
    assert ConcernInv(TheStore, w) && ConcernInv(CertificateProc(id), w);
    InternalCert.StepKeeps(w.certificates[id], w.store, f, w'.certificates[id], w'.store, Bystander);
    forall c ensures ConcernInv(c, w') {
      if c != CertificateProc(id) {
        OthersKeep(w, w', Bystander, c);
      }
    }
  }

  lemma JobStepKeeps(w: World, f: Fault, w': World, a: Actor)
    requires Inv(w) && w.job.Some? && a == JobRun(w.job.value.run)
    requires w' == Next(w, StepMain(f)) || w' == Next(w, StepGoroutine(f))
    ensures Inv(w') && Allowed(w.store, w'.store, a)
  {
    assert ConcernInv(TheStore, w) && ConcernInv(TheJob, w);
    if w' == Next(w, StepMain(f)) {
      PkiJob.MainStepKeeps(w.job.value, w.store, f, w'.job, w'.store);
    } else {
      PkiJob.PersisterStepKeeps(w.job.value, w.store, f, w'.job, w'.store, a);
    }
    forall c ensures ConcernInv(c, w') {
      if c != TheJob {
        OthersKeep(w, w', a, c);
      }
    }
  }

  lemma UserEditKeeps(st: Store, e: Edit, st': Store)
    requires StoreInv(st) && st' == UserEdit(st, e)
    ensures StoreInv(st') && Allowed(st, st', Bystander)
  {
    if e.PutSecret? {
      PutKeeps(st, e.name, st'.secrets[e.name], Bystander, st');
    } else {
      Sides(st);
      if e.PutCertificate? {
        Admission.SubmitKeepsOneUsage(st.certs, e.name, e.cert);
      }
      ResourceEditKeeps(st, st');
    }
  }

  lemma ResourceEditKeeps(st: Store, st': Store)
    requires StoreInv(st) && AllAdmitted(st')
    requires st' == st.(cas := st'.cas, certs := st'.certs, secrets := st'.secrets)
    requires forall n :: n in st'.secrets ==> n in st.secrets && st'.secrets[n] == st.secrets[n]
    ensures StoreInv(st') && Allowed(st, st', Bystander)
  {
    Sides(st);
    SameMountsKeep(st, st');
    IssuedInvStable(st, st');
    assert Holds(Secrets, st') by {
      forall data, writer | WriteInv(data, writer, st) ensures WriteInv(data, writer, st') {
        WriteInvStable(data, writer, st, st');
      }
    }
    Assemble(st');
  }

  // Events that only start or stop a program.
  predicate IsControl(e: Event) {
    e.StartClientCA? || e.CrashClientCA? || e.StartCertificate? || e.CrashCertificate? || e.StartJob? || e.KillJob?
  }

  lemma ControlKeeps(w: World, e: Event)
    requires Inv(w) && IsControl(e)
    ensures Inv(Next(w, e)) && Next(w, e).store == w.store
  {
    var w' := Next(w, e);
    forall c ensures ConcernInv(c, w') {
      assert ConcernInv(c, w);
    }
  }

  lemma SyncKeeps(w: World)
    requires Inv(w)
    ensures Inv(Next(w, Sync))
  {
    var w' := Next(w, Sync);
    assert ConcernInv(TheStore, w) && ConcernInv(TheCaches, w);
    Sides(w.store);
    forall c ensures ConcernInv(c, w') {
      assert ConcernInv(c, w);
    }
  }

  lemma CachedReadKeeps(w: World, e: Event)
    requires Inv(w) && (e.CachedClientCA? || e.CachedCertificate?)
    ensures Inv(Next(w, e)) && Next(w, e).store == w.store
  {
    var w' := Next(w, e);
    assert ConcernInv(TheCaches, w);
    if e.CachedCertificate? && w' != w {
      assert ConcernInv(CertificateProc(e.id), w);
      InternalCert.ReadKeeps(w.certificates[e.id], w.seen[e.k], w.store, e.f);
    }
    forall c ensures ConcernInv(c, w') {
      assert ConcernInv(c, w);
    }
  }

  // Every event keeps the invariant and stays within what its actor may do.
  lemma NextKeeps(w: World, e: Event)
    requires Inv(w)
    ensures Inv(Next(w, e)) && Grows(w.store, Next(w, e).store)
  {
    var w' := Next(w, e);
    if e.StepClientCA? {
      if e.id in w.clientCAs {
        ClientCAStepKeeps(w, e.id, e.f);
        AllowedGrows(w.store, w'.store, Reconcile(e.id));
      }
    } else if e.StepCertificate? {
      if e.id in w.certificates {
        CertificateStepKeeps(w, e.id, e.f);
        AllowedGrows(w.store, w'.store, Bystander);
      }
    } else if e.StepMain? || e.StepGoroutine? {
      if w.job.Some? {
        JobStepKeeps(w, e.f, w', JobRun(w.job.value.run));
        AllowedGrows(w.store, w'.store, JobRun(w.job.value.run));
      }
    } else if IsControl(e) {
      ControlKeeps(w, e);
    } else if e.Sync? {
      SyncKeeps(w);
    } else if e.CachedClientCA? || e.CachedCertificate? {
      CachedReadKeeps(w, e);
    } else {
      assert ConcernInv(TheStore, w);
      UserEditKeeps(w.store, e.edit, w'.store);
      AllowedGrows(w.store, w'.store, Bystander);
      forall c ensures ConcernInv(c, w') {
        OthersKeep(w, w', Bystander, c);
      }
    }
  }

  // Whatever happens, in whatever order, the invariant holds, and what was in the logs stays there.
  lemma {:induction false} RunKeeps(w: World, es: seq<Event>)
    requires Inv(w)
    ensures Inv(Run(w, es)) && Grows(w.store, Run(w, es).store)
    decreases |es|
  {
    if es == [] {
    } else {
      NextKeeps(w, es[0]);
      RunKeeps(Next(w, es[0]), es[1..]);
      GrowsTransitive(w.store, Next(w, es[0]).store, Run(w, es).store);
    }
  }
}
