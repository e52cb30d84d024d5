/** Histories of bootstrap jobs: one writer at a time, and more than one. */
module BootstrapRuns {
  import opened Options
  import opened Faults
  import opened Bootstrap

  // --- Histories ---

  // Jobs come and go; each has the key it made, and keys do not come twice.
  datatype World = World(st: Store, jobs: map<nat, Job>, keys: nat)

  // `Edited` is somebody else's change of the secret.
  datatype Event = Start(id: nat) | Call(id: nat, f: Fault) | Crash(id: nat) | Signing | Edited(data: Data)

  function Next(w: World, e: Event): World {
    match e
    case Start(id) => if id in w.jobs then w else World(w.st, w.jobs[id := CreateFirst(w.keys)], w.keys + 1)
    case Call(id, f) =>
      if id !in w.jobs then w
      else
        var (j, st) := Step(w.jobs[id], w.st, f);
        World(st, if j.Done? then w.jobs - {id} else w.jobs[id := j], w.keys)
    case Crash(id) => w.(jobs := w.jobs - {id})
    case Signing => w.(st := Sign(w.st))
    case Edited(data) => w.(st := w.st.(secret := Some(Secret(w.st.clock, data)), clock := w.st.clock + 1))
  }

  function History(w: World, es: seq<Event>): World
    decreases |es|
  {
    if es == [] then w else History(Next(w, es[0]), es[1..])
  }

  // No job is started while another is at work, and nobody else touches the secret.
  predicate OneWriter(w: World, es: seq<Event>)
    decreases |es|
  {
    es == [] || ((es[0].Start? ==> w.jobs == map[]) && !es[0].Edited? && OneWriter(Next(w, es[0]), es[1..]))
  }

  // The one job at work, if any.
  predicate Single(w: World) {
    forall i, j :: i in w.jobs && j in w.jobs ==> i == j
  }

  // What is true of the request while a job is at a step.
  predicate Fits(j: Job, st: Store) {
    match j
    case CreateFirst(_) => true
    case DeleteOld(_) => true
    case CreateAgain(key) => st.csr.None?
    case Get(key) => st.csr.Some? ==> Own(st.csr, key)
    case Approving(key, _) => st.csr.Some? ==> Own(st.csr, key)
    case Collect(key) => st.csr.Some? ==> Own(st.csr, key)
    case Persisting(key, cert) => cert in {Empty, CertFor(key)}
    case Read(key, cert) => cert in {Empty, CertFor(key)}
    case Replace(key, cert, got) => cert in {Empty, CertFor(key)} && Paired(Some(got), key)
    case DeleteDone(_) => true
    case Done(_) => true
  }

  predicate Certified(csr: Option<Csr>) {
    csr.Some? ==> csr.value.certificate in {Empty, CertFor(csr.value.request)}
  }

  lemma StepPairs(j: Job, st: Store, f: Fault)
    requires Fits(j, st) && Certified(st.csr)
    ensures var (j', st') := Step(j, st, f);
      && Fits(j', st') && Certified(st'.csr)
      && (st'.secret == st.secret || Paired(st'.secret, j.key))
  {
  }

  predicate Inv(w: World) {
    && Single(w)
    && Certified(w.st.csr)
    && forall id :: id in w.jobs ==> !w.jobs[id].Done? && Fits(w.jobs[id], w.st)
  }

  lemma NextPairs(w: World, e: Event)
    requires Inv(w) && (e.Start? ==> w.jobs == map[]) && !e.Edited?
    ensures Inv(Next(w, e))
    ensures Next(w, e).st.secret == w.st.secret || exists key :: Paired(Next(w, e).st.secret, key)
  {
    if e.Call? && e.id in w.jobs {
      StepPairs(w.jobs[e.id], w.st, e.f);
    }
  }

  // Over every history with one writer at a time, faults, crashes and a signer as late as it likes,
  // the secret is the one that was there before or holds a key and a certificate of it or none.
  lemma {:induction false} OneWriterStoresPairs(w: World, es: seq<Event>)
    requires Inv(w) && OneWriter(w, es)
    ensures Inv(History(w, es))
    ensures History(w, es).st.secret == w.st.secret || exists key :: Paired(History(w, es).st.secret, key)
    decreases |es|
  {
    if es == [] {
    } else {
      NextPairs(w, es[0]);
      OneWriterStoresPairs(Next(w, es[0]), es[1..]);
    }
  }

  // --- More than one writer ---

  predicate Collected(j: Job) {
    j.Persisting? || j.Read? || j.Replace?
  }

  predicate OwnCert(j: Job)
    requires Collected(j)
  {
    j.cert in {Empty, CertFor(j.key)}
  }

  // What the read added to the old entries is the job's own pair.
  predicate Faithful(w: World) {
    && Certified(w.st.csr)
    && forall id :: id in w.jobs && w.jobs[id].Replace? ==>
      var j := w.jobs[id];
      "vault.crt" in j.got.data && j.got.data["vault.crt"] == j.cert && "vault.key" in j.got.data && j.got.data["vault.key"] == KeyPem(j.key)
  }

  lemma {:induction false} HistoriesAreFaithful(w: World, es: seq<Event>)
    requires Faithful(w)
    ensures Faithful(History(w, es))
    decreases |es|
  {
    if es == [] {
    } else {
      HistoriesAreFaithful(Next(w, es[0]), es[1..]);
    }
  }

  // With any number of jobs, a call that writes the secret leaves a pair there exactly when the
  // certificate its job has collected is none or its own,
  lemma WritesPairIff(w: World, es: seq<Event>, id: nat, f: Fault)
    requires Faithful(w)
    requires var w1 := History(w, es); id in w1.jobs && Next(w1, Call(id, f)).st.secret != w1.st.secret
    ensures var w1 := History(w, es); var j := w1.jobs[id];
      Collected(j) && (Paired(Next(w1, Call(id, f)).st.secret, j.key) <==> OwnCert(j))
  {
    HistoriesAreFaithful(w, es);
  }

  // and that is so exactly when the request it found was its own or not yet signed.
  lemma CollectsOwnIff(w: World, es: seq<Event>, id: nat)
    requires Faithful(w)
    requires var w1 := History(w, es); id in w1.jobs && w1.jobs[id].Collect? && w1.st.csr.Some?
    ensures var w1 := History(w, es); var w2 := Next(w1, Call(id, Fine));
      && id in w2.jobs && Collected(w2.jobs[id])
      && (OwnCert(w2.jobs[id]) <==>
          w1.st.csr.value.request == w1.jobs[id].key || w1.st.csr.value.certificate.Empty?)
  {
    HistoriesAreFaithful(w, es);
  }

  predicate Ours(name: string) {
    name == "vault.crt" || name == "vault.key"
  }

  // The two agree in every entry that is not the job's.
  ghost predicate SameOthers(a: Data, b: Data) {
    forall name :: !Ours(name) ==> (name in a <==> name in b) && (name in a ==> a[name] == b[name])
  }

  // Versions are new with every change, so that a job that still holds the present version holds the
  // present object.
  ghost predicate Holds(j: Job, st: Store) {
    && (j.Replace? ==>
      && j.got.version < st.clock
      && (st.secret.Some? && st.secret.value.version == j.got.version ==> SameOthers(j.got.data, st.secret.value.data)))
    && (j.Approving? ==>
      && j.seen.version < st.clock
      && (st.csr.Some? && st.csr.value.version == j.seen.version ==> st.csr.value == j.seen))
  }

  ghost predicate Versioned(w: World) {
    && (w.st.secret.Some? ==> w.st.secret.value.version < w.st.clock)
    && (w.st.csr.Some? ==> w.st.csr.value.version < w.st.clock)
    && forall id :: id in w.jobs ==> Holds(w.jobs[id], w.st)
  }

  lemma StepHolds(j: Job, st: Store, f: Fault)
    requires Holds(j, st)
    requires (st.secret.Some? ==> st.secret.value.version < st.clock) && (st.csr.Some? ==> st.csr.value.version < st.clock)
    ensures var (j', st') := Step(j, st, f);
      && Holds(j', st') && st.clock <= st'.clock
      && (st'.secret.Some? ==> st'.secret.value.version < st'.clock) && (st'.csr.Some? ==> st'.csr.value.version < st'.clock)
      && (st'.secret == st.secret || (st'.secret.Some? && st'.secret.value.version >= st.clock))
      && (st'.csr == st.csr || st'.csr.None? || st'.csr.value.version >= st.clock)
  {
  }

  lemma NextVersioned(w: World, e: Event)
    requires Versioned(w)
    ensures Versioned(Next(w, e))
  {
    var w' := Next(w, e);
    if e.Call? && e.id in w.jobs {
      StepHolds(w.jobs[e.id], w.st, e.f);
    }
    forall id | id in w'.jobs ensures Holds(w'.jobs[id], w'.st) {
      assert id in w.jobs ==> Holds(w.jobs[id], w.st);
    }
  }

  lemma {:induction false} HistoriesAreVersioned(w: World, es: seq<Event>)
    requires Versioned(w)
    ensures Versioned(History(w, es))
    decreases |es|
  {
    if es == [] {
    } else {
      NextVersioned(w, es[0]);
      HistoriesAreVersioned(Next(w, es[0]), es[1..]);
    }
  }

  // Over every history, whoever else edits the secret: a call that writes it leaves every entry that
  // is not the job's as it is at that moment, also one that came after the job read it; and a call
  // that approves a request approves the very request that its job read.
  lemma WritesKeepOthers(w: World, es: seq<Event>, id: nat, f: Fault)
    requires Versioned(w) && id in History(w, es).jobs
    ensures var w1, w2 := History(w, es), Next(History(w, es), Call(id, f));
      && (w2.st.secret != w1.st.secret ==>
        w2.st.secret.Some? && SameOthers(w2.st.secret.value.data, if w1.st.secret.Some? then w1.st.secret.value.data else map[]))
      && (w1.jobs[id].Approving? && w2.st.csr != w1.st.csr ==>
        w1.st.csr == Some(w1.jobs[id].seen) && w2.st.csr.Some? && w2.st.csr.value.approved &&
        w2.st.csr.value.request == w1.jobs[id].seen.request)
  {
    HistoriesAreVersioned(w, es);
    assert Holds(History(w, es).jobs[id], History(w, es).st);
  }

  function FineCall(id: nat): Event {
    Call(id, Fine)
  }

  lemma {:induction false} Joined(w: World, a: seq<Event>, b: seq<Event>)
    ensures History(w, a + b) == History(History(w, a), b)
    decreases |a|
  {
    if a == [] {
      assert a + b == b;
    } else {
      assert (a + b)[0] == a[0] && (a + b)[1..] == a[1..] + b;
      Joined(Next(w, a[0]), a[1..], b);
    }
  }

  // A job that starts where there is no request, or finds one of another job, up to its approval.
  lemma Approves(w: World, id: nat)
    requires id !in w.jobs && w.st.csr.None?
    ensures var c := w.st.clock;
      History(w, [Start(id), FineCall(id), FineCall(id), FineCall(id)]) ==
        World(w.st.(csr := Some(Csr(c + 1, w.keys, true, Empty)), clock := c + 2), w.jobs[id := Collect(w.keys)], w.keys + 1)
  {
    var w1 := Next(w, Start(id));
    var w2 := Next(w1, FineCall(id));
    var w3 := Next(w2, FineCall(id));
    var w4 := Next(w3, FineCall(id));
    assert w2.jobs == w.jobs[id := Get(w.keys)];
    assert w3.jobs == w.jobs[id := Approving(w.keys, w2.st.csr.value)];
    assert w4.jobs == w.jobs[id := Collect(w.keys)];
    Four(w, Start(id), FineCall(id), FineCall(id), FineCall(id));
  }

  lemma Replaces(w: World, id: nat)
    requires id !in w.jobs && w.st.csr.Some?
    ensures History(w, [Start(id), FineCall(id), FineCall(id), FineCall(id)]) ==
        World(w.st.(csr := Some(Csr(w.st.clock, w.keys, false, Empty)), clock := w.st.clock + 1),
          w.jobs[id := Get(w.keys)], w.keys + 1)
  {
    var w1 := Next(w, Start(id));
    var w2 := Next(w1, FineCall(id));
    var w3 := Next(w2, FineCall(id));
    var w4 := Next(w3, FineCall(id));
    assert w2.jobs == w.jobs[id := DeleteOld(w.keys)];
    assert w3.jobs == w.jobs[id := CreateAgain(w.keys)];
    assert w4.jobs == w.jobs[id := Get(w.keys)];
    Four(w, Start(id), FineCall(id), FineCall(id), FineCall(id));
  }

  lemma Four(w: World, a: Event, b: Event, c: Event, d: Event)
    ensures History(w, [a, b, c, d]) == Next(Next(Next(Next(w, a), b), c), d)
  {
    Unfold(w, a, [b, c, d]);
    Unfold(Next(w, a), b, [c, d]);
    Unfold(Next(Next(w, a), b), c, [d]);
    Unfold(Next(Next(Next(w, a), b), c), d, []);
  }

  lemma Unfold(w: World, e: Event, es: seq<Event>)
    ensures History(w, [e] + es) == History(Next(w, e), es)
  {
    assert ([e] + es)[0] == e && ([e] + es)[1..] == es;
  }

  // The second job approves, the signer signs, and the first job collects and stores.
  lemma Mixes(w: World, key: Key, other: Key) returns (es: seq<Event>)
    requires w.st.csr.Some? && w.st.secret.None?
    requires w.st.csr.value.request == other && !w.st.csr.value.approved && w.st.csr.value.certificate.Empty?
    requires w.jobs == map[0 := Collect(key), 1 := Get(other)]
    ensures forall k :: 0 <= k < |es| && es[k].Call? ==> es[k].f.Fine?
    ensures var secret := History(w, es).st.secret;
      secret.Some? && secret.value.data == Pair(key, CertFor(other))
  {
    var w1 := Next(w, FineCall(1));
    assert w1.jobs[1] == Approving(other, w.st.csr.value);
    var w2 := Next(w1, FineCall(1));
    assert w2.st.csr == Some(Csr(w.st.clock, other, true, Empty));
    var w3 := Next(w2, Signing);
    assert w3.st.csr.value.certificate == CertFor(other);
    var w4 := Next(w3, FineCall(0));
    assert w4.jobs[0] == Persisting(key, CertFor(other));
    Four(w, FineCall(1), FineCall(1), Signing, FineCall(0));
    Joined(w, [FineCall(1), FineCall(1), Signing, FineCall(0)], [FineCall(0)]);
    Unfold(w4, FineCall(0), []);
    es := [FineCall(1), FineCall(1), Signing, FineCall(0)] + [FineCall(0)];
  }

  // Without one writer at a time the pairs are lost, and no fault is needed: the second job replaces
  // the request of the first and has it approved, and the first collects what was signed for it.
  lemma TwoWritersMix(w: World) returns (es: seq<Event>)
    requires w.jobs == map[] && w.st.csr.None? && w.st.secret.None?
    ensures forall k :: 0 <= k < |es| && es[k].Call? ==> es[k].f.Fine?
    ensures var secret := History(w, es).st.secret;
      secret.Some? && secret.value.data == map["vault.crt" := CertFor(w.keys + 1), "vault.key" := KeyPem(w.keys)]
    ensures forall key :: !Paired(History(w, es).st.secret, key)
  {
    var first, w2 := TwoStart(w);
    var rest := Mixes(w2, w.keys, w.keys + 1);
    Joined(w, first, rest);
    es := first + rest;
    NoPair(History(w, es).st.secret, w.keys, w.keys + 1);
  }

  // The first job has its request approved, and the second replaces it.
  lemma TwoStart(w: World) returns (es: seq<Event>, w2: World)
    requires w.jobs == map[] && w.st.csr.None? && w.st.secret.None?
    ensures forall k :: 0 <= k < |es| && es[k].Call? ==> es[k].f.Fine?
    ensures w2 == History(w, es) && w2.st.secret.None? && w2.st.csr.Some?
    ensures w2.st.csr.value == Csr(w2.st.csr.value.version, w.keys + 1, false, Empty)
    ensures w2.jobs == map[0 := Collect(w.keys), 1 := Get(w.keys + 1)]
  {
    var first := [Start(0), FineCall(0), FineCall(0), FineCall(0)];
    var second := [Start(1), FineCall(1), FineCall(1), FineCall(1)];
    Approves(w, 0);
    var w1 := History(w, first);
    Replaces(w1, 1);
    w2 := History(w1, second);
    Joined(w, first, second);
    es := first + second;
  }

  lemma NoPair(secret: Option<Secret>, key: Key, other: Key)
    requires secret.Some? && secret.value.data == Pair(key, CertFor(other)) && key != other
    ensures forall k :: !Paired(secret, k)
  {
  }
}
