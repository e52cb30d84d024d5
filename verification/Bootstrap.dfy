/** The bootstrap job: it has the cluster sign a key it has made, and stores both for Vault. */
module Bootstrap {
  import opened Options
  import opened Faults

  type Key = nat

  // What an entry of the secret or the status of a signing request may hold. A certificate is known
  // by the key it certifies.
  datatype Blob = Empty | KeyPem(key: Key) | CertFor(key: Key) | Other(text: string)

  type Data = map<string, Blob>

  const CRT := "vault.crt"
  const KEY := "vault.key"

  // There is one signing request, vault.svc, and one secret, vault-ha-tls; versions tell apart the
  // objects that have borne the name.
  datatype Csr = Csr(version: nat, request: Key, approved: bool, certificate: Blob)
  datatype Secret = Secret(version: nat, data: Data)
  datatype Store = Store(csr: Option<Csr>, secret: Option<Secret>, clock: nat)

  datatype Reply = OK | AlreadyExists | Failed

  // --- The calls ---

  function CreateCsr(st: Store, key: Key, f: Fault): (Store, Reply) {
    if f.Lost? then (st, Failed)
    else if st.csr.Some? then (st, if f.Fine? then AlreadyExists else Failed)
    else (st.(csr := Some(Csr(st.clock, key, false, Empty)), clock := st.clock + 1), if f.Fine? then OK else Failed)
  }

  function DeleteCsr(st: Store, f: Fault): (Store, Reply) {
    if f.Lost? || st.csr.None? then (st, Failed)
    else (st.(csr := None), if f.Fine? then OK else Failed)
  }

  // The approval is refused when the request has changed since it was read.
  function Approve(st: Store, seen: Csr, f: Fault): (Store, Reply) {
    if f.Lost? || st.csr.None? || st.csr.value.version != seen.version then (st, Failed)
    else
      (st.(csr := Some(st.csr.value.(approved := true, version := st.clock)), clock := st.clock + 1),
       if f.Fine? then OK else Failed)
  }

  function CreateSecret(st: Store, data: Data, f: Fault): (Store, Reply) {
    if f.Lost? then (st, Failed)
    else if st.secret.Some? then (st, if f.Fine? then AlreadyExists else Failed)
    else (st.(secret := Some(Secret(st.clock, data)), clock := st.clock + 1), if f.Fine? then OK else Failed)
  }

  // The update carries the version that was read.
  function UpdateSecret(st: Store, secret: Secret, f: Fault): (Store, Reply) {
    if f.Lost? || st.secret.None? || st.secret.value.version != secret.version then (st, Failed)
    else (st.(secret := Some(Secret(st.clock, secret.data)), clock := st.clock + 1), if f.Fine? then OK else Failed)
  }

  // The controller manager signs what has been approved.
  function Sign(st: Store): Store {
    if st.csr.None? || !st.csr.value.approved || !st.csr.value.certificate.Empty? then st
    else
      st.(csr := Some(st.csr.value.(certificate := CertFor(st.csr.value.request), version := st.clock)),
        clock := st.clock + 1)
  }

  // --- The job ---

  datatype Outcome = Finished | Exited | Panicked

  datatype Job =
    | CreateFirst(key: Key)
    | DeleteOld(key: Key)
    | CreateAgain(key: Key)
    | Get(key: Key)
    | Approving(key: Key, seen: Csr)
    | Collect(key: Key)
    | Persisting(key: Key, cert: Blob)
    | Read(key: Key, cert: Blob)
    | Replace(key: Key, cert: Blob, got: Secret)
    | DeleteDone(key: Key)
    | Done(outcome: Outcome)

  function Pair(key: Key, cert: Blob): Data {
    map[CRT := cert, KEY := KeyPem(key)]
  }

  function Filled(secret: Secret, key: Key, cert: Blob): Secret {
    secret.(data := secret.data[CRT := cert][KEY := KeyPem(key)])
  }

  function Step(j: Job, st: Store, f: Fault): (Job, Store) {
    match j
    case CreateFirst(key) =>
      var (st', r) := CreateCsr(st, key, f);
      (if r.OK? then Get(key) else if r.AlreadyExists? then DeleteOld(key) else Done(Exited), st')
    case DeleteOld(key) =>
      var (st', r) := DeleteCsr(st, f);
      (if r.OK? then CreateAgain(key) else Done(Exited), st')
    case CreateAgain(key) =>
      // A failure here is logged and nothing more.
      (Get(key), CreateCsr(st, key, f).0)
    case Get(key) =>
      (if f.Fine? && st.csr.Some? then Approving(key, st.csr.value) else Done(Exited), st)
    case Approving(key, seen) =>
      var (st', r) := Approve(st, seen, f);
      (if r.OK? then Collect(key) else Done(Exited), st')
    case Collect(key) =>
      (if f.Fine? && st.csr.Some? then Persisting(key, st.csr.value.certificate) else Done(Exited), st)
    case Persisting(key, cert) =>
      var (st', r) := CreateSecret(st, Pair(key, cert), f);
      (if r.OK? then DeleteDone(key) else if r.AlreadyExists? then Read(key, cert) else Done(Exited), st')
    case Read(key, cert) =>
      // The error is dropped; what could not be read has no map to write into.
      (if f.Fine? && st.secret.Some? && st.secret.value.data != map[]
        then Replace(key, cert, Filled(st.secret.value, key, cert)) else Done(Panicked), st)
    case Replace(key, cert, got) =>
      var (st', r) := UpdateSecret(st, got, f);
      (if r.OK? then DeleteDone(key) else Done(Exited), st')
    case DeleteDone(key) =>
      var (st', r) := DeleteCsr(st, f);
      (Done(if r.OK? then Finished else Exited), st')
    case Done(_) => (j, st)
  }

  function Rank(j: Job): nat {
    match j
    case CreateFirst(_) => 10
    case DeleteOld(_) => 9
    case CreateAgain(_) => 8
    case Get(_) => 7
    case Approving(_, _) => 6
    case Collect(_) => 5
    case Persisting(_, _) => 4
    case Read(_, _) => 3
    case Replace(_, _, _) => 2
    case DeleteDone(_) => 1
    case Done(_) => 0
  }

  // --- One run, others acting before each call ---

  datatype Turn = Turn(others: Store -> Store, f: Fault)

  function Run(j: Job, st: Store, turns: nat -> Turn, k: nat): (Store, nat, Outcome)
    decreases Rank(j)
  {
    if j.Done? then (st, k, j.outcome)
    else
      var (j', st') := Step(j, turns(k).others(st), turns(k).f);
      Run(j', st', turns, k + 1)
  }

  lemma Turned(j: Job, st: Store, turns: nat -> Turn, k: nat)
    requires !j.Done?
    ensures var (j', st') := Step(j, turns(k).others(st), turns(k).f);
      Run(j, st, turns, k) == Run(j', st', turns, k + 1)
  {
  }

  lemma Ended(outcome: Outcome, st: Store, turns: nat -> Turn, k: nat)
    ensures Run(Done(outcome), st, turns, k) == (st, k, outcome)
  {
  }

  class Cluster {
    var st: Store
    var calls: nat
    const turns: nat -> Turn

    constructor (st: Store, turns: nat -> Turn)
      ensures this.st == st && this.turns == turns && calls == 0
    {
      this.st, this.turns, calls := st, turns, 0;
    }

    function Now(): Store
      reads this
    {
      turns(calls).others(st)
    }

    function Luck(): Fault
      reads this
    {
      turns(calls).f
    }

    method CreateRequest(key: Key) returns (r: Reply)
      modifies this
      ensures (st, r) == CreateCsr(old(Now()), key, old(Luck())) && calls == old(calls) + 1
    {
      var out := CreateCsr(turns(calls).others(st), key, turns(calls).f);
      st, r, calls := out.0, out.1, calls + 1;
    }

    method DeleteRequest() returns (r: Reply)
      modifies this
      ensures (st, r) == DeleteCsr(old(Now()), old(Luck())) && calls == old(calls) + 1
    {
      var out := DeleteCsr(turns(calls).others(st), turns(calls).f);
      st, r, calls := out.0, out.1, calls + 1;
    }

    method GetRequest() returns (csr: Option<Csr>)
      modifies this
      ensures st == old(Now()) && calls == old(calls) + 1
      ensures csr == if old(Luck()).Fine? then st.csr else None
    {
      var f := turns(calls).f;
      st, calls := turns(calls).others(st), calls + 1;
      csr := if f.Fine? then st.csr else None;
    }

    method UpdateApproval(seen: Csr) returns (r: Reply)
      modifies this
      ensures (st, r) == Approve(old(Now()), seen, old(Luck())) && calls == old(calls) + 1
    {
      var out := Approve(turns(calls).others(st), seen, turns(calls).f);
      st, r, calls := out.0, out.1, calls + 1;
    }

    method Create(data: Data) returns (r: Reply)
      modifies this
      ensures (st, r) == CreateSecret(old(Now()), data, old(Luck())) && calls == old(calls) + 1
    {
      var out := CreateSecret(turns(calls).others(st), data, turns(calls).f);
      st, r, calls := out.0, out.1, calls + 1;
    }

    // An empty secret stands for what could not be read.
    method GetSecret() returns (secret: Secret)
      modifies this
      ensures st == old(Now()) && calls == old(calls) + 1
      ensures secret == if old(Luck()).Fine? && st.secret.Some? then st.secret.value else Secret(0, map[])
    {
      var f := turns(calls).f;
      st, calls := turns(calls).others(st), calls + 1;
      secret := if f.Fine? && st.secret.Some? then st.secret.value else Secret(0, map[]);
    }

    method Update(secret: Secret) returns (r: Reply)
      modifies this
      ensures (st, r) == UpdateSecret(old(Now()), secret, old(Luck())) && calls == old(calls) + 1
    {
      var out := UpdateSecret(turns(calls).others(st), secret, turns(calls).f);
      st, r, calls := out.0, out.1, calls + 1;
    }
  }

  // The program from its first call on, given the key it has generated.
  method Bootstrap(cluster: Cluster, key: Key) returns (outcome: Outcome)
    modifies cluster
    ensures (cluster.st, cluster.calls, outcome) ==
      Run(CreateFirst(key), old(cluster.st), cluster.turns, old(cluster.calls))
  {
    var ok := Request(cluster, key);
    if !ok { return Exited; }
    Turned(Collect(key), cluster.st, cluster.turns, cluster.calls);
    var approved := cluster.GetRequest();
    if approved.None? { return Exited; }
    outcome := Persist(cluster, key, approved.value.certificate);
  }

  // Creates the request, replacing one that is there, and approves it.
  method Request(cluster: Cluster, key: Key) returns (ok: bool)
    modifies cluster
    ensures Run(CreateFirst(key), old(cluster.st), cluster.turns, old(cluster.calls)) ==
      if ok then Run(Collect(key), cluster.st, cluster.turns, cluster.calls)
      else (cluster.st, cluster.calls, Exited)
  {
    Turned(CreateFirst(key), cluster.st, cluster.turns, cluster.calls);
    var r := cluster.CreateRequest(key);
    if r.AlreadyExists? {
      Turned(DeleteOld(key), cluster.st, cluster.turns, cluster.calls);
      r := cluster.DeleteRequest();
      if r != OK { return false; }
      Turned(CreateAgain(key), cluster.st, cluster.turns, cluster.calls);
      r := cluster.CreateRequest(key);
    } else if r != OK {
      return false;
    }
    Turned(Get(key), cluster.st, cluster.turns, cluster.calls);
    var seen := cluster.GetRequest();
    if seen.None? { return false; }
    Turned(Approving(key, seen.value), cluster.st, cluster.turns, cluster.calls);
    r := cluster.UpdateApproval(seen.value);
    ok := r == OK;
  }

  method Persist(cluster: Cluster, key: Key, cert: Blob) returns (outcome: Outcome)
    modifies cluster
    ensures (cluster.st, cluster.calls, outcome) ==
      Run(Persisting(key, cert), old(cluster.st), cluster.turns, old(cluster.calls))
  {
    Turned(Persisting(key, cert), cluster.st, cluster.turns, cluster.calls);
    var r := cluster.Create(Pair(key, cert));
    if r.AlreadyExists? {
      Turned(Read(key, cert), cluster.st, cluster.turns, cluster.calls);
      var secret := cluster.GetSecret();
      if secret.data == map[] { return Panicked; }
      secret := secret.(data := secret.data[CRT := cert]);
      secret := secret.(data := secret.data[KEY := KeyPem(key)]);
      Turned(Replace(key, cert, secret), cluster.st, cluster.turns, cluster.calls);
      r := cluster.Update(secret);
      if r != OK { return Exited; }
    } else if r != OK {
      return Exited;
    }
    Turned(DeleteDone(key), cluster.st, cluster.turns, cluster.calls);
    r := cluster.DeleteRequest();
    outcome := if r == OK then Finished else Exited;
    Ended(outcome, cluster.st, cluster.turns, cluster.calls);
  }

  // --- Restarting ---

  // Nobody but the signer comes between the calls, and no call fails.
  predicate Quiet(t: Turn, st: Store) {
    t.f.Fine? && (t.others(st) == st || t.others(st) == Sign(st))
  }

  ghost predicate QuietTurns(turns: nat -> Turn) {
    forall k: nat, st: Store :: Quiet(turns(k), st)
  }

  predicate Signed(t: Turn, st: Store) {
    t.others(st) == Sign(st)
  }

  // The signer has acted by the time of every call.
  ghost predicate Prompt(turns: nat -> Turn) {
    forall k: nat, st: Store :: Signed(turns(k), st)
  }

  // What the run makes of the secret it finds.
  function Stored(before: Option<Secret>, key: Key, cert: Blob): Data {
    if before.None? then map["vault.crt" := cert, "vault.key" := KeyPem(key)] else before.value.data["vault.crt" := cert]["vault.key" := KeyPem(key)]
  }

  predicate Usable(secret: Option<Secret>) {
    secret.Some? ==> secret.value.data != map[]
  }

  // A request of the key: the certificate it bears, if any, certifies that key.
  predicate Own(csr: Option<Csr>, key: Key) {
    csr.Some? && csr.value.request == key && (csr.value.certificate == Empty || csr.value.certificate == CertFor(key))
  }

  lemma PersistEnds(st: Store, key: Key, cert: Blob, turns: nat -> Turn, k: nat)
    requires QuietTurns(turns) && Own(st.csr, key)
    ensures var (st', _, outcome) := Run(Persisting(key, cert), st, turns, k);
      if Usable(st.secret)
      then outcome.Finished? && st'.csr.None? && st'.secret.Some? && st'.secret.value.data == Stored(st.secret, key, cert)
      else outcome.Panicked? && st'.csr.Some? && st'.secret == st.secret
  {
    var st1 := turns(k).others(st);
    assert Quiet(turns(k), st);
    var (j2, st2) := Step(Persisting(key, cert), st1, Fine);
    Turned(Persisting(key, cert), st, turns, k);
    assert Quiet(turns(k + 1), st2);
    Turned(j2, st2, turns, k + 1);
    if st.secret.Some? {
      var (j3, st3) := Step(j2, turns(k + 1).others(st2), Fine);
      if Usable(st.secret) {
        assert j3 == Replace(key, cert, Filled(st.secret.value, key, cert));
        Turned(j3, st3, turns, k + 2);
        assert Quiet(turns(k + 2), st3);
        var (j4, st4) := Step(j3, turns(k + 2).others(st3), Fine);
        Turned(j4, st4, turns, k + 3);
        assert Quiet(turns(k + 3), st4);
      }
    }
  }

  // A request of the key that has just been made is approved.
  lemma ApprovalEnds(st: Store, key: Key, turns: nat -> Turn, k: nat) returns (st': Store, k': nat)
    requires QuietTurns(turns)
    requires st.csr.Some? && st.csr.value.request == key && !st.csr.value.approved && st.csr.value.certificate.Empty?
    ensures Run(Get(key), st, turns, k) == Run(Collect(key), st', turns, k')
    ensures Own(st'.csr, key) && st'.csr.value.approved && st'.csr.value.certificate.Empty? && st'.secret == st.secret
  {
    assert Quiet(turns(k), st) && Quiet(turns(k + 1), st);
    Turned(Get(key), st, turns, k);
    Turned(Approving(key, st.csr.value), st, turns, k + 1);
    st' := Approve(st, st.csr.value, Fine).0;
    k' := k + 2;
  }

  // Whatever request is there, it is replaced by one of the job's own.
  lemma RequestEnds(st: Store, key: Key, turns: nat -> Turn, k: nat) returns (st': Store, k': nat)
    requires QuietTurns(turns)
    ensures Run(CreateFirst(key), st, turns, k) == Run(Collect(key), st', turns, k')
    ensures Own(st'.csr, key) && st'.csr.value.approved && st'.csr.value.certificate.Empty? && st'.secret == st.secret
  {
    assert Quiet(turns(k), st);
    var (j1, st1) := Step(CreateFirst(key), turns(k).others(st), Fine);
    Turned(CreateFirst(key), st, turns, k);
    if st.csr.None? {
      st', k' := ApprovalEnds(st1, key, turns, k + 1);
    } else {
      assert Quiet(turns(k + 1), st1);
      var (j2, st2) := Step(DeleteOld(key), turns(k + 1).others(st1), Fine);
      Turned(DeleteOld(key), st1, turns, k + 1);
      assert Quiet(turns(k + 2), st2);
      var (j3, st3) := Step(CreateAgain(key), st2, Fine);
      Turned(CreateAgain(key), st2, turns, k + 2);
      st', k' := ApprovalEnds(st3, key, turns, k + 3);
    }
  }

  // From every state whatever: a run without faults finishes, with no request left and its own key
  // stored beside a certificate of it or none, exactly when there is no secret without entries in
  // its way; and the certificate is there when the signer is prompt.
  lemma RestartsIff(st: Store, key: Key, turns: nat -> Turn, k: nat)
    requires QuietTurns(turns)
    ensures var (st', _, outcome) := Run(CreateFirst(key), st, turns, k);
      && (outcome.Finished? <==> Usable(st.secret))
      && (outcome.Finished? ==> st'.csr.None? && Paired(st'.secret, key) && KeepsOthers(st.secret, st'.secret))
      && (outcome.Finished? && Prompt(turns) ==> st'.secret.value.data["vault.crt"] == CertFor(key))
      && (!outcome.Finished? ==> outcome.Panicked? && st'.csr.Some? && st'.secret == st.secret)
  {
    var st1, k1 := RequestEnds(st, key, turns, k);
    assert Quiet(turns(k1), st1);
    Turned(Collect(key), st1, turns, k1);
    var st2 := turns(k1).others(st1);
    var cert := st2.csr.value.certificate;
    assert Prompt(turns) ==> Signed(turns(k1), st1) && cert == CertFor(key);
    PersistEnds(st2, key, cert, turns, k1 + 1);
  }

  // The stored key with a certificate of it, or with none where the signer was late.
  predicate Paired(secret: Option<Secret>, key: Key) {
    && secret.Some?
    && "vault.key" in secret.value.data && secret.value.data["vault.key"] == KeyPem(key)
    && "vault.crt" in secret.value.data && secret.value.data["vault.crt"] in {Empty, CertFor(key)}
  }

  predicate KeepsOthers(before: Option<Secret>, after: Option<Secret>) {
    before.Some? ==>
      && after.Some?
      && forall name :: name in before.value.data && name != "vault.crt" && name != "vault.key" ==>
        name in after.value.data && after.value.data[name] == before.value.data[name]
  }

  // --- Every sequence of faults ---

  // Nobody but the signer comes between the calls, and anything may happen to them.
  ghost predicate SignerOnly(turns: nat -> Turn) {
    forall k: nat, st: Store :: Undisturbed(turns(k), st)
  }

  predicate Undisturbed(t: Turn, st: Store) {
    t.others(st) == st || t.others(st) == Sign(st)
  }

  // What a run without another writer knows of the request, step by step.
  predicate Knows(j: Job, st: Store) {
    match j
    case CreateFirst(_) => true
    case DeleteOld(_) => true
    case CreateAgain(_) => st.csr.None?
    case Get(key) => st.csr.Some? ==> Own(st.csr, key)
    case Approving(key, _) => st.csr.Some? ==> Own(st.csr, key)
    case Collect(key) => st.csr.Some? ==> Own(st.csr, key)
    case Persisting(key, cert) => cert in {Empty, CertFor(key)}
    case Read(key, cert) => cert in {Empty, CertFor(key)}
    case Replace(key, cert, got) => cert in {Empty, CertFor(key)} && Paired(Some(got), key)
    case DeleteDone(key) => Paired(st.secret, key)
    case Done(_) => true
  }

  lemma StepKnows(j: Job, st: Store, f: Fault)
    requires Knows(j, st)
    ensures var (j', st') := Step(j, st, f);
      && Knows(j', st')
      && (!j'.Done? && !j.Done? ==> j'.key == j.key)
      && (j' == Done(Finished) && !j.Done? ==> st'.csr.None? && Paired(st'.secret, j.key))
  {
  }

  lemma SigningKnows(j: Job, st: Store)
    requires Knows(j, st)
    ensures Knows(j, Sign(st))
  {
  }

  lemma {:induction false} RestFinishes(j: Job, st: Store, turns: nat -> Turn, k: nat)
    requires SignerOnly(turns) && !j.Done? && Knows(j, st)
    ensures var (st', _, outcome) := Run(j, st, turns, k);
      outcome.Finished? ==> st'.csr.None? && Paired(st'.secret, j.key)
    decreases Rank(j)
  {
    assert Undisturbed(turns(k), st);
    SigningKnows(j, st);
    var now := turns(k).others(st);
    var (j', st') := Step(j, now, turns(k).f);
    Turned(j, st, turns, k);
    StepKnows(j, now, turns(k).f);
    if j'.Done? {
      Ended(j'.outcome, st', turns, k + 1);
    } else {
      RestFinishes(j', st', turns, k + 1);
    }
  }

  // Whatever happens to its calls, a run that finishes has left no request, and its own key in the
  // secret beside a certificate of it or none.
  lemma FinishedMeansStored(st: Store, key: Key, turns: nat -> Turn, k: nat)
    requires SignerOnly(turns)
    ensures var (st', _, outcome) := Run(CreateFirst(key), st, turns, k);
      outcome.Finished? ==>
        && st'.csr.None? && st'.secret.Some?
        && "vault.key" in st'.secret.value.data && st'.secret.value.data["vault.key"] == KeyPem(key)
        && "vault.crt" in st'.secret.value.data && st'.secret.value.data["vault.crt"] in {Empty, CertFor(key)}
  {
    RestFinishes(CreateFirst(key), st, turns, k);
  }

  // A call that is not served ends the run, but for the second Create of the request; the read of
  // the secret ends it with a panic, since its error is dropped.
  lemma UnservedCall(j: Job, st: Store, f: Fault)
    requires !j.Done? && !f.Fine?
    ensures var (j', st') := Step(j, st, f);
      && j' == (if j.CreateAgain? then Get(j.key) else if j.Read? then Done(Panicked) else Done(Exited))
      && (f.Lost? ==> st' == st)
      && (f.Unanswered? ==> st' == Step(j, st, Fine).1)
  {
  }

  predicate Served(turns: nat -> Turn, from: nat, to: nat) {
    forall i :: from <= i < to ==> turns(i).f.Fine?
  }

  lemma {:induction false} RestServed(j: Job, st: Store, turns: nat -> Turn, k: nat)
    requires !j.Done? && !j.CreateFirst? && !j.DeleteOld?
    ensures var (_, k', outcome) := Run(j, st, turns, k);
      outcome.Finished? ==> Served(turns, if j.CreateAgain? then k + 1 else k, k')
    decreases Rank(j)
  {
    var now := turns(k).others(st);
    var (j', st') := Step(j, now, turns(k).f);
    Turned(j, st, turns, k);
    if !turns(k).f.Fine? {
      UnservedCall(j, now, turns(k).f);
    }
    if j'.Done? {
      Ended(j'.outcome, st', turns, k + 1);
    } else {
      RestServed(j', st', turns, k + 1);
    }
  }

  // Of a run that finishes every call was served but, perhaps, that one: the third, when the first
  // found another request in its way.
  lemma FinishedMeansServed(st: Store, key: Key, turns: nat -> Turn, k: nat)
    ensures var (_, k', outcome) := Run(CreateFirst(key), st, turns, k);
      outcome.Finished? ==>
        forall i :: k <= i < k' && !(i == k + 2 && turns(k).others(st).csr.Some?) ==> turns(i).f.Fine?
  {
    var now := turns(k).others(st);
    var (j1, st1) := Step(CreateFirst(key), now, turns(k).f);
    Turned(CreateFirst(key), st, turns, k);
    if j1.DeleteOld? {
      var (j2, st2) := Step(j1, turns(k + 1).others(st1), turns(k + 1).f);
      Turned(j1, st1, turns, k + 1);
      if !j2.Done? {
        RestServed(j2, st2, turns, k + 2);
      } else {
        Ended(j2.outcome, st2, turns, k + 2);
      }
    } else if !j1.Done? {
      RestServed(j1, st1, turns, k + 1);
    } else {
      Ended(j1.outcome, st1, turns, k + 1);
    }
  }
}
