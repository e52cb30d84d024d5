/** Whole schedules of the work queues: that they end, when they can, and what they leave. */
module QueueDrain {
  import opened Options
  import opened Pki
  import opened MountNames
  import opened Faults
  import opened Environment
  import opened WorkQueue
  import opened QueueProgress
  import C = ClientCA
  import I = InternalCert
  import V = Convergence

  // A schedule picks up what is queued when a controller is idle, and otherwise makes a next call.
  predicate Legal(s: State, picks: seq<Pick>)
    decreases |picks|
  {
    picks == [] || (Enabled(s, picks[0]) && Legal(Next(s, picks[0]), picks[1..]))
  }

  function After(s: State, picks: seq<Pick>): State
    decreases |picks|
  {
    if picks == [] then s else After(Next(s, picks[0]), picks[1..])
  }

  lemma CACallKeepsResources(s: State)
    requires Inv(s)
    ensures Next(s, CallCA).st.cas == s.st.cas && Next(s, CallCA).st.certs == s.st.certs
  {
    if s.ca.Some? && s.ca.value.At? {
      var p := s.ca.value;
      assert CAHealthy(s, p.req);
      if Writes(p.pc) { WriteCallMade(p, s.st); } else { VaultCallMade(p, s.st); }
    }
  }

  lemma NextKeepsResources(s: State, pick: Pick)
    requires Inv(s)
    ensures Next(s, pick).st.cas == s.st.cas && Next(s, pick).st.certs == s.st.certs
  {
    match pick
    case PickUpCA(_) =>
    case PickUpCertificate(_) =>
    case CallCA => CACallKeepsResources(s);
    case CallCertificate =>
      if s.cert.Some? && s.cert.value.At? {
        CertCallMade(s, s.cert.value);
      }
  }

  lemma {:induction false} AfterKeeps(s: State, picks: seq<Pick>)
    requires Inv(s)
    ensures var t := After(s, picks); Inv(t) && t.st.cas == s.st.cas && t.st.certs == s.st.certs
    decreases |picks|
  {
    if picks == [] {
    } else {
      NextKeeps(s, picks[0]);
      NextKeepsResources(s, picks[0]);
      AfterKeeps(Next(s, picks[0]), picks[1..]);
    }
  }

  // --- Schedules are bounded ---

  // How often an issue is tried in vain.
  function Retries(s: State, picks: seq<Pick>): nat
    decreases |picks|
  {
    if picks == [] then 0 else (if Retry(s, picks[0]) then 1 else 0) + Retries(Next(s, picks[0]), picks[1..])
  }

  predicate OfCA(pick: Pick) {
    pick.PickUpCA? || pick.CallCA?
  }

  function CATurns(picks: seq<Pick>): nat {
    if picks == [] then 0 else (if OfCA(picks[0]) then 1 else 0) + CATurns(picks[1..])
  }

  lemma DistinctStays(s: State, pick: Pick)
    requires Inv(s) && DistinctCASecrets(s.st)
    ensures DistinctCASecrets(Next(s, pick).st)
  {
    NextKeepsResources(s, pick);
    var st, st' := s.st, Next(s, pick).st;
    forall m, n | m in st'.cas && n in st'.cas && m != n ensures CATarget(st', m) != CATarget(st', n) {
      assert CATarget(st, m) != CATarget(st, n);
    }
  }

  // With a secret of its own for every InternalClientCA, a schedule has no more turns than the
  // measure says, but for those spent on issues tried in vain.
  lemma {:induction false} SchedulesAreBounded(s: State, picks: seq<Pick>)
    requires Inv(s) && DistinctCASecrets(s.st) && Legal(s, picks)
    ensures |picks| + Measure(After(s, picks)) <= Measure(s) + 18 * Retries(s, picks)
    decreases |picks|
  {
    if picks == [] {
    } else {
      StepLowers(s, picks[0]);
      NextKeeps(s, picks[0]);
      DistinctStays(s, picks[0]);
      SchedulesAreBounded(Next(s, picks[0]), picks[1..]);
    }
  }

  // And the InternalClientCA controller has a bounded number of turns, come what may.
  lemma {:induction false} CATurnsAreBounded(s: State, picks: seq<Pick>)
    requires Inv(s) && DistinctCASecrets(s.st) && Legal(s, picks)
    ensures CATurns(picks) <= Measure(s) + Spent(s)
    decreases |picks|
  {
    if picks == [] {
    } else {
      StepNeverRaises(s, picks[0]);
      NextKeeps(s, picks[0]);
      DistinctStays(s, picks[0]);
      CATurnsAreBounded(Next(s, picks[0]), picks[1..]);
    }
  }

  predicate CAHasWork(s: State) {
    s.cas != {} || s.ca.Some?
  }

  // An issue is tried in vain only while the InternalClientCA that provisions its engine is queued or
  // in flight.
  lemma RetryMeansCAHasWork(s: State, pick: Pick)
    requires Inv(s) && Retry(s, pick)
    ensures CAHasWork(s)
  {
    var p := s.cert.value;
    assert CertHealthy(s, p.req);
    var m := I.Engine(p.cr);
    assert Coming(s, m);
    if m !in s.st.mounts {
      var a :| a in s.st.cas && ClientMount(s.st.cas[a].cn) == m;
      assert IssuerText(s.st, m) == [];
      assert !V.Settled(s.st, a);
    }
  }

  // The schedule leaves the InternalClientCA controller waiting for at most k turns of the other
  // while it has work; `waited` of them are past.
  predicate Fair(s: State, picks: seq<Pick>, k: nat, waited: nat)
    decreases |picks|
  {
    && waited <= k
    && (picks == [] ||
        Fair(Next(s, picks[0]), picks[1..], k,
          if OfCA(picks[0]) then 0 else if CAHasWork(s) then waited + 1 else waited))
  }

  lemma {:induction false} FairRetries(s: State, picks: seq<Pick>, k: nat, waited: nat)
    requires Inv(s) && Legal(s, picks) && Fair(s, picks, k, waited)
    ensures Retries(s, picks) <= k * CATurns(picks) + (k - waited)
    decreases |picks|
  {
    if picks == [] {
    } else {
      var now := if OfCA(picks[0]) then 0 else if CAHasWork(s) then waited + 1 else waited;
      NextKeeps(s, picks[0]);
      FairRetries(Next(s, picks[0]), picks[1..], k, now);
      if Retry(s, picks[0]) {
        RetryMeansCAHasWork(s, picks[0]);
      }
      if OfCA(picks[0]) {
        assert k * CATurns(picks) == k * CATurns(picks[1..]) + k;
      }
    }
  }

  // So every schedule ends that does not leave one controller waiting forever.
  lemma FairSchedulesAreBounded(s: State, picks: seq<Pick>, k: nat)
    requires Inv(s) && DistinctCASecrets(s.st) && Legal(s, picks) && Fair(s, picks, k, 0)
    ensures |picks| <= Bound(Measure(s), Spent(s), k)
  {
    SchedulesAreBounded(s, picks);
    CATurnsAreBounded(s, picks);
    FairRetries(s, picks, k, 0);
    Sums(|picks|, Measure(s), Spent(s), Retries(s, picks), CATurns(picks), k);
  }

  function Bound(m: nat, spent: nat, k: nat): nat {
    m + 18 * (k * (m + spent) + k)
  }

  lemma Sums(turns: nat, m: nat, spent: nat, retries: nat, own: nat, k: nat)
    requires turns <= m + 18 * retries && retries <= k * own + k && own <= m + spent
    ensures turns <= Bound(m, spent, k)
  {
    assert k * own <= k * (m + spent);
  }

  // --- What is left when the queues are drained ---

  // As long as anything is queued or in flight there is a next turn; when nothing is, every resource
  // is in its desired form.
  lemma QueuesDrain(s: State, picks: seq<Pick>)
    requires Inv(s) && Legal(s, picks)
    ensures var t := After(s, picks);
      && t.st.cas == s.st.cas && t.st.certs == s.st.certs
      && (if Drained(t) then AllDesired(t.st) else exists pick :: Enabled(t, pick))
  {
    AfterKeeps(s, picks);
    var t := After(s, picks);
    if Drained(t) {
      DrainedIsDesired(t);
    } else {
      var pick := SomeTurn(t);
    }
  }

  lemma SomeTurn(s: State) returns (pick: Pick)
    requires !Drained(s)
    ensures Enabled(s, pick) && (CAHasWork(s) ==> OfCA(pick))
  {
    if s.ca.Some? {
      pick := CallCA;
    } else if s.cas != {} {
      var n :| n in s.cas;
      pick := PickUpCA(n);
    } else if s.cert.Some? {
      pick := CallCertificate;
    } else {
      var n :| n in s.certs;
      pick := PickUpCertificate(n);
    }
  }

  // A secret has one owner.
  lemma OneSettles(st: Store, m: Name, n: Name)
    requires m in st.cas && n in st.cas && m != n && CATarget(st, m) == CATarget(st, n)
    ensures !V.Settled(st, m) || !V.Settled(st, n)
  {
  }

  // Two InternalClientCA that name one secret take it from each other forever.
  lemma SharedSecretsNeverDrain(s: State, picks: seq<Pick>)
    requires Inv(s) && !DistinctCASecrets(s.st)
    ensures !Drained(After(s, picks))
  {
    AfterKeeps(s, picks);
    var t := After(s, picks);
    var m, n :| m in s.st.cas && n in s.st.cas && m != n && CATarget(s.st, m) == CATarget(s.st, n);
    if Drained(t) {
      DrainedIsDesired(t);
      OneSettles(t.st, m, n);
    }
  }

  ghost predicate Drains(s: State, picks: seq<Pick>) {
    Legal(s, picks) && Drained(After(s, picks))
  }

  // The queues can be drained exactly when no two InternalClientCA name one secret.
  lemma DrainsIffSecretsDistinct(s: State)
    requires Inv(s)
    ensures (exists picks :: Drains(s, picks)) <==> DistinctCASecrets(s.st)
  {
    if DistinctCASecrets(s.st) {
      var picks := SomeDrain(s);
      assert Drains(s, picks);
    } else {
      forall picks ensures !Drains(s, picks) {
        SharedSecretsNeverDrain(s, picks);
      }
    }
  }

  lemma {:induction false} SomeDrain(s: State) returns (picks: seq<Pick>)
    requires Inv(s) && DistinctCASecrets(s.st)
    ensures Legal(s, picks) && Drained(After(s, picks))
    decreases Measure(s)
  {
    if Drained(s) {
      picks := [];
    } else {
      var pick := SomeTurn(s);
      if Retry(s, pick) {
        RetryMeansCAHasWork(s, pick);
      }
      StepLowers(s, pick);
      NextKeeps(s, pick);
      DistinctStays(s, pick);
      var rest := SomeDrain(Next(s, pick));
      picks := [pick] + rest;
      assert picks[1..] == rest;
    }
  }

  // --- What certificate resources end up with ---

  // No other resource names the secret.
  ghost predicate Exclusive(st: Store, n: Name)
    requires n in st.certs
  {
    && (forall m :: m in st.cas ==> CATarget(st, m) != CertTarget(st, n))
    && (forall m :: m in st.certs && m != n ==> CertTarget(st, m) != CertTarget(st, n))
  }

  // The secret is as it was at the start, or it was absent then and holds one pair issued by the
  // engine of the resource, in the form of its usage.
  ghost predicate Outcome(start: Store, st: Store, n: Name)
    requires n in start.certs
  {
    var at := CertTarget(start, n);
    if at in start.secrets then at in st.secrets && st.secrets[at] == start.secrets[at]
    else at in st.secrets ==>
      && st.secrets[at].owner == CertOwner(n)
      && exists i ::
        && i in st.issued && i.chain != []
        && i.path == (if start.certs[n].clientAuth then Client(start.certs[n].issuer) else IntermMount)
        && st.secrets[at].data == PairData(start.certs[n], i)
  }

  // An invocation that is past its Get found the secret absent, and it is so still.
  ghost predicate Tracks(start: Store, s: State, n: Name)
    requires n in start.certs
  {
    && s.st.certs == start.certs && s.st.cas == start.cas
    && Outcome(start, s.st, n)
    && (PastGet(s, n) ==> CertTarget(start, n) !in s.st.secrets)
  }

  // The secret is left alone.
  predicate Leaves(st: Store, st': Store, at: Name) {
    && st.issued <= st'.issued
    && (at in st'.secrets <==> at in st.secrets)
    && (at in st.secrets ==> st'.secrets[at] == st.secrets[at])
  }

  lemma OutcomeStays(start: Store, st: Store, st': Store, n: Name)
    requires n in start.certs && Outcome(start, st, n) && Leaves(st, st', CertTarget(start, n))
    ensures Outcome(start, st', n)
  {
  }

  lemma CACallLeaves(s: State, at: Name)
    requires Inv(s) && (s.ca.Some? && s.ca.value.At? ==> CATarget(s.st, s.ca.value.req) != at)
    ensures Leaves(s.st, Next(s, CallCA).st, at) && Next(s, CallCA).cert == s.cert
  {
    if s.ca.Some? && s.ca.value.At? {
      var p := s.ca.value;
      assert CAHealthy(s, p.req);
      if Writes(p.pc) { WriteCallMade(p, s.st); } else { VaultCallMade(p, s.st); }
    }
  }

  lemma CallCATracks(start: Store, s: State, n: Name)
    requires Inv(s) && n in start.certs && Exclusive(start, n) && Tracks(start, s, n)
    ensures Tracks(start, Next(s, CallCA), n)
  {
    CACallKeepsResources(s);
    if s.ca.Some? && s.ca.value.At? {
      assert CATarget(start, s.ca.value.req) != CertTarget(start, n);
    }
    CACallLeaves(s, CertTarget(start, n));
    OutcomeStays(start, s.st, Next(s, CallCA).st, n);
  }

  // The calls that store nothing, and those that store for another resource.
  lemma CertCallLeaves(s: State, p: I.Proc, at: Name)
    requires Inv(s) && s.cert == Some(p) && p.At? && (Stores(p, s.st) ==> CertTarget(s.st, p.req) != at)
    ensures Leaves(s.st, Next(s, CallCertificate).st, at)
  {
    CertCallMade(s, p);
  }

  lemma CertCallPasses(s: State, p: I.Proc)
    requires Inv(s) && s.cert == Some(p) && p.At?
    ensures var t := Next(s, CallCertificate);
      && (t.cert.Some? ==> t.cert.value.At? && t.cert.value.req == p.req)
      && (t.cert.Some? && Gets(p.pc) ==> CertTarget(s.st, p.req) !in s.st.secrets)
      && (t.cert.Some? && t.cert.value.pc.UpdateClient? ==> CertTarget(s.st, p.req) in s.st.secrets)
      && (Stores(p, s.st) ==> t.cert.None?)
      && (t.cert.Some? && !Gets(p.pc) ==> !Gets(t.cert.value.pc))
  {
    CertCallMade(s, p);
  }

  lemma StoreOutcome(start: Store, s: State, p: I.Proc)
    requires Inv(s) && s.cert == Some(p) && p.At? && Stores(p, s.st) && start.certs == s.st.certs
    requires CertTarget(start, p.req) !in start.secrets
    ensures Outcome(start, Next(s, CallCertificate).st, p.req)
  {
    CertCallMade(s, p);
  }

  lemma CallCertificateTracks(start: Store, s: State, n: Name)
    requires Inv(s) && n in start.certs && Exclusive(start, n) && Tracks(start, s, n)
    ensures Tracks(start, Next(s, CallCertificate), n)
  {
    var t, at := Next(s, CallCertificate), CertTarget(start, n);
    NextKeepsResources(s, CallCertificate);
    if s.cert.Some? && s.cert.value.At? {
      var p := s.cert.value;
      CertCallPasses(s, p);
      if p.req == n && Stores(p, s.st) {
        StoreOutcome(start, s, p);
      } else {
        assert p.req != n ==> CertTarget(start, p.req) != at;
        CertCallLeaves(s, p, at);
        OutcomeStays(start, s.st, t.st, n);
      }
    } else {
      LoadTracks(s, n);
    }
  }

  lemma LoadTracks(s: State, n: Name)
    requires Inv(s) && (s.cert.None? || s.cert.value.Load?)
    ensures Next(s, CallCertificate).st == s.st && !PastGet(Next(s, CallCertificate), n)
  {
  }

  lemma {:induction false} RunTracks(start: Store, s: State, picks: seq<Pick>, n: Name)
    requires Inv(s) && n in start.certs && Exclusive(start, n) && Tracks(start, s, n)
    ensures Tracks(start, After(s, picks), n)
    decreases |picks|
  {
    if picks == [] {
    } else {
      match picks[0] {
        case CallCA => CallCATracks(start, s, n);
        case CallCertificate => CallCertificateTracks(start, s, n);
        case PickUpCA(_) =>
        case PickUpCertificate(_) =>
      }
      NextKeeps(s, picks[0]);
      RunTracks(start, Next(s, picks[0]), picks[1..], n);
    }
  }

  // Along every schedule from idle controllers, a certificate whose secret no other resource names
  // keeps the secret it had, or gets one pair of the engine of its usage; and it has one when the
  // queues are drained.
  lemma CertificatesGetTheirPairs(s: State, picks: seq<Pick>, n: Name)
    requires Inv(s) && s.cert.None? && n in s.st.certs && Exclusive(s.st, n)
    ensures var t := After(s, picks);
      Outcome(s.st, t.st, n) && (Drained(t) ==> CertTarget(s.st, n) in t.st.secrets)
  {
    RunTracks(s.st, s, picks, n);
    AfterKeeps(s, picks);
    var t := After(s, picks);
    if Drained(t) {
      DrainedIsDesired(t);
      assert CertTarget(t.st, n) in t.st.secrets;
    }
  }
}
