/** How far the work queues are from being drained: a measure, and what each call does to it. */
module QueueProgress {
  import opened Options
  import opened Pki
  import opened MountNames
  import opened Faults
  import opened Environment
  import opened WorkQueue
  import C = ClientCA
  import I = InternalCert
  import V = Convergence

  ghost function Unsettled(st: Store): set<Name> {
    set n | n in st.cas && !V.Settled(st, n)
  }

  ghost function Unbegun(st: Store): set<Name> {
    set n | n in st.cas && ClientMount(st.cas[n].cn) !in st.mounts
  }

  predicate PastGet(s: State, n: Name) {
    s.cert.Some? && s.cert.value.At? && s.cert.value.req == n && !Gets(s.cert.value.pc)
  }

  // The certificate's secret is absent, or was when the invocation in flight looked.
  ghost function Open(s: State): set<Name> {
    set n | n in s.st.certs && (CertTarget(s.st, n) !in s.st.secrets || PastGet(s, n))
  }

  predicate Provisions(pc: C.PC) {
    pc in {C.TuneIt, C.RootIt, C.UrlsIt, C.RoleIt, C.ClusterConfig, C.RootToken, C.CreateNew}
  }

  // The calls an invocation has left, and what it may yet add to the queues: at its end one that
  // provisions is queued again, as is one whose Create finds that a certificate came first.
  function CAWeight(s: State): nat {
    if s.ca.None? then 0
    else
      var p := s.ca.value;
      C.Rank(p)
      + (if p.At? && Provisions(p.pc) then 21 else 0)
      + (if p.At? && p.pc.CreateMissing? && Name(p.req.ns, p.cr.secret) in s.st.secrets then 21 else 0)
  }

  function CertWeight(s: State): nat {
    if s.cert.None? then 0 else I.Rank(s.cert.value)
  }

  ghost function Measure(s: State): nat {
    20 * (|s.cas| + |s.certs|) + 50 * |Unsettled(s.st)| + 25 * |Unbegun(s.st)| + 100 * |Open(s)| + CAWeight(s) + CertWeight(s)
  }

  lemma SubsetSize<T>(a: set<T>, b: set<T>)
    requires a <= b
    ensures |a| <= |b|
  {
    assert b == a + (b - a);
  }

  lemma NamesOfOne(o: Owner)
    ensures |CANames({o})| + |CertNames({o})| <= 1
  {
    assert CANames({o}) == if o.CAOwner? then {o.name} else {};
    assert CertNames({o}) == if o.CertOwner? then {o.name} else {};
  }

  lemma NamesOfUnion(a: set<Owner>, b: set<Owner>)
    ensures |CANames(a + b)| + |CertNames(a + b)| <= |CANames(a)| + |CertNames(a)| + |CANames(b)| + |CertNames(b)|
  {
    assert CANames(a + b) == CANames(a) + CANames(b);
    assert CertNames(a + b) == CertNames(a) + CertNames(b);
  }

  lemma NamesOfSubset(a: set<Owner>, b: set<Owner>)
    requires a <= b
    ensures |CANames(a)| + |CertNames(a)| <= |CANames(b)| + |CertNames(b)|
  {
    SubsetSize(CANames(a), CANames(b));
    SubsetSize(CertNames(a), CertNames(b));
  }

  // A write wakes its owner, and the one before it.
  lemma WriteWakes(s: State, st': Store, at: Name)
    requires at in st'.secrets && st'.secrets == s.st.secrets[at := st'.secrets[at]]
    ensures var t := Wake(s, st');
      |t.cas| + |t.certs| <= |s.cas| + |s.certs| + (if at in s.st.secrets then 2 else 1)
  {
    WriteStirs(s.st, st', at);
    var now := {st'.secrets[at].owner};
    NamesOfOne(st'.secrets[at].owner);
    if at in s.st.secrets {
      var was := {s.st.secrets[at].owner};
      NamesOfOne(s.st.secrets[at].owner);
      NamesOfUnion(now, was);
      NamesOfSubset(Stirred(s.st, st'), now + was);
    } else {
      NamesOfSubset(Stirred(s.st, st'), now);
    }
  }

  // --- The InternalClientCA controller ---

  lemma PickUpCALowers(s: State, n: Name)
    requires Enabled(s, PickUpCA(n)) && Flying(s)
    ensures Measure(Next(s, PickUpCA(n))) < Measure(s)
  {
    var t := Next(s, PickUpCA(n));
    assert |t.cas| == |s.cas| - 1;
    assert Open(t) == Open(s);
  }

  lemma UnbegunShrinks(st: Store, st': Store, m: Path)
    requires VaultOnly(st, st', m) && Progresses(st, st', m)
    ensures Unbegun(st') <= Unbegun(st)
  {
    forall n | n in Unbegun(st') ensures n in Unbegun(st) {
      if ClientMount(st.cas[n].cn) != m {
        assert SameMount(st, st', ClientMount(st.cas[n].cn));
      }
    }
  }

  lemma OpenStays(s: State, t: State)
    requires t.cert == s.cert && t.st.certs == s.st.certs && t.st.secrets == s.st.secrets
    ensures Open(t) == Open(s)
  {
  }

  lemma VaultCallShrinks(s: State, p: C.Proc, p': C.Proc, st': Store, t: State)
    requires Inv(s) && s.ca == Some(p) && p.At? && !Writes(p.pc)
    requires VaultMade(p, s.st, p', st') && t == s.(st := st', ca := Some(p'))
    ensures |Unsettled(st')| <= |Unsettled(s.st)|
    ensures |Unbegun(st')| + (if p.pc.EnableIt? then 1 else 0) <= |Unbegun(s.st)|
  {
    VaultCallWaits(s, p, p', st', t);
    SubsetSize(Unsettled(st'), Unsettled(s.st));
    UnbegunShrinks(s.st, st', ClientMount(p.cr.cn));
    if p.pc.EnableIt? {
      assert p.req in Unbegun(s.st) && p.req !in Unbegun(st');
      SubsetSize(Unbegun(st'), Unbegun(s.st) - {p.req});
    } else {
      SubsetSize(Unbegun(st'), Unbegun(s.st));
    }
  }

  lemma VaultCallWeighs(p: C.Proc, p': C.Proc, listed: bool)
    requires p.At? && !Writes(p.pc) && p'.At? && p'.pc == Then(p.pc, listed)
    ensures C.Rank(p') + (if Provisions(p'.pc) then 21 else 0) + (if p'.pc.CreateMissing? then 21 else 0) <
      C.Rank(p) + (if Provisions(p.pc) then 21 else 0) + (if p.pc.EnableIt? then 25 else 0)
  {
  }

  lemma VaultCallLowers(s: State, p: C.Proc, p': C.Proc, st': Store, t: State)
    requires Inv(s) && s.ca == Some(p) && p.At? && !Writes(p.pc)
    requires VaultMade(p, s.st, p', st') && t == s.(st := st', ca := Some(p'))
    ensures Measure(t) < Measure(s)
  {
    VaultCallShrinks(s, p, p', st', t);
    OpenStays(s, t);
    VaultCallWeighs(p, p', ClientMount(p.cr.cn) in s.st.mounts);
  }

  // With secrets of their own, an InternalClientCA's write settles it and unsettles no other.
  lemma WriteSettles(st: Store, st': Store, n: Name)
    requires n in st.cas && DistinctCASecrets(st) && WriteOnly(st, st', CATarget(st, n)) && V.Settled(st', n)
    ensures Unsettled(st') == Unsettled(st) - {n}
  {
    forall m | m in st.cas && m != n ensures V.Settled(st', m) <==> V.Settled(st, m) {
      assert CATarget(st, m) != CATarget(st, n);
    }
  }

  lemma WriteLeavesOpen(s: State, t: State, at: Name)
    requires WriteOnly(s.st, t.st, at) && t.cert == s.cert
    ensures |Open(t)| <= |Open(s)| && Unbegun(t.st) == Unbegun(s.st)
  {
    SubsetSize(Open(t), Open(s));
  }

  // A write that settles what was not settled pays for those it wakes.
  lemma SettlingLowers(s: State, st': Store, n: Name, t: State)
    requires n in s.st.cas && DistinctCASecrets(s.st) && !V.Settled(s.st, n) && V.Settled(st', n)
    requires WriteOnly(s.st, st', CATarget(s.st, n)) && t == Wake(s, st').(ca := None)
    ensures Measure(t) < Measure(s)
  {
    var at := CATarget(s.st, n);
    WriteSettles(s.st, st', n);
    WriteLeavesOpen(s, t, at);
    assert n in Unsettled(s.st);
    assert st'.secrets == s.st.secrets[at := st'.secrets[at]];
    WriteWakes(s, st', at);
  }

  // A call that ends an invocation, changes nothing and may fail where that has been provided for.
  lemma EndingLowers(s: State, p: C.Proc, err: bool, t: State)
    requires s.ca == Some(p) && p.At? && Writes(p.pc)
    requires t == s.(ca := None, cas := s.cas + if err then {p.req} else {})
    requires err ==> p.pc.CreateNew? || (p.pc.CreateMissing? && Name(p.req.ns, p.cr.secret) in s.st.secrets)
    ensures Measure(t) < Measure(s)
  {
    OpenStays(s, t);
  }

  // A Create unsettles nobody: whoever is settled has another secret.
  lemma CreateUnsettlesNone(st: Store, st': Store, at: Name)
    requires WriteOnly(st, st', at) && at !in st.secrets
    ensures |Unsettled(st')| <= |Unsettled(st)|
  {
    forall m | m in st.cas && V.Settled(st, m) ensures V.Settled(st', m) {
      assert CATarget(st, m) != at;
    }
    SubsetSize(Unsettled(st'), Unsettled(st));
  }

  lemma CreateNewLowers(s: State, p: C.Proc, st': Store, t: State)
    requires s.ca == Some(p) && p.At? && p.pc.CreateNew? && p.req in s.st.cas && p.cr == s.st.cas[p.req]
    requires var at := CATarget(s.st, p.req); WriteOnly(s.st, st', at) && at !in s.st.secrets && at in st'.secrets
    requires t == Wake(s, st').(ca := None)
    ensures Measure(t) < Measure(s)
  {
    var at := CATarget(s.st, p.req);
    CreateUnsettlesNone(s.st, st', at);
    WriteLeavesOpen(s, t, at);
    assert st'.secrets == s.st.secrets[at := st'.secrets[at]];
    WriteWakes(s, st', at);
  }

  lemma DoneCA(s: State, req: Name, st': Store)
    ensures AfterCA(s, req, C.Done(false), st') == Wake(s, st').(ca := None)
  {
    assert Wake(s, st').cas + {} == Wake(s, st').cas;
  }

  // The writing calls that write nothing: nothing to update, or a name that is taken.
  lemma UnwrittenLowers(s: State, p: C.Proc, p': C.Proc, t: State)
    requires s.ca == Some(p) && p.At? && Writes(p.pc) && p.req in s.st.cas && p.cr == s.st.cas[p.req]
    requires if p.pc.UpdateOld? then p' == p.(pc := C.CreateMissing) && CATarget(s.st, p.req) !in s.st.secrets
      else p' == C.Done(true) && CATarget(s.st, p.req) in s.st.secrets
    requires t == AfterCA(s, p.req, p', s.st)
    ensures Measure(t) < Measure(s)
  {
    QuietCA(s, p.req, p', s.st);
    if p'.Done? {
      EndingLowers(s, p, true, t);
    } else {
      OpenStays(s, t);
    }
  }

  // An Update of what is settled already.
  lemma IdleUpdateLowers(s: State, p: C.Proc, t: State)
    requires s.ca == Some(p) && p.At? && p.pc.UpdateOld? && t == AfterCA(s, p.req, C.Done(false), s.st)
    ensures Measure(t) < Measure(s)
  {
    QuietCA(s, p.req, C.Done(false), s.st);
    EndingLowers(s, p, false, t);
  }

  lemma SettledUpdateIsIdle(p: C.Proc, st: Store)
    requires p.At? && p.pc.UpdateOld? && Knows(p, st) && V.Settled(st, p.req) && p.cr.certName != ""
    ensures C.StoreStep(p, st, Fine) == (C.Done(false), st)
  {
  }

  lemma WriteCallLowers(s: State, p: C.Proc)
    requires Inv(s) && DistinctCASecrets(s.st) && s.ca == Some(p) && p.At? && Writes(p.pc)
    ensures Measure(Next(s, CallCA)) < Measure(s)
  {
    var at := CATarget(s.st, p.req);
    var (p', st') := C.StoreStep(p, s.st, Fine);
    var t := Next(s, CallCA);
    assert CAHealthy(s, p.req);
    WriteCallMade(p, s.st);
    if (p.pc.UpdateOld? && at !in s.st.secrets) || (!p.pc.UpdateOld? && at in s.st.secrets) {
      UnwrittenLowers(s, p, p', t);
    } else {
      DoneCA(s, p.req, st');
      if p.pc.CreateNew? {
        CreateNewLowers(s, p, st', t);
      } else if V.Settled(s.st, p.req) {
        SettledUpdateIsIdle(p, s.st);
        IdleUpdateLowers(s, p, t);
      } else {
        WrittenIsSettled(p, st');
        SettlingLowers(s, st', p.req, t);
      }
    }
  }

  lemma CallCALowers(s: State)
    requires Inv(s) && DistinctCASecrets(s.st) && s.ca.Some?
    ensures Measure(Next(s, CallCA)) < Measure(s)
  {
    var p := s.ca.value;
    if p.At? && Writes(p.pc) {
      WriteCallLowers(s, p);
    } else {
      var (p', st') := C.Step(0, p, s.st, Fine);
      var t := Next(s, CallCA);
      if p.Load? {
        QuietCA(s, p.req, p', st');
        OpenStays(s, t);
      } else {
        assert CAHealthy(s, p.req);
        VaultCallMade(p, s.st);
        QuietCA(s, p.req, p', st');
        VaultCallLowers(s, p, p', st', t);
      }
    }
  }

  // --- The InternalCertificate controller ---

  // An issue that fails because the engine is still to come; the secret is absent as before.
  predicate Retry(s: State, pick: Pick) {
    && pick.CallCertificate? && s.cert.Some? && s.cert.value.At? && Issues(s.cert.value.pc)
    && !CanIssue(s.st, s.cert.value.cr)
    && Name(s.cert.value.req.ns, s.cert.value.cr.secret) !in s.st.secrets
  }

  lemma PickUpCertificateLowers(s: State, n: Name)
    requires Enabled(s, PickUpCertificate(n)) && Flying(s)
    ensures Measure(Next(s, PickUpCertificate(n))) == Measure(s) - 15
  {
    var t := Next(s, PickUpCertificate(n));
    assert |t.certs| == |s.certs| - 1;
    assert Open(t) == Open(s);
  }

  // A call after which the invocation goes on, with nothing changed but what it knows.
  lemma GoingOnLowers(s: State, p: I.Proc, p': I.Proc, st': Store, t: State)
    requires CertFlight(s) && s.cert == Some(p) && !p.Done? && p'.At? && p'.req == p.req
    requires st'.mounts == s.st.mounts && SameObjects(s.st, st') && t == s.(st := st', cert := Some(p'))
    requires p.Load? ==> Gets(p'.pc)
    requires p.At? && Gets(p.pc) && !Gets(p'.pc) ==> p.req in s.st.certs && CertTarget(s.st, p.req) !in s.st.secrets
    requires p.At? && !Gets(p.pc) ==> !Gets(p'.pc)
    ensures Measure(t) == Measure(s) - I.Rank(p) + I.Rank(p')
  {
    assert Open(t) == Open(s);
    assert Unsettled(st') == Unsettled(s.st);
  }

  // The end of an invocation that changed nothing; one that fails had a secret to its name open.
  lemma StoppingLowers(s: State, p: I.Proc, err: bool, t: State)
    requires CertFlight(s) && s.cert == Some(p) && !p.Done?
    requires t == s.(cert := None, certs := s.certs + if err then {p.req} else {})
    requires err ==> p.At? && !Gets(p.pc) && CertTarget(s.st, p.req) in s.st.secrets
    ensures Measure(t) <= Measure(s) - I.Rank(p)
  {
    if err {
      assert p.req in Open(s) && p.req !in Open(t);
      SubsetSize(Open(t), Open(s) - {p.req});
    } else {
      SubsetSize(Open(t), Open(s));
    }
  }

  lemma WriteIsOfOne(st: Store, st': Store, at: Name)
    requires WriteOnly(st, st', at) && at in st'.secrets
    ensures st'.secrets == st.secrets[at := st'.secrets[at]] && Unbegun(st') == Unbegun(st)
  {
  }

  lemma OpenCloses(s: State, t: State, p: I.Proc)
    requires CertFlight(s) && s.cert == Some(p) && p.At? && t.cert.None? && !Gets(p.pc)
    requires WriteOnly(s.st, t.st, CertTarget(s.st, p.req)) && CertTarget(s.st, p.req) in t.st.secrets
    ensures |Open(t)| < |Open(s)|
  {
    assert p.req in Open(s) && p.req !in Open(t);
    SubsetSize(Open(t), Open(s) - {p.req});
  }

  // The first secret of a certificate; an InternalClientCA may have been about to create it.
  lemma CreatingLowers(s: State, p: I.Proc, st': Store, t: State)
    requires CertFlight(s) && s.cert == Some(p) && p.At? && !Gets(p.pc)
    requires var at := CertTarget(s.st, p.req); WriteOnly(s.st, st', at) && at !in s.st.secrets && at in st'.secrets
    requires t == Wake(s, st').(cert := None)
    ensures Measure(t) + 50 <= Measure(s)
  {
    var at := CertTarget(s.st, p.req);
    CreateUnsettlesNone(s.st, st', at);
    OpenCloses(s, t, p);
    WriteIsOfOne(s.st, st', at);
    WriteWakes(s, st', at);
  }

  lemma UpdateUnsettlesOne(st: Store, st': Store, at: Name)
    requires DistinctCASecrets(st) && WriteOnly(st, st', at)
    ensures |Unsettled(st')| <= |Unsettled(st)| + 1
  {
    if n :| n in st.cas && CATarget(st, n) == at {
      forall m | m in Unsettled(st') ensures m in Unsettled(st) + {n} {
        if m != n {
          assert CATarget(st, m) != CATarget(st, n);
        }
      }
      SubsetSize(Unsettled(st'), Unsettled(st) + {n});
    } else {
      SubsetSize(Unsettled(st'), Unsettled(st));
    }
  }

  // The replacement of a secret that appeared meanwhile may unsettle the InternalClientCA it was for.
  lemma ReplacingLowers(s: State, p: I.Proc, st': Store, t: State)
    requires CertFlight(s) && DistinctCASecrets(s.st) && s.cert == Some(p) && p.At? && p.pc.UpdateClient?
    requires WriteOnly(s.st, st', CertTarget(s.st, p.req)) && t == Wake(s, st').(cert := None)
    ensures Measure(t) < Measure(s)
  {
    var at := CertTarget(s.st, p.req);
    UpdateUnsettlesOne(s.st, st', at);
    OpenCloses(s, t, p);
    WriteIsOfOne(s.st, st', at);
    WriteWakes(s, st', at);
  }

  lemma DoneCertificate(s: State, req: Name, st': Store)
    ensures AfterCertificate(s, req, I.Done(false), st') == Wake(s, st').(cert := None)
  {
    assert Wake(s, st').certs + {} == Wake(s, st').certs;
  }

  lemma QuietEndLowers(s: State, p: I.Proc, t: State)
    requires CertFlight(s) && s.cert == Some(p) && !p.Done? && t == s.(cert := None)
    ensures Measure(t) < Measure(s)
  {
    assert s.certs + {} == s.certs;
    StoppingLowers(s, p, false, t);
  }

  lemma LoadNext(s: State) returns (p': I.Proc)
    requires Inv(s) && s.cert.Some? && s.cert.value.Load?
    ensures Next(s, CallCertificate) == s.(cert := if p'.At? then Some(p') else None)
    ensures p' == I.Done(false) || (p'.At? && Gets(p'.pc) && p'.req == s.cert.value.req)
  {
    var p := s.cert.value;
    assert p.req in s.st.certs ==> CertHealthy(s, p.req);
    p' := I.Step(p, s.st, Fine).0;
    QuietCertificate(s, p.req, p', s.st);
    assert s.certs + {} == s.certs;
  }

  lemma LoadLowers(s: State, p: I.Proc, p': I.Proc, t: State)
    requires CertFlight(s) && s.cert == Some(p) && p.Load? && t == s.(cert := if p'.At? then Some(p') else None)
    requires p'.At? ==> Gets(p'.pc) && p'.req == p.req
    ensures Measure(t) < Measure(s) && (t.cert.Some? ==> Measure(t) == Measure(s) - 1)
  {
    if p'.At? {
      GoingOnLowers(s, p, p', s.st, t);
    } else {
      QuietEndLowers(s, p, t);
    }
  }

  lemma GetNext(s: State, p: I.Proc) returns (p': I.Proc)
    requires Inv(s) && s.cert == Some(p) && p.At? && Gets(p.pc)
    ensures Next(s, CallCertificate) == s.(cert := if p'.At? then Some(p') else None)
    ensures p' == I.Done(false) ||
      (p'.At? && Issues(p'.pc) && p'.req == p.req && CertTarget(s.st, p.req) !in s.st.secrets)
  {
    CertCallMade(s, p);
    p' := I.Step(p, s.st, Fine).0;
    QuietCertificate(s, p.req, p', s.st);
    assert s.certs + {} == s.certs;
  }

  lemma GetLowers(s: State, p: I.Proc, p': I.Proc, t: State)
    requires CertFlight(s) && s.cert == Some(p) && p.At? && Gets(p.pc) && t == s.(cert := if p'.At? then Some(p') else None)
    requires p'.At? ==> Issues(p'.pc) && p'.req == p.req && CertTarget(s.st, p.req) !in s.st.secrets
    ensures Measure(t) < Measure(s) && (t.cert.Some? ==> Measure(t) == Measure(s) - 1)
  {
    if p'.At? {
      GoingOnLowers(s, p, p', s.st, t);
    } else {
      QuietEndLowers(s, p, t);
    }
  }

  lemma IssuedNext(s: State, p: I.Proc) returns (p': I.Proc, st': Store)
    requires Inv(s) && s.cert == Some(p) && p.At? && Issues(p.pc) && CanIssue(s.st, p.cr)
    ensures Next(s, CallCertificate) == s.(st := st', cert := Some(p'))
    ensures st'.mounts == s.st.mounts && SameObjects(s.st, st')
    ensures p'.At? && p'.req == p.req && !Gets(p'.pc) && I.Rank(p') == I.Rank(p) - 1
  {
    p', st' := I.Step(p, s.st, Fine).0, I.Step(p, s.st, Fine).1;
    CertCallMade(s, p);
    QuietCertificate(s, p.req, p', st');
  }

  lemma IssuedLowers(s: State, p: I.Proc)
    requires Inv(s) && s.cert == Some(p) && p.At? && Issues(p.pc) && CanIssue(s.st, p.cr)
    ensures var t := Next(s, CallCertificate); t.cert.Some? && Measure(t) == Measure(s) - 1
  {
    var p', st' := IssuedNext(s, p);
    GoingOnLowers(s, p, p', st', s.(st := st', cert := Some(p')));
  }

  lemma NotIssued(s: State, p: I.Proc)
    requires Inv(s) && s.cert == Some(p) && p.At? && Issues(p.pc) && !CanIssue(s.st, p.cr)
    ensures Next(s, CallCertificate) == s.(cert := None, certs := s.certs + {p.req})
  {
    CertCallMade(s, p);
    QuietCertificate(s, p.req, I.Done(true), s.st);
  }

  // The secret is as open as before, and the request is queued again.
  lemma RetryRaises(s: State, p: I.Proc, t: State)
    requires s.cert == Some(p) && p.At? && Issues(p.pc) && p.req in s.st.certs && CertTarget(s.st, p.req) !in s.st.secrets
    requires t == s.(cert := None, certs := s.certs + {p.req})
    ensures Measure(t) <= Measure(s) + 17
  {
    assert Open(t) == Open(s);
  }

  lemma IssueLowers(s: State, p: I.Proc)
    requires Inv(s) && s.cert == Some(p) && p.At? && Issues(p.pc)
    ensures var t := Next(s, CallCertificate);
      && (CanIssue(s.st, p.cr) ==> t.cert.Some? && Measure(t) == Measure(s) - 1)
      && (!CanIssue(s.st, p.cr) && !Retry(s, CallCertificate) ==> Measure(t) < Measure(s))
      && (Retry(s, CallCertificate) ==> t.cert.None? && Measure(t) <= Measure(s) + 17)
  {
    if CanIssue(s.st, p.cr) {
      IssuedLowers(s, p);
    } else {
      NotIssued(s, p);
      if CertTarget(s.st, p.req) in s.st.secrets {
        StoppingLowers(s, p, true, Next(s, CallCertificate));
      } else {
        RetryRaises(s, p, Next(s, CallCertificate));
      }
    }
  }

  // A name that is taken: the client branch goes on to its Update, the server branch fails.
  lemma TakenNext(s: State, p: I.Proc)
    requires Inv(s) && s.cert == Some(p) && p.At? && !Gets(p.pc) && !Issues(p.pc) && !Stores(p, s.st)
    ensures Next(s, CallCertificate) ==
      if p.pc.CreateClient? then s.(cert := Some(p.(pc := I.UpdateClient)))
      else s.(cert := None, certs := s.certs + {p.req})
  {
    CertCallMade(s, p);
    QuietCertificate(s, p.req, if p.pc.CreateClient? then p.(pc := I.UpdateClient) else I.Done(true), s.st);
  }

  lemma TakenLowers(s: State, p: I.Proc)
    requires Inv(s) && s.cert == Some(p) && p.At? && !Gets(p.pc) && !Issues(p.pc) && !Stores(p, s.st)
    ensures Measure(Next(s, CallCertificate)) < Measure(s)
  {
    TakenNext(s, p);
    if p.pc.CreateClient? {
      var p' := p.(pc := I.UpdateClient);
      GoingOnLowers(s, p, p', s.st, s.(cert := Some(p')));
    } else {
      StoppingLowers(s, p, true, Next(s, CallCertificate));
    }
  }

  lemma StoredNext(s: State, p: I.Proc) returns (st': Store)
    requires Inv(s) && s.cert == Some(p) && p.At? && Stores(p, s.st)
    ensures Next(s, CallCertificate) == Wake(s, st').(cert := None)
    ensures WriteOnly(s.st, st', CertTarget(s.st, p.req)) && CertTarget(s.st, p.req) in st'.secrets
  {
    CertCallMade(s, p);
    st' := I.Step(p, s.st, Fine).1;
    DoneCertificate(s, p.req, st');
  }

  lemma StoreLowers(s: State, p: I.Proc)
    requires Inv(s) && DistinctCASecrets(s.st) && s.cert == Some(p) && p.At? && !Gets(p.pc) && !Issues(p.pc)
    ensures var t := Next(s, CallCertificate);
      && Measure(t) < Measure(s)
      && (CertTarget(s.st, p.req) !in s.st.secrets ==> Measure(t) + 50 <= Measure(s) && t.cert.None?)
  {
    if !Stores(p, s.st) {
      TakenLowers(s, p);
    } else {
      var st' := StoredNext(s, p);
      if p.pc.UpdateClient? {
        ReplacingLowers(s, p, st', Wake(s, st').(cert := None));
      } else {
        CreatingLowers(s, p, st', Wake(s, st').(cert := None));
      }
    }
  }

  // --- Every step ---

  // Every pick-up and every call lowers the measure, but an issue that has to be tried again.
  lemma StepLowers(s: State, pick: Pick)
    requires Inv(s) && DistinctCASecrets(s.st) && Enabled(s, pick)
    ensures Measure(Next(s, pick)) < Measure(s) + if Retry(s, pick) then 18 else 0
  {
    match pick
    case PickUpCA(n) => PickUpCALowers(s, n);
    case CallCA => CallCALowers(s);
    case PickUpCertificate(n) => PickUpCertificateLowers(s, n);
    case CallCertificate =>
      var p := s.cert.value;
      if p.Load? {
        var p' := LoadNext(s);
        LoadLowers(s, p, p', Next(s, CallCertificate));
      } else if Gets(p.pc) {
        var p' := GetNext(s, p);
        GetLowers(s, p, p', Next(s, CallCertificate));
      } else if Issues(p.pc) {
        IssueLowers(s, p);
      } else {
        StoreLowers(s, p);
      }
  }

  // What an invocation that may yet have to be tried again has used up since it was queued.
  function Spent(s: State): nat {
    if s.cert.None? || s.cert.value.Done? || s.cert.value.req !in s.st.certs ||
      CertTarget(s.st, s.cert.value.req) in s.st.secrets then 0
    else 20 - I.Rank(s.cert.value)
  }

  // With that added back, no step raises the measure, and those of the InternalClientCA controller
  // lower it, however often a certificate is tried again.
  lemma StepNeverRaises(s: State, pick: Pick)
    requires Inv(s) && DistinctCASecrets(s.st) && Enabled(s, pick)
    ensures var t := Next(s, pick);
      && Measure(t) + Spent(t) <= Measure(s) + Spent(s)
      && (pick.PickUpCA? || pick.CallCA? ==> Measure(t) + Spent(t) < Measure(s) + Spent(s))
  {
    match pick
    case PickUpCA(n) => PickUpCALowers(s, n);
    case CallCA =>
      CallCALowers(s);
      CallCAKeepsSecrets(s);
    case PickUpCertificate(n) => PickUpCertificateLowers(s, n);
    case CallCertificate =>
      var p := s.cert.value;
      if p.Load? {
        var p' := LoadNext(s);
        LoadLowers(s, p, p', Next(s, CallCertificate));
        LoadSpends(s);
      } else if Gets(p.pc) {
        var p' := GetNext(s, p);
        GetLowers(s, p, p', Next(s, CallCertificate));
        GetSpends(s, p);
      } else if Issues(p.pc) {
        IssueLowers(s, p);
        IssueSpends(s, p);
      } else {
        StoreLowers(s, p);
        StoreSpends(s, p);
      }
  }

  lemma CallCAKeepsSecrets(s: State)
    requires Inv(s) && s.ca.Some?
    ensures Spent(Next(s, CallCA)) <= Spent(s)
  {
    var p := s.ca.value;
    if p.At? {
      assert CAHealthy(s, p.req);
      if Writes(p.pc) {
        WriteCallMade(p, s.st);
        SpentFalls(s, Next(s, CallCA));
      } else {
        VaultCallMade(p, s.st);
        SpentFalls(s, Next(s, CallCA));
      }
    }
  }

  lemma SpentFalls(s: State, t: State)
    requires t.cert == s.cert && t.st.certs == s.st.certs && s.st.secrets.Keys <= t.st.secrets.Keys
    ensures Spent(t) <= Spent(s)
  {
  }

  lemma LoadSpends(s: State)
    requires Inv(s) && s.cert.Some? && s.cert.value.Load?
    ensures var t := Next(s, CallCertificate); Spent(t) <= Spent(s) + if t.cert.Some? then 1 else 0
  {
    var p' := LoadNext(s);
  }

  lemma GetSpends(s: State, p: I.Proc)
    requires Inv(s) && s.cert == Some(p) && p.At? && Gets(p.pc)
    ensures var t := Next(s, CallCertificate); Spent(t) <= Spent(s) + if t.cert.Some? then 1 else 0
  {
    var p' := GetNext(s, p);
  }

  lemma IssueSpends(s: State, p: I.Proc)
    requires Inv(s) && s.cert == Some(p) && p.At? && Issues(p.pc)
    ensures var t := Next(s, CallCertificate);
      && Spent(t) <= Spent(s) + (if t.cert.Some? then 1 else 0)
      && (t.cert.None? ==> Spent(t) == 0)
      && (Retry(s, CallCertificate) ==> Spent(s) == 17)
  {
    if CanIssue(s.st, p.cr) {
      var p', st' := IssuedNext(s, p);
    } else {
      NotIssued(s, p);
    }
  }

  lemma StoreSpends(s: State, p: I.Proc)
    requires Inv(s) && s.cert == Some(p) && p.At? && !Gets(p.pc) && !Issues(p.pc)
    ensures var t := Next(s, CallCertificate);
      && Spent(s) <= 20
      && (CertTarget(s.st, p.req) in s.st.secrets || t.cert.None? ==> Spent(t) == 0)
  {
    if Stores(p, s.st) {
      var st' := StoredNext(s, p);
    } else {
      TakenNext(s, p);
    }
  }
}
