/** What one run of a reconciler ends with, whatever others do before its calls and whatever happens
    to the calls themselves. */
module Outcomes {
  import opened Options
  import opened Pki
  import opened MountNames
  import opened Faults
  import opened Environment
  import R = Reconcilers
  import C = ClientCA
  import I = InternalCert

  // --- InternalClientCA ---

  // A call that is not served ends the invocation with an error; only the read of the root token
  // does not, and leaves the invocation with an empty certificate.
  lemma UnservedClientCACall(id: nat, p: C.Proc, st: Store, f: Fault)
    requires !p.Done? && !f.Fine?
    ensures var p' := C.Step(id, p, st, f).0;
      p' == if p.At? && p.pc.RootToken? then C.At(C.CreateNew, p.req, p.cr, []) else C.Done(true)
  {
  }

  // A lost call has no effect, and one whose reply is lost has the effect of one that is served.
  lemma FaultyClientCACall(id: nat, p: C.Proc, st: Store)
    ensures C.Step(id, p, st, Lost).1 == st
    ensures C.Step(id, p, st, Unanswered).1 == C.Step(id, p, st, Fine).1
  {
  }

  // How many calls from the given point on the token is read, where it is.
  function TokenCall(p: C.Proc): nat {
    match p
    case Load(_) => 8
    case Done(_) => 100
    case At(pc, _, _, _) =>
      match pc
      case ListMounts => 7
      case EnableIt => 6
      case TuneIt => 5
      case RootIt => 4
      case UrlsIt => 3
      case RoleIt => 2
      case ClusterConfig => 1
      case RootToken => 0
      case CreateNew => 100
      case ReadChain => 100
      case UpdateOld => 100
      case CreateMissing => 100
  }

  // The resource's secret holds one entry, and the entry one certificate or none.
  predicate HoldsCA(st: Store, req: Name, cr: CAResource) {
    var at := Name(req.ns, cr.secret);
    && at in st.secrets && st.secrets[at].owner == CAOwner(req)
    && st.secrets[at].data.Keys == {cr.certName}
    && |st.secrets[at].data[cr.certName]| <= 1
  }

  predicate ServedBut(turns: nat -> R.Turn, from: nat, to: nat, except: nat) {
    forall i :: from <= i < to && i != except ==> turns(i).f.Fine?
  }

  lemma WriteEnds(p: C.Proc, st: Store, f: Fault)
    requires p.At? && (p.pc.CreateNew? || p.pc.UpdateOld? || p.pc.CreateMissing?) && |p.text| <= 1
    ensures var (p', st') := C.StoreStep(p, st, f); p' == C.Done(false) ==> HoldsCA(st', p.req, p.cr)
  {
  }

  lemma ClientCAStepKeepsText(id: nat, p: C.Proc, st: Store, f: Fault)
    requires p.At? && !p.pc.CreateNew? && !p.pc.UpdateOld? && !p.pc.CreateMissing? && |p.text| <= 1
    ensures var p' := C.Step(id, p, st, f).0;
      p' == C.Done(true) || (p'.At? && p'.req == p.req && p'.cr == p.cr && |p'.text| <= 1)
  {
  }

  lemma {:induction false} ClientCACalls(id: nat, p: C.Proc, st: Store, turns: nat -> R.Turn, k: nat)
    ensures k <= R.RunClientCA(id, p, st, turns, k).1 <= k + C.Rank(p)
    decreases C.Rank(p)
  {
    if p.Done? {
    } else {
      var now := turns(k).others(st);
      var seen := if p.Load? then turns(k).cached(now) else now;
      C.StepLowersRank(id, p, seen, turns(k).f);
      var (p', st') := C.Step(id, p, seen, turns(k).f);
      ClientCACalls(id, p', if p.Load? then now else st', turns, k + 1);
    }
  }

  lemma TokenIsNearer(id: nat, p: C.Proc, st: Store)
    requires p.At? && C.Step(id, p, st, Fine).0.At?
    ensures var p' := C.Step(id, p, st, Fine).0;
      TokenCall(p') >= 100 || (TokenCall(p) < 100 && TokenCall(p') + 1 == TokenCall(p))
  {
  }

  // What the rest of a run adds to one call.
  lemma OneMoreServed(turns: nat -> R.Turn, k: nat, end: nat, token: nat, later: nat)
    requires ServedBut(turns, k + 1, end, k + 1 + later) && end <= k + 13
    requires (turns(k).f.Fine? && (later >= 100 || later + 1 == token)) || (token == 0 && later >= 100)
    ensures ServedBut(turns, k, end, k + token)
  {
    forall i | k <= i < end && i != k + token ensures turns(i).f.Fine? {
      if i != k {
        assert i != k + 1 + later;
      }
    }
  }

  lemma {:induction false} ClientCARestStores(id: nat, p: C.Proc, st: Store, turns: nat -> R.Turn, k: nat)
    requires p.At? && |p.text| <= 1
    ensures var (st', _, err) := R.RunClientCA(id, p, st, turns, k);
      !err ==> HoldsCA(st', p.req, p.cr)
    decreases C.Rank(p)
  {
    var now, f := turns(k).others(st), turns(k).f;
    var (p', st') := C.Step(id, p, now, f);
    C.StepLowersRank(id, p, now, f);
    if p.pc.CreateNew? || p.pc.UpdateOld? || p.pc.CreateMissing? {
      WriteEnds(p, now, f);
    } else {
      ClientCAStepKeepsText(id, p, now, f);
    }
    if p'.At? {
      ClientCARestStores(id, p', st', turns, k + 1);
    }
  }

  lemma {:induction false} ClientCARestServed(id: nat, p: C.Proc, st: Store, turns: nat -> R.Turn, k: nat)
    requires p.At?
    ensures var (_, k', err) := R.RunClientCA(id, p, st, turns, k);
      !err ==> ServedBut(turns, k, k', k + TokenCall(p))
    decreases C.Rank(p)
  {
    var now, f := turns(k).others(st), turns(k).f;
    var (p', st') := C.Step(id, p, now, f);
    C.StepLowersRank(id, p, now, f);
    if !f.Fine? {
      UnservedClientCACall(id, p, now, f);
    } else if p'.At? {
      TokenIsNearer(id, p, now);
    }
    if p'.At? {
      ClientCARestServed(id, p', st', turns, k + 1);
      ClientCACalls(id, p', st', turns, k + 1);
      if !R.RunClientCA(id, p', st', turns, k + 1).2 {
        OneMoreServed(turns, k, R.RunClientCA(id, p', st', turns, k + 1).1, TokenCall(p), TokenCall(p'));
      }
    }
  }

  // A run that ends without an error found no resource, or has left the resource's secret holding
  // its certificate or none; and every call was served but, perhaps, the read of the root token.
  lemma ClientCARunSucceeds(id: nat, req: Name, st: Store, turns: nat -> R.Turn, k: nat)
    requires !R.RunClientCA(id, C.Load(req), st, turns, k).2
    ensures var (st', k', _) := R.RunClientCA(id, C.Load(req), st, turns, k);
      var now := turns(k).others(st);
      var seen := turns(k).cached(now);
      && ServedBut(turns, k, k', k + 8)
      && (if req in seen.cas then HoldsCA(st', req, seen.cas[req]) else st' == now && k' == k + 1)
  {
    var now, f := turns(k).others(st), turns(k).f;
    var seen := turns(k).cached(now);
    R.LoadTurn(id, req, st, turns, k);
    if f.Fine? && req in seen.cas {
      var p := C.At(C.ListMounts, req, seen.cas[req], []);
      ClientCARestStores(id, p, now, turns, k + 1);
      ClientCARestServed(id, p, now, turns, k + 1);
      ClientCACalls(id, p, now, turns, k + 1);
      OneMoreServed(turns, k, R.RunClientCA(id, p, now, turns, k + 1).1, 8, 7);
    }
  }

  // --- InternalCertificate ---

  // An unserved call ends the invocation with an error, but for the Get: the client branch goes on to
  // issue, and the server branch ends without an error.
  lemma UnservedCertificateCall(p: I.Proc, st: Store, f: Fault)
    requires !p.Done? && !f.Fine? && (p.At? && p.pc in {I.CreateClient, I.UpdateClient, I.CreateServer} ==> p.answer.Some?)
    ensures var p' := I.Step(p, st, f).0;
      p' ==
        if p.At? && p.pc.GetClient? then I.At(I.IssueClient, p.req, p.cr, p.answer, None)
        else if p.At? && p.pc.GetServer? then I.Done(false)
        else I.Done(true)
  {
  }

  lemma FaultyCertificateCall(p: I.Proc, st: Store)
    ensures I.Step(p, st, Lost).1 == st
    ensures I.Step(p, st, Unanswered).1 == I.Step(p, st, Fine).1
  {
  }

  // The secret holds the key and, first under the certificate's name, the leaf of one answer of the
  // engine that the resource's usage asks for.
  predicate HoldsPair(st: Store, req: Name, cr: CertResource, i: Issued) {
    var at := Name(req.ns, cr.secret);
    && i.path == (if cr.clientAuth then Client(cr.issuer) else IntermMount)
    && at in st.secrets && st.secrets[at].owner == CertOwner(req)
    && st.secrets[at].data == map[cr.keyName := [KeyBlock(i.key)]]
         [cr.certName := [CertBlock(i.cert)] + if cr.clientAuth || i.chain == [] then [] else [CertBlock(i.chain[0])]]
  }

  lemma StoreEnds(p: I.Proc, st: Store, f: Fault)
    requires p.At? && p.answer.Some? && p.pc in {I.CreateClient, I.UpdateClient, I.CreateServer}
    requires p.answer.value.path == if p.cr.clientAuth then Client(p.cr.issuer) else IntermMount
    ensures var (p', st') := I.Step(p, st, f);
      && (p' == I.Done(false) ==> HoldsPair(st', p.req, p.cr, p.answer.value))
      && (p'.At? ==> p' == p.(pc := I.UpdateClient) && f.Fine?)
      && (p' == I.Done(false) ==> f.Fine?)
  {
    assert [CertBlock(p.answer.value.cert)] + [] == [CertBlock(p.answer.value.cert)];
  }

  lemma {:induction false} StoringEnds(p: I.Proc, st: Store, turns: nat -> R.Turn, k: nat)
    requires p.At? && p.answer.Some? && p.pc in {I.CreateClient, I.UpdateClient, I.CreateServer}
    requires p.answer.value.path == if p.cr.clientAuth then Client(p.cr.issuer) else IntermMount
    ensures var (st', k', err) := R.RunCertificate(p, st, turns, k);
      !err ==> HoldsPair(st', p.req, p.cr, p.answer.value) && ServedFrom(turns, k, k')
    decreases I.Rank(p)
  {
    var now, f := turns(k).others(st), turns(k).f;
    var (p', st') := I.Step(p, now, f);
    I.StepLowersRank(p, now, f);
    StoreEnds(p, now, f);
    if p'.At? {
      StoringEnds(p', st', turns, k + 1);
    }
  }

  predicate ServedFrom(turns: nat -> R.Turn, from: nat, to: nat) {
    forall i :: from <= i < to ==> turns(i).f.Fine?
  }

  lemma IssuingEnds(p: I.Proc, st: Store, turns: nat -> R.Turn, k: nat)
    requires p.At? && p.pc == if p.cr.clientAuth then I.IssueClient else I.IssueServer
    ensures var (st', k', err) := R.RunCertificate(p, st, turns, k);
      !err ==> ServedFrom(turns, k, k') && exists i :: HoldsPair(st', p.req, p.cr, i)
  {
    var now, f := turns(k).others(st), turns(k).f;
    var (p', st') := I.Step(p, now, f);
    I.StepLowersRank(p, now, f);
    if p'.At? {
      StoringEnds(p', st', turns, k + 1);
    }
  }

  // A run that ends without an error found no resource or one of no usage; or its Get found the
  // secret, or was not served on the server branch; or the secret holds a pair of the engine of the
  // usage. Every other call was served.
  lemma CertificateRunSucceeds(req: Name, st: Store, turns: nat -> R.Turn, k: nat)
    requires !R.RunCertificate(I.Load(req), st, turns, k).2
    ensures var (st', k', _) := R.RunCertificate(I.Load(req), st, turns, k);
      var now := turns(k).others(st);
      var seen := turns(k).cached(now);
      var next := turns(k + 1).others(now);
      && turns(k).f.Fine? && ServedFrom(turns, k + 2, k')
      && if req !in seen.certs || !(seen.certs[req].clientAuth || seen.certs[req].serverAuth)
         then st' == now && k' == k + 1
         else
           var cr := seen.certs[req];
           var found := Name(req.ns, cr.secret) in turns(k + 1).cached(next).secrets;
           if (turns(k + 1).f.Fine? && found) || (!turns(k + 1).f.Fine? && !cr.clientAuth)
           then st' == next && k' == k + 2
           else exists i :: HoldsPair(st', req, cr, i)
  {
    var now := turns(k).others(st);
    var seen := turns(k).cached(now);
    R.CertificateLoadTurn(req, st, turns, k);
    if turns(k).f.Fine? && req in seen.certs && (seen.certs[req].clientAuth || seen.certs[req].serverAuth) {
      GettingEnds(req, seen.certs[req], now, turns, k + 1);
    }
  }

  lemma GettingEnds(req: Name, cr: CertResource, st: Store, turns: nat -> R.Turn, k: nat)
    ensures var p := I.At(if cr.clientAuth then I.GetClient else I.GetServer, req, cr, None, None);
      var (st', k', err) := R.RunCertificate(p, st, turns, k);
      var now := turns(k).others(st);
      var found := Name(req.ns, cr.secret) in turns(k).cached(now).secrets;
      !err ==>
        && ServedFrom(turns, k + 1, k')
        && if (turns(k).f.Fine? && found) || (!turns(k).f.Fine? && !cr.clientAuth)
           then st' == now && k' == k + 1
           else exists i :: HoldsPair(st', req, cr, i)
  {
    var p := I.At(if cr.clientAuth then I.GetClient else I.GetServer, req, cr, None, None);
    var now := turns(k).others(st);
    var p' := I.Step(p, turns(k).cached(now), turns(k).f).0;
    if p'.At? {
      IssuingEnds(p', now, turns, k + 1);
    }
  }

  // A resource that is gone, or asks for no usage, is no error, and nothing is done about it.
  lemma AbsentResourceIsIgnored(id: nat, req: Name, st: Store, turns: nat -> R.Turn, k: nat)
    requires turns(k).f.Fine?
    ensures var now := turns(k).others(st);
      var seen := turns(k).cached(now);
      && (req !in seen.cas ==> R.RunClientCA(id, C.Load(req), st, turns, k) == (now, k + 1, false))
      && (req !in seen.certs || !(seen.certs[req].clientAuth || seen.certs[req].serverAuth) ==>
        R.RunCertificate(I.Load(req), st, turns, k) == (now, k + 1, false))
  {
  }
}
