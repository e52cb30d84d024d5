/** What becomes of the PKI job when its calls are not served. */
module PkiOutcomes {
  import opened Options
  import opened Pki
  import opened MountNames
  import opened Faults
  import opened Environment
  import opened PkiJob
  import P = PkiProgram

  // The steps of the main flow that read the shared error instead of making a call.
  predicate IsTest(m: Main) {
    m.UrlsRootTest? || m.RoleRootTest?
  }

  // An unserved call of the main flow ends the process, but for the two Enables, whose errors are
  // dropped, and for the two calls that leave theirs in the shared variable.
  lemma UnservedMainCall(j: Job, st: Store, f: Fault)
    requires !f.Fine? && !IsTest(j.main) && !j.main.Exit?
    ensures MainStep(j, st, f).0 ==
      match j.main
      case EnableRoot => Some(j.(main := TuneRoot))
      case EnableInterm => Some(j.(main := TuneInterm))
      case UrlsRoot => Some(j.(main := UrlsRootTest, err := Other, urlsLost := f.Lost?))
      case RoleRoot => Some(j.(main := RoleRootTest, err := Other))
      case _ => None
  {
  }

  lemma LostMainCall(j: Job, st: Store)
    requires !IsTest(j.main)
    ensures MainStep(j, st, Lost).1 == st
  {
  }

  lemma UnansweredRootCall(j: Job, st: Store)
    requires OnRoot(j.main)
    ensures MainStep(j, st, Unanswered).1 == MainStep(j, st, Fine).1
  {
  }

  lemma UnansweredIntermCall(j: Job, st: Store)
    requires !OnRoot(j.main)
    ensures MainStep(j, st, Unanswered).1 == MainStep(j, st, Fine).1
  {
  }

  // Whatever the error is that it finds, a test lets the main flow pass exactly when there is none.
  lemma TestPassesIff(j: Job, st: Store, f: Fault)
    requires IsTest(j.main)
    ensures MainStep(j, st, f).0.Some? <==> j.err.Nil?
    ensures j.main.UrlsRootTest? && j.err.Nil? ==> MainStep(j, st, f).0 == Some(j.(main := RoleRoot))
  {
  }

  // --- The goroutine ---

  // The goroutine to its end, nobody else touching the error or the secret; None is the end of the
  // process. `fs` says what happens to its calls, in order.
  function Alone(j: Job, st: Store, fs: nat -> Fault, k: nat): (Option<Job>, Store)
    decreases P.PersisterRank(j.persister)
  {
    if P.PersisterRank(j.persister) == 0 then (Some(j), st)
    else
      var (j', st') := PersisterStep(j, st, fs(k));
      if j'.None? then (None, st') else Alone(j'.value, st', fs, k + 1)
  }

  lemma AloneStep(j: Job, st: Store, fs: nat -> Fault, k: nat)
    requires P.PersisterRank(j.persister) != 0
    ensures var (j', st') := PersisterStep(j, st, fs(k));
      Alone(j, st, fs, k) == if j'.None? then (None, st') else Alone(j'.value, st', fs, k + 1)
  {
  }

  // Create, two tests, Get, Update, test: the process lives on exactly when the Create found no
  // secret and was served, or it found one with entries and all three calls were served; and then
  // the secret holds the root under "ca.pem" and whatever else it held.
  lemma AloneSurvivesIff(j: Job, st: Store, root: Cert, fs: nat -> Fault, k: nat)
    requires j.persister == Creating(root)
    ensures var (j', st') := Alone(j, st, fs, k);
      var at := Name(st.home, "sip-root-ca");
      && (j'.Some? <==>
        fs(k).Fine? && (at in st.secrets ==> st.secrets[at].data != map[] && fs(k + 3).Fine? && fs(k + 4).Fine?))
      && (j'.Some? ==>
        && at in st'.secrets
        && st'.secrets[at].data == (if at in st.secrets then st.secrets[at].data else map[])["ca.pem" := [CertBlock(root)]])
      && st'.secrets - {at} == st.secrets - {at}
  {
    var at := Name(st.home, "sip-root-ca");
    var (j1, st1) := PersisterStep(j, st, fs(k));
    AloneStep(j, st, fs, k);
    AloneStep(j1.value, st1, fs, k + 1);
    if !j1.value.err.Nil? {
      var j2 := j1.value.(persister := ExistsTest(root));
      AloneStep(j2, st1, fs, k + 2);
      if j2.err.Exists? {
        assert st1 == st;
        ReplacingSurvivesIff(j2.(persister := Getting(root)), st, root, fs, k + 3);
      }
    }
  }

  lemma ReplacingSurvivesIff(j: Job, st: Store, root: Cert, fs: nat -> Fault, k: nat)
    requires j.persister == Getting(root) && Name(st.home, "sip-root-ca") in st.secrets
    ensures var (j', st') := Alone(j, st, fs, k);
      var at := Name(st.home, "sip-root-ca");
      && (j'.Some? <==> st.secrets[at].data != map[] && fs(k).Fine? && fs(k + 1).Fine?)
      && (j'.Some? ==> at in st'.secrets && st'.secrets[at].data == st.secrets[at].data["ca.pem" := [CertBlock(root)]])
      && st'.secrets - {at} == st.secrets - {at}
  {
    var (j1, st1) := PersisterStep(j, st, fs(k));
    AloneStep(j, st, fs, k);
    if j1.Some? {
      var (j2, st2) := PersisterStep(j1.value, st1, fs(k + 1));
      AloneStep(j1.value, st1, fs, k + 1);
      AloneStep(j2.value, st2, fs, k + 2);
    }
  }
}
