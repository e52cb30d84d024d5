/** The path strings the controllers and the PKI job build, and the mounts they denote. */
module MountNames {
  const ROOT_PATH := "sip-root-ca"
  const INTERM_PATH := "sip-interm-ca"
  const CLIENT_PREFIX := "sip-client-ca/"

  // A mount, named by what the programs use it for. Client(r) sits at "sip-client-ca/" + r.
  datatype Path = RootMount | IntermMount | Client(ref: string) | Elsewhere(path: string)

  // Every mount has exactly one description: Elsewhere is for the paths no program of ours builds.
  predicate Canonical(p: Path) {
    p.Elsewhere? ==> p.path != ROOT_PATH && p.path != INTERM_PATH && !(CLIENT_PREFIX <= p.path)
  }

  function Denote(p: Path): string {
    match p
    case RootMount => ROOT_PATH
    case IntermMount => INTERM_PATH
    case Client(ref) => CLIENT_PREFIX + ref
    case Elsewhere(path) => path
  }

  function PathOf(s: string): (p: Path)
    ensures Canonical(p) && Denote(p) == s
  {
    if s == ROOT_PATH then RootMount
    else if s == INTERM_PATH then IntermMount
    else if CLIENT_PREFIX <= s then
      assert s == CLIENT_PREFIX + s[|CLIENT_PREFIX|..];
      Client(s[|CLIENT_PREFIX|..])
    else Elsewhere(s)
  }

  // Go's strings.TrimSuffix.
  function TrimSuffix(s: string, suffix: string): string {
    if |suffix| <= |s| && s[|s| - |suffix|..] == suffix then s[..|s| - |suffix|] else s
  }

  // The key under which an InternalClientCA looks for its engine in the listing.
  function ClientCAPath(cn: string): string {
    CLIENT_PREFIX + cn + "-ca/"
  }

  function ClientMount(cn: string): Path {
    Client(cn + "-ca")
  }

  // The keys of Vault's answer to a listing: every mount with a final slash.
  function Listing(mounts: set<Path>): set<string> {
    set p | p in mounts :: Denote(p) + "/"
  }

  lemma DenoteInjective(p: Path, q: Path)
    requires Canonical(p) && Canonical(q) && Denote(p) == Denote(q)
    ensures p == q
  {
    assert p.Client? ==> Denote(p)[4] == 'c' && p.ref == Denote(p)[|CLIENT_PREFIX|..];
    assert q.Client? ==> Denote(q)[4] == 'c' && q.ref == Denote(q)[|CLIENT_PREFIX|..];
    assert ROOT_PATH[4] == 'r' && INTERM_PATH[4] == 'i';
  }

  lemma PathOfInvertsDenote(p: Path)
    requires Canonical(p)
    ensures PathOf(Denote(p)) == p
  {
    DenoteInjective(PathOf(Denote(p)), p);
  }

  // Trimming the final slash and adding it again is the identity, so the path that is enabled
  // is the one the next listing is asked for.
  lemma TrimmedPathIsTheMount(cn: string)
    ensures TrimSuffix(ClientCAPath(cn), "/") + "/" == ClientCAPath(cn)
    ensures TrimSuffix(ClientCAPath(cn), "/") == Denote(ClientMount(cn))
    ensures PathOf(TrimSuffix(ClientCAPath(cn), "/")) == ClientMount(cn)
    ensures ClientCAPath(cn) == "sip-client-ca/" + cn + "-ca/" && ClientMount(cn) == Client(cn + "-ca")
  {
    var full := ClientCAPath(cn);
    assert full == Denote(ClientMount(cn)) + "/";
    assert full[|full| - 1..] == "/";
    PathOfInvertsDenote(ClientMount(cn));
  }

  lemma ClientPathInjective(cn: string, other: string)
    ensures ClientCAPath(cn) == ClientCAPath(other) <==> cn == other
    ensures ClientMount(cn) == ClientMount(other) <==> cn == other
  {
    assert cn == (cn + "-ca")[..|cn + "-ca"| - 3];
    assert other == (other + "-ca")[..|other + "-ca"| - 3];
    if ClientCAPath(cn) == ClientCAPath(other) {
      assert cn == ClientCAPath(cn)[|CLIENT_PREFIX|..|ClientCAPath(cn)| - 4];
      assert other == ClientCAPath(other)[|CLIENT_PREFIX|..|ClientCAPath(other)| - 4];
    }
  }

  // An issuer reference names the engine of cn exactly when it is cn followed by "-ca".
  lemma IssuerResolvesToMount(ref: string, cn: string)
    ensures "sip-client-ca/" + ref == TrimSuffix("sip-client-ca/" + cn + "-ca/", "/") <==> ref == cn + "-ca"
    ensures PathOf("sip-client-ca/" + ref) == Client(ref)
  {
    TrimmedPathIsTheMount(cn);
    assert ref == (CLIENT_PREFIX + ref)[|CLIENT_PREFIX|..];
    assert cn + "-ca" == Denote(ClientMount(cn))[|CLIENT_PREFIX|..];
    PathOfInvertsDenote(Client(ref));
  }

  // Client engines and server engines never share a path, whatever the common name or reference.
  lemma ClientPathsAreNotServerPaths(ref: string)
    ensures "sip-client-ca/" + ref != "sip-root-ca" && "sip-client-ca/" + ref != "sip-interm-ca"
    ensures PathOf("sip-root-ca") == RootMount && PathOf("sip-interm-ca") == IntermMount
  {
    assert (CLIENT_PREFIX + ref)[4] == 'c' && ROOT_PATH[4] == 'r' && INTERM_PATH[4] == 'i';
  }

  // The reconciler's test of the listing decides whether the mount exists.
  lemma ListedIffMounted(mounts: set<Path>, p: Path)
    requires Canonical(p) && forall q :: q in mounts ==> Canonical(q)
    ensures Denote(p) + "/" in Listing(mounts) <==> p in mounts
  {
    if Denote(p) + "/" in Listing(mounts) {
      var q :| q in mounts && Denote(q) + "/" == Denote(p) + "/";
      assert Denote(q) == (Denote(q) + "/")[..|Denote(q)|];
      assert Denote(p) == (Denote(p) + "/")[..|Denote(p)|];
      DenoteInjective(p, q);
    }
  }
}
