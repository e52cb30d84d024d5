/** The names of the nodes the init job unseals, from its environment. */
module VaultNodes {
  // strings.Split by a comma: never empty, whatever the text.
  function Split(s: string): (parts: seq<string>)
    ensures |parts| > 0
  {
    if s == "" then [""]
    else
      var rest := Split(s[1..]);
      if s[0] == ',' then [""] + rest
      else [[s[0]] + rest[0]] + rest[1..]
  }

  function Join(parts: seq<string>): string
    requires |parts| > 0
  {
    if |parts| == 1 then parts[0] else parts[0] + "," + Join(parts[1..])
  }

  function Commas(s: string): nat {
    if s == "" then 0 else (if s[0] == ',' then 1 else 0) + Commas(s[1..])
  }

  // Splitting loses nothing, leaves no comma behind and yields one part more than there are commas.
  lemma {:induction false} SplitIsExact(s: string)
    ensures Join(Split(s)) == s
    ensures forall k :: 0 <= k < |Split(s)| ==> ',' !in Split(s)[k]
    ensures |Split(s)| == Commas(s) + 1
  {
    if s == "" {
    } else {
      var rest := Split(s[1..]);
      SplitIsExact(s[1..]);
      if s[0] == ',' {
        assert Split(s)[1..] == rest;
        assert forall k :: 1 <= k < |Split(s)| ==> Split(s)[k] == rest[k - 1];
      } else {
        assert Split(s)[1..] == rest[1..];
        assert forall k :: 1 <= k < |Split(s)| ==> Split(s)[k] == rest[k];
      }
    }
  }

  const SERVICE := "vault-internal"

  method NodeNames(vaultCluster: string, namespace: string, domain: string) returns (fqdns: seq<string>)
    ensures |fqdns| == |Split(vaultCluster)|
    ensures forall k :: 0 <= k < |fqdns| ==>
      fqdns[k] == Split(vaultCluster)[k] + ".vault-internal." + namespace + ".svc." + domain
    ensures forall j, k :: 0 <= j < k < |fqdns| ==> (fqdns[j] == fqdns[k] <==> Split(vaultCluster)[j] == Split(vaultCluster)[k])
  {
    var parts := Split(vaultCluster);
    fqdns := [];
    for i := 0 to |parts|
      invariant |fqdns| == i
      invariant forall k :: 0 <= k < i ==> fqdns[k] == parts[k] + ".vault-internal." + namespace + ".svc." + domain
    {
      var fqdn := parts[i] + "." + SERVICE + "." + namespace + "." + "svc." + domain;
      SameName(parts[i], namespace, domain);
      fqdns := fqdns + [fqdn];
    }
    forall j, k | 0 <= j < k < |fqdns| ensures fqdns[j] == fqdns[k] <==> parts[j] == parts[k] {
      SameSuffix(parts[j], parts[k], namespace, domain);
    }
  }

  lemma SameName(part: string, namespace: string, domain: string)
    ensures part + "." + SERVICE + "." + namespace + "." + "svc." + domain ==
      part + ".vault-internal." + namespace + ".svc." + domain
  {
    assert part + "." + SERVICE + "." == part + ".vault-internal.";
    var named := part + ".vault-internal." + namespace;
    assert named + "." + "svc." == named + ".svc.";
  }

  lemma SameSuffix(a: string, b: string, namespace: string, domain: string)
    ensures a + ".vault-internal." + namespace + ".svc." + domain == b + ".vault-internal." + namespace + ".svc." + domain <==> a == b
  {
    var suffix := ".vault-internal." + namespace + ".svc." + domain;
    assert a + ".vault-internal." + namespace + ".svc." + domain == a + suffix;
    assert b + ".vault-internal." + namespace + ".svc." + domain == b + suffix;
    if a + suffix == b + suffix {
      assert a == (a + suffix)[..|a|] && b == (b + suffix)[..|b|];
    }
  }
}
