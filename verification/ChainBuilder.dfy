/** The demo's chain files: a loop over slices that share a backing array. */
module ChainBuilder {
  import Pem

  // --- Slices ---

  // A slice from the start of its backing array; what lies beyond its length is spare capacity.
  datatype Slice = Nil | Slice(data: array<char>, len: nat) {
    predicate Valid() {
      Slice? ==> len <= data.Length
    }

    function Len(): nat {
      if Nil? then 0 else len
    }

    function Capacity(): nat {
      if Nil? then 0 else data.Length
    }

    function Backing(): set<object> {
      if Nil? then {} else {data}
    }

    function Contents(): string
      requires Valid()
      reads Backing()
    {
      if Nil? then "" else data[..len]
    }
  }

  // append(s, t...): into the spare capacity where it suffices, otherwise into a new array with some
  // room to grow. Both slices may lie in one array.
  method Append(s: Slice, t: Slice, room: nat) returns (r: Slice)
    requires s.Valid() && t.Valid()
    modifies s.Backing()
    ensures r.Valid()
    ensures r.Contents() == old(s.Contents() + t.Contents())
    ensures s.Contents() == old(s.Contents())
    ensures s.Len() + t.Len() <= s.Capacity() ==> r.Backing() == s.Backing()
    ensures s.Len() + t.Len() > s.Capacity() ==> fresh(r.Backing()) && unchanged(s.Backing())
  {
    var n, m := s.Len(), t.Len();
    if n + m <= s.Capacity() {
      if s.Nil? || t.Nil? {
        r := s;
      } else {
        forall i | 0 <= i < m {
          s.data[n + i] := t.data[i];
        }
        r := Slice(s.data, n + m);
      }
    } else {
      var grown := new char[n + m + room](_ => '\0');
      forall i | 0 <= i < n {
        grown[i] := s.data[i];
      }
      forall i | 0 <= i < m {
        grown[n + i] := t.data[i];
      }
      r := Slice(grown, n + m);
    }
  }

  // --- Files ---

  class Disk {
    var files: map<string, string>

    // A read gets a fresh buffer, larger than the file by an amount nobody promises.
    method ReadFile(name: string, spare: nat) returns (ok: bool, s: Slice)
      ensures ok <==> name in files
      ensures s.Valid() && fresh(s.Backing())
      ensures ok ==> s.Slice? && s.Contents() == files[name] && s.Capacity() == |files[name]| + spare
    {
      if name !in files {
        return false, Nil;
      }
      var text := files[name];
      var data := new char[|text| + spare](i => if 0 <= i < |text| then text[i] else '\0');
      s := Slice(data, |text|);
      assert data[..|text|] == text;
      ok := true;
    }

    method WriteFile(name: string, s: Slice, writable: bool) returns (ok: bool)
      requires s.Valid()
      modifies this
      ensures ok == writable
      ensures files == if ok then old(files)[name := s.Contents()] else old(files)
    {
      ok := writable;
      if ok {
        files := files[name := s.Contents()];
      }
    }
  }

  // --- The loop ---

  predicate Readable(files: map<string, string>, names: seq<string>) {
    forall k :: 0 <= k < |names| ==> names[k] in files
  }

  function Texts(files: map<string, string>, names: seq<string>): seq<string>
    requires Readable(files, names)
  {
    seq(|names|, k requires 0 <= k < |names| => files[names[k]])
  }

  // What the loop leaves in the chain: it starts over from the leaf every time.
  function Chain(leaf: string, interms: seq<string>): string {
    if interms == [] then "" else leaf + interms[|interms| - 1]
  }

  // The leaf's own bytes survive however often an append writes behind them.
  method AppendEach(disk: Disk, leaf: Slice, names: seq<string>, spare: nat, room: nat) returns (ok: bool, chain: Slice)
    requires leaf.Valid()
    modifies leaf.Backing()
    ensures chain.Valid()
    ensures leaf.Contents() == old(leaf.Contents())
    ensures disk.files == old(disk.files)
    ensures ok <==> Readable(disk.files, names)
    ensures ok ==> chain.Contents() == Chain(old(leaf.Contents()), Texts(disk.files, names))
  {
    ghost var files, text := disk.files, leaf.Contents();
    chain := Nil;
    var i := 0;
    while i < |names|
      invariant 0 <= i <= |names|
      invariant chain.Valid()
      invariant leaf.Contents() == text
      invariant disk.files == files
      invariant Readable(files, names[..i])
      invariant chain.Contents() == Chain(text, Texts(files, names[..i]))
    {
      var interm;
      ok, interm := disk.ReadFile(names[i], spare);
      if !ok {
        return;
      }
      chain := Append(leaf, interm, room);
      ChainStartsOver(files, names, i, text);
      i := i + 1;
    }
    assert names[..i] == names;
    ok := true;
  }

  lemma ChainStartsOver(files: map<string, string>, names: seq<string>, i: nat, leaf: string)
    requires i < |names| && Readable(files, names[..i]) && names[i] in files
    ensures Readable(files, names[..i + 1])
    ensures Chain(leaf, Texts(files, names[..i + 1])) == leaf + files[names[i]]
  {
    var more := names[..i + 1];
    forall k | 0 <= k < |more| ensures more[k] in files {
      assert k < i ==> more[k] == names[..i][k];
    }
  }

  // False stands for the end of the program; then nothing has been written.
  method BuildCertChain(disk: Disk, cert: string, interms: seq<string>, output: string,
      spare: nat, room: nat, writable: bool) returns (ok: bool)
    modifies disk
    ensures ok <==> cert in old(disk.files) && Readable(old(disk.files), interms) && writable
    ensures disk.files ==
      if !ok then old(disk.files)
      else old(disk.files)[output := Chain(old(disk.files)[cert], Texts(old(disk.files), interms))]
  {
    var leaf, chain;
    ok, leaf := disk.ReadFile(cert, spare);
    if !ok {
      return;
    }
    ok, chain := AppendEach(disk, leaf, interms, spare, room);
    if !ok {
      return;
    }
    ok := disk.WriteFile(output, chain, writable);
  }

  // The two programs of the demo: the same loop, each with its own output.
  method BuildServerCertChain(disk: Disk, cert: string, interms: seq<string>, spare: nat, room: nat, writable: bool)
      returns (ok: bool)
    modifies disk
    ensures ok <==> cert in old(disk.files) && Readable(old(disk.files), interms) && writable
    ensures disk.files ==
      if !ok then old(disk.files)
      else old(disk.files)["./artifacts/server-chain.pem" :=
        if interms == [] then "" else old(disk.files)[cert] + old(disk.files)[interms[|interms| - 1]]]
  {
    ok := BuildCertChain(disk, cert, interms, "./artifacts/server-chain.pem", spare, room, writable);
  }

  method BuildClientCertChain(disk: Disk, cert: string, interms: seq<string>, spare: nat, room: nat, writable: bool)
      returns (ok: bool)
    modifies disk
    ensures ok <==> cert in old(disk.files) && Readable(old(disk.files), interms) && writable
    ensures disk.files ==
      if !ok then old(disk.files)
      else old(disk.files)["./artifacts/client-chain.pem" :=
        if interms == [] then "" else old(disk.files)[cert] + old(disk.files)[interms[|interms| - 1]]]
  {
    ok := BuildCertChain(disk, cert, interms, "./artifacts/client-chain.pem", spare, room, writable);
  }

  // --- What the file is good for ---

  function Concat(texts: seq<string>): string {
    if texts == [] then "" else texts[0] + Concat(texts[1..])
  }

  function FullChain(leaf: string, interms: seq<string>): string {
    leaf + Concat(interms)
  }

  lemma {:induction false} ConcatOfInit(texts: seq<string>)
    requires texts != []
    ensures Concat(texts) == Concat(texts[..|texts| - 1]) + texts[|texts| - 1]
  {
    if |texts| == 1 {
      assert texts[1..] == [];
    } else {
      var rest := texts[1..];
      ConcatOfInit(rest);
      assert texts[..|texts| - 1][1..] == rest[..|rest| - 1];
    }
  }

  lemma {:induction false} ConcatEmptyIff(texts: seq<string>)
    ensures Concat(texts) == "" <==> forall k :: 0 <= k < |texts| ==> texts[k] == ""
  {
    if texts == [] {
    } else {
      ConcatEmptyIff(texts[1..]);
      assert forall k :: 0 <= k < |texts| - 1 ==> texts[1..][k] == texts[k + 1];
      assert (forall k :: 0 <= k < |texts| ==> texts[k] == "") <==>
        texts[0] == "" && forall k :: 0 <= k < |texts| - 1 ==> texts[1..][k] == "" by {
        assert forall k :: 1 <= k < |texts| ==> texts[k] == texts[1..][k - 1];
      }
    }
  }

  // The file is the full chain exactly when every intermediate before the last is an empty file.
  lemma ChainIsFullIff(leaf: string, interms: seq<string>)
    ensures Chain(leaf, interms) == FullChain(leaf, interms) <==>
      if interms == [] then leaf == ""
      else forall k :: 0 <= k < |interms| - 1 ==> interms[k] == ""
  {
    if interms != [] {
      var init, last := interms[..|interms| - 1], interms[|interms| - 1];
      ConcatOfInit(interms);
      ConcatEmptyIff(init);
      Squeezed(leaf, Concat(init), last);
      assert forall k :: 0 <= k < |init| ==> init[k] == interms[k];
    }
  }

  lemma Squeezed(a: string, b: string, c: string)
    ensures a + c == a + (b + c) <==> b == ""
  {
    assert |a + (b + c)| == |a + c| + |b|;
    assert b == "" ==> b + c == c;
  }

  // Files as certToFile writes them: one block, its last line ended.
  function Encoded(blocks: seq<Pem.Block>): seq<string> {
    seq(|blocks|, k requires 0 <= k < |blocks| => Pem.Render(blocks[k], true))
  }

  // Read back, the file holds the leaf and then every intermediate exactly when there is one of them.
  lemma ChainDecodesFullyIff(leaf: Pem.Block, interms: seq<Pem.Block>)
    requires Pem.WellFormed(leaf) && forall k :: 0 <= k < |interms| ==> Pem.WellFormed(interms[k])
    ensures Pem.Parse(Chain(Pem.Render(leaf, true), Encoded(interms))) == [leaf] + interms <==> |interms| == 1
  {
    if interms == [] {
      assert Pem.Parse("") == [] by {
        assert Pem.Lines("") == [""] && [""][1..] == [];
      }
    } else {
      var last := interms[|interms| - 1];
      Pem.DemoBundleRoundTripIff(leaf, last, true, true);
      assert Pem.Parse(Chain(Pem.Render(leaf, true), Encoded(interms))) == [leaf, last];
    }
  }
}
