/** The PEM texts behind Pki.Text: joining two texts with a newline joins their blocks. */
module Pem {
  // A textual encoding as in section 3 of RFC 7468, its body kept line by line.
  datatype Block = Block(kind: string, body: seq<string>)

  const BEGIN := "-----BEGIN "
  const END := "-----END "
  const DASHES := "-----"

  function BeginLine(kind: string): string {
    BEGIN + kind + DASHES
  }

  function EndLine(kind: string): string {
    END + kind + DASHES
  }

  // --- Lines ---

  // The lines of a text; a text that ends in a newline has a last line that is empty.
  function Lines(s: string): (lines: seq<string>)
    ensures |lines| > 0
  {
    if s == "" then [""]
    else
      var rest := Lines(s[1..]);
      if s[0] == '\n' then [""] + rest
      else [[s[0]] + rest[0]] + rest[1..]
  }

  predicate OneLine(s: string) {
    '\n' !in s
  }

  lemma {:induction false} LinesOfOneLine(s: string)
    requires OneLine(s)
    ensures Lines(s) == [s]
  {
    if s == "" {
    } else {
      LinesOfOneLine(s[1..]);
      assert [s[0]] + s[1..] == s;
    }
  }

  lemma LinesOfCons(c: char, s: string)
    ensures Lines([c] + s) == if c == '\n' then [""] + Lines(s) else [[c] + Lines(s)[0]] + Lines(s)[1..]
  {
    assert ([c] + s)[0] == c && ([c] + s)[1..] == s;
  }

  // Splitting undoes joining with a newline.
  lemma {:induction false} LinesOfJoin(s: string, t: string)
    ensures Lines(s + "\n" + t) == Lines(s) + Lines(t)
  {
    if s == "" {
      assert s + "\n" + t == ['\n'] + t;
      LinesOfCons('\n', t);
    } else {
      var c, tail := s[0], s[1..];
      LinesOfJoin(tail, t);
      assert s + "\n" + t == [c] + (tail + "\n" + t) && s == [c] + tail;
      LinesOfCons(c, tail + "\n" + t);
      LinesOfCons(c, tail);
      ConsLine(c, Lines(tail), Lines(t));
    }
  }

  lemma ConsLine(c: char, xs: seq<string>, ys: seq<string>)
    requires |xs| > 0
    ensures [""] + (xs + ys) == [""] + xs + ys
    ensures [[c] + (xs + ys)[0]] + (xs + ys)[1..] == [[c] + xs[0]] + xs[1..] + ys
  {
    assert (xs + ys)[1..] == xs[1..] + ys;
  }

  // --- Decoding ---

  // Outside a block, or inside one whose kind and body so far are known.
  datatype Reading = Outside | Inside(block: Block)

  predicate IsBegin(line: string) {
    BEGIN <= line && |line| >= |BEGIN| + |DASHES| && line[|line| - |DASHES|..] == DASHES
  }

  function KindOf(line: string): string
    requires IsBegin(line)
  {
    line[|BEGIN|..|line| - |DASHES|]
  }

  predicate IsBody(line: string) {
    '-' !in line
  }

  // Text outside blocks is skipped; a block is dropped at a line that cannot belong to it.
  function Scan(lines: seq<string>, r: Reading): (seq<Block>, Reading) {
    if lines == [] then ([], r)
    else
      var line, rest := lines[0], lines[1..];
      match r
      case Outside => Scan(rest, if IsBegin(line) then Inside(Block(KindOf(line), [])) else Outside)
      case Inside(b) =>
        if line == EndLine(b.kind) then
          var (more, end) := Scan(rest, Outside);
          ([b] + more, end)
        else Scan(rest, if IsBody(line) then Inside(b.(body := b.body + [line])) else Outside)
  }

  function Parse(s: string): seq<Block> {
    Scan(Lines(s), Outside).0
  }

  lemma {:induction false} ScanConcat(a: seq<string>, b: seq<string>, r: Reading)
    ensures var (xs, mid) := Scan(a, r); var (ys, end) := Scan(b, mid);
      Scan(a + b, r) == (xs + ys, end)
    decreases |a|
  {
    if a == [] {
      assert a + b == b && [] + Scan(b, r).0 == Scan(b, r).0;
    } else {
      assert (a + b)[1..] == a[1..] + b;
      var line := a[0];
      match r
      case Outside => ScanConcat(a[1..], b, if IsBegin(line) then Inside(Block(KindOf(line), [])) else Outside);
      case Inside(blk) =>
        if line == EndLine(blk.kind) {
          ScanConcat(a[1..], b, Outside);
          var (xs, mid) := Scan(a[1..], Outside);
          assert [blk] + (xs + Scan(b, mid).0) == [blk] + xs + Scan(b, mid).0;
        } else {
          ScanConcat(a[1..], b, if IsBody(line) then Inside(blk.(body := blk.body + [line])) else Outside);
        }
    }
  }

  // A text whose last block is closed.
  predicate Closed(s: string) {
    Scan(Lines(s), Outside).1.Outside?
  }

  // Joining with a newline joins the blocks, so a text may be taken for the list of its blocks.
  lemma JoinedTextsParseSeparately(s: string, t: string)
    requires Closed(s)
    ensures Parse(s + "\n" + t) == Parse(s) + Parse(t)
  {
    LinesOfJoin(s, t);
    ScanConcat(Lines(s), Lines(t), Outside);
  }

  // --- Well-formed blocks ---

  predicate WellFormed(b: Block) {
    && OneLine(b.kind) && '-' !in b.kind
    && forall k :: 0 <= k < |b.body| ==> OneLine(b.body[k]) && IsBody(b.body[k])
  }

  function Unlines(lines: seq<string>): string {
    if lines == [] then "" else lines[0] + "\n" + Unlines(lines[1..])
  }

  // A single block, with or without a newline after its last line.
  function Render(b: Block, newline: bool): string {
    Unlines([BeginLine(b.kind)] + b.body) + EndLine(b.kind) + if newline then "\n" else ""
  }

  // The text as section 3 of RFC 7468 has it.
  lemma RenderedText(kind: string, line: string)
    ensures Render(Block(kind, [line]), true) ==
      "-----BEGIN " + kind + "-----" + "\n" + line + "\n" + "-----END " + kind + "-----" + "\n"
    ensures Render(Block(kind, [line]), false) + "\n" == Render(Block(kind, [line]), true)
  {
    var lines := [BeginLine(kind)] + [line];
    assert lines[1..] == [line] && [line][1..] == [];
    assert Unlines([line]) == line + "\n" + "";
    assert Unlines(lines) == BeginLine(kind) + "\n" + (line + "\n");
  }

  lemma {:induction false} LinesOfUnlines(lines: seq<string>, last: string)
    requires forall k :: 0 <= k < |lines| ==> OneLine(lines[k])
    ensures Lines(Unlines(lines) + last) == lines + Lines(last)
  {
    if lines == [] {
      assert Unlines(lines) + last == last;
      assert lines + Lines(last) == Lines(last);
    } else {
      var rest := Unlines(lines[1..]);
      LinesOfUnlines(lines[1..], last);
      assert lines[0] + "\n" + rest + last == lines[0] + "\n" + (rest + last);
      LinesOfJoin(lines[0], rest + last);
      LinesOfOneLine(lines[0]);
      ConsAll(lines, Lines(last));
    }
  }

  lemma ConsAll(lines: seq<string>, ys: seq<string>)
    requires lines != []
    ensures [lines[0]] + (lines[1..] + ys) == lines + ys
  {
  }

  lemma LinesOfRender(b: Block, newline: bool)
    requires WellFormed(b)
    ensures Lines(Render(b, newline)) == [BeginLine(b.kind)] + b.body + [EndLine(b.kind)] + if newline then [""] else []
  {
    var tail := EndLine(b.kind) + if newline then "\n" else "";
    assert Render(b, newline) == Unlines([BeginLine(b.kind)] + b.body) + tail;
    LinesOfUnlines([BeginLine(b.kind)] + b.body, tail);
    LinesOfLast(EndLine(b.kind), newline);
  }

  lemma {:induction false} ScanBody(lines: seq<string>, b: Block)
    requires forall k :: 0 <= k < |lines| ==> IsBody(lines[k])
    ensures Scan(lines, Inside(b)) == ([], Inside(b.(body := b.body + lines)))
    decreases |lines|
  {
    if lines == [] {
      assert b.body + lines == b.body;
    } else {
      assert lines[0] != EndLine(b.kind) by {
        assert EndLine(b.kind)[0] == '-';
      }
      ScanBody(lines[1..], b.(body := b.body + [lines[0]]));
      assert b.body + [lines[0]] + lines[1..] == b.body + lines;
    }
  }

  lemma BeginLineBegins(kind: string)
    ensures IsBegin(BeginLine(kind)) && KindOf(BeginLine(kind)) == kind
  {
    var line := BeginLine(kind);
    assert line[|line| - |DASHES|..] == DASHES;
    assert line[..|BEGIN|] == BEGIN;
  }

  lemma ScanBlock(b: Block)
    requires WellFormed(b)
    ensures Scan([BeginLine(b.kind)] + b.body + [EndLine(b.kind)], Outside) == ([b], Outside)
  {
    var first, last := [BeginLine(b.kind)], [EndLine(b.kind)];
    BeginLineBegins(b.kind);
    assert Scan(first, Outside) == ([], Inside(Block(b.kind, []))) by {
      assert first[1..] == [];
    }
    ScanBody(b.body, Block(b.kind, []));
    assert [] + b.body == b.body;
    ScanConcat(first, b.body, Outside);
    ScanEnd(b);
    assert Scan(first + b.body, Outside) == ([], Inside(b));
    ScanConcat(first + b.body, last, Outside);
    assert [] + [b] == [b];
  }

  lemma ScanEnd(b: Block)
    ensures Scan([EndLine(b.kind)], Inside(b)) == ([b], Outside)
  {
    var last := [EndLine(b.kind)];
    assert last[0] == EndLine(b.kind) && last[1..] == [];
    assert Scan(last[1..], Outside) == ([], Outside);
    assert [b] + [] == [b];
  }

  // Decoding what was encoded, with or without the last newline, gives the block back.
  lemma ParseRender(b: Block, newline: bool)
    requires WellFormed(b)
    ensures Parse(Render(b, newline)) == [b] && Closed(Render(b, newline))
  {
    var lines := [BeginLine(b.kind)] + b.body + [EndLine(b.kind)];
    LinesOfRender(b, newline);
    ScanBlock(b);
    var tail := if newline then [""] else [];
    assert Scan(tail, Outside) == ([], Outside) by {
      assert !IsBegin("");
      assert newline ==> tail[1..] == [];
    }
    ScanConcat(lines, tail, Outside);
    assert lines + tail == Lines(Render(b, newline));
  }

  // --- The two ways of building a chain ---

  // The certificate controller joins with a newline: the leaf comes first, whatever the newlines.
  lemma OperatorBundleRoundTrip(leaf: Block, ca: Block, n1: bool, n2: bool)
    requires WellFormed(leaf) && WellFormed(ca)
    ensures Parse(Render(leaf, n1) + "\n" + Render(ca, n2)) == [leaf, ca]
  {
    ParseRender(leaf, n1);
    ParseRender(ca, n2);
    JoinedTextsParseSeparately(Render(leaf, n1), Render(ca, n2));
  }

  // The demo joins without a separator: that works exactly when the first text ends in a newline,
  // as everything written by pem.Encode does.
  lemma DemoBundleRoundTripIff(leaf: Block, ca: Block, n1: bool, n2: bool)
    requires WellFormed(leaf) && WellFormed(ca)
    ensures Parse(Render(leaf, n1) + Render(ca, n2)) == [leaf, ca] <==> n1
  {
    if n1 {
      assert Render(leaf, true) + Render(ca, n2) == Render(leaf, false) + "\n" + Render(ca, n2);
      OperatorBundleRoundTrip(leaf, ca, false, n2);
    } else {
      MergedLinesLoseTheLeaf(leaf, ca, n2);
    }
  }

  // Without it the last line of the leaf and the first line of the CA become one line, which ends
  // neither block nor begins one: nothing at all is decoded.
  lemma MergedLinesLoseTheLeaf(leaf: Block, ca: Block, n2: bool)
    requires WellFormed(leaf) && WellFormed(ca)
    ensures Parse(Render(leaf, false) + Render(ca, n2)) == []
  {
    var head := [BeginLine(leaf.kind)] + leaf.body;
    var merged := EndLine(leaf.kind) + BeginLine(ca.kind);
    var rest := ca.body + [EndLine(ca.kind)] + if n2 then [""] else [];
    MergedLines(leaf, ca, n2, head, merged, rest);
    BeginLineBegins(leaf.kind);
    assert Scan([BeginLine(leaf.kind)], Outside) == ([], Inside(Block(leaf.kind, []))) by {
      assert [BeginLine(leaf.kind)][1..] == [];
    }
    ScanBody(leaf.body, Block(leaf.kind, []));
    assert [] + leaf.body == leaf.body;
    ScanConcat([BeginLine(leaf.kind)], leaf.body, Outside);
    assert merged[0] == '-' && |merged| > |EndLine(leaf.kind)|;
    assert Scan([merged], Inside(leaf)) == ([], Outside) by {
      var one := [merged];
      assert one[1..] == [];
      assert merged != EndLine(leaf.kind) && !IsBody(merged);
    }
    ScanConcat(head, [merged], Outside);
    assert forall k :: 0 <= k < |rest| ==> !IsBegin(rest[k]) by {
      forall k | 0 <= k < |rest| ensures !IsBegin(rest[k]) {
        assert EndLine(ca.kind)[5] == 'E' && BEGIN[5] == 'B';
        assert k < |ca.body| ==> IsBody(rest[k]);
        assert BEGIN[0] == '-';
      }
    }
    ScanNothing(rest);
    ScanConcat(head + [merged], rest, Outside);
  }

  lemma MergedLines(leaf: Block, ca: Block, n2: bool, head: seq<string>, merged: string, rest: seq<string>)
    requires WellFormed(leaf) && WellFormed(ca)
    requires head == [BeginLine(leaf.kind)] + leaf.body && merged == EndLine(leaf.kind) + BeginLine(ca.kind)
    requires rest == ca.body + [EndLine(ca.kind)] + if n2 then [""] else []
    ensures Lines(Render(leaf, false) + Render(ca, n2)) == head + [merged] + rest
  {
    var e, f, g := EndLine(leaf.kind), BeginLine(ca.kind), EndLine(ca.kind);
    LinesOfAdjoined(head, e, f, ca.body, g, n2);
    assert Render(leaf, false) == Unlines(head) + e;
  }

  // Two runs of lines, adjoined without a newline between them.
  lemma LinesOfAdjoined(xs: seq<string>, e: string, f: string, ys: seq<string>, g: string, newline: bool)
    requires forall k :: 0 <= k < |xs| ==> OneLine(xs[k])
    requires forall k :: 0 <= k < |ys| ==> OneLine(ys[k])
    requires OneLine(e) && OneLine(f) && OneLine(g)
    ensures Lines(Unlines(xs) + e + (Unlines([f] + ys) + g + if newline then "\n" else "")) ==
      xs + [e + f] + (ys + [g] + if newline then [""] else [])
  {
    var nl := if newline then "\n" else "";
    assert ([f] + ys)[1..] == ys;
    Regroup(Unlines(xs), e, f, "\n", Unlines(ys), g, nl);
    AdjoinedTail(xs, e + f, ys, g, newline);
  }

  lemma Regroup(x: string, e: string, f: string, sep: string, y: string, g: string, nl: string)
    ensures x + e + (f + sep + y + g + nl) == x + ((e + f) + sep + (y + (g + nl)))
  {
  }

  lemma AdjoinedTail(xs: seq<string>, line: string, ys: seq<string>, g: string, newline: bool)
    requires forall k :: 0 <= k < |xs| ==> OneLine(xs[k])
    requires forall k :: 0 <= k < |ys| ==> OneLine(ys[k])
    requires OneLine(line) && OneLine(g)
    ensures Lines(Unlines(xs) + (line + "\n" + (Unlines(ys) + (g + if newline then "\n" else "")))) ==
      xs + [line] + (ys + [g] + if newline then [""] else [])
  {
    var extra := if newline then [""] else [];
    LinesOfLast(g, newline);
    TailOf(xs, line, ys, g + if newline then "\n" else "");
    LastOf(ys, g, extra);
  }

  lemma LastOf(ys: seq<string>, g: string, extra: seq<string>)
    ensures ys + ([g] + extra) == ys + [g] + extra
  {
  }

  lemma TailOf(xs: seq<string>, line: string, ys: seq<string>, last: string)
    requires forall k :: 0 <= k < |xs| ==> OneLine(xs[k])
    requires forall k :: 0 <= k < |ys| ==> OneLine(ys[k])
    requires OneLine(line)
    ensures Lines(Unlines(xs) + (line + "\n" + (Unlines(ys) + last))) == xs + [line] + (ys + Lines(last))
  {
    LinesOfUnlines(xs, line + "\n" + (Unlines(ys) + last));
    TailLines(line, ys, last);
    Reassociate(xs, line, ys, Lines(last));
  }

  lemma TailLines(line: string, ys: seq<string>, last: string)
    requires forall k :: 0 <= k < |ys| ==> OneLine(ys[k])
    requires OneLine(line)
    ensures Lines(line + "\n" + (Unlines(ys) + last)) == [line] + (ys + Lines(last))
  {
    LinesOfJoin(line, Unlines(ys) + last);
    LinesOfOneLine(line);
    LinesOfUnlines(ys, last);
  }

  lemma Reassociate(xs: seq<string>, line: string, ys: seq<string>, zs: seq<string>)
    ensures xs + ([line] + (ys + zs)) == xs + [line] + (ys + zs)
  {
  }

  lemma LinesOfLast(line: string, newline: bool)
    requires OneLine(line)
    ensures Lines(line + if newline then "\n" else "") == [line] + if newline then [""] else []
  {
    LinesOfOneLine(line);
    if newline {
      assert line + "\n" == line + "\n" + "";
      LinesOfJoin(line, "");
    } else {
      assert line + "" == line;
    }
  }

  lemma {:induction false} ScanNothing(lines: seq<string>)
    requires forall k :: 0 <= k < |lines| ==> !IsBegin(lines[k])
    ensures Scan(lines, Outside) == ([], Outside)
    decreases |lines|
  {
    if lines == [] {
    } else {
      assert !IsBegin(lines[0]);
      ScanNothing(lines[1..]);
    }
  }
}
