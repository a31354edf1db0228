/** The block text of a Packages index: "key: value" lines, blank lines between blocks, and what a
    reader that normalises line ends and splits at blank lines makes of it. */
module IndexText {
  import opened Text

  type FieldMap = map<string, string>

  datatype Field = Field(key: string, value: string)

  function Get(fields: FieldMap, key: string): string {
    if key in fields then fields[key] else ""
  }

  // ------------------------------------------------------------------- fields

  function Lines(fields: seq<Field>): (lines: seq<string>)
    ensures |lines| == |fields|
    ensures forall k :: 0 <= k < |lines| ==> lines[k] == fields[k].key + ": " + fields[k].value
  {
    seq(|fields|, k requires 0 <= k < |fields| => fields[k].key + ": " + fields[k].value)
  }

  /** A printed block, without the newline that ends its last line. */
  function BlockText(fields: seq<Field>): string {
    Join(Lines(fields), "\n")
  }

  function FieldsMap(fields: seq<Field>): FieldMap {
    if |fields| == 0 then map[]
    else FieldsMap(fields[..|fields| - 1])[fields[|fields| - 1].key := fields[|fields| - 1].value]
  }

  predicate GoodField(f: Field) {
    && f.key != "" && ' ' !in f.key && '\t' !in f.key
    && '\n' !in f.key && '\n' !in f.value
  }

  ghost predicate GoodFields(fields: seq<Field>) {
    && (forall k :: 0 <= k < |fields| ==> GoodField(fields[k]))
    && (forall i, j :: 0 <= i < j < |fields| ==> fields[i].key != fields[j].key)
  }

  lemma {:induction false} FieldKeys(fields: seq<Field>)
    ensures FieldsMap(fields).Keys == set k | 0 <= k < |fields| :: fields[k].key
  {
    var n := |fields| - 1;
    if n >= 0 {
      FieldKeys(fields[..n]);
      assert FieldsMap(fields).Keys == FieldsMap(fields[..n]).Keys + {fields[n].key};
    }
  }

  lemma {:induction false} FieldLookup(fields: seq<Field>, k: nat)
    requires GoodFields(fields) && k < |fields|
    ensures Get(FieldsMap(fields), fields[k].key) == fields[k].value
  {
    var n := |fields| - 1;
    if k < n {
      FieldLookup(fields[..n], k);
      FieldKeys(fields[..n]);
    }
  }

  /** A line followed by at most one newline and a block that starts with text adds no blank line. */
  lemma LineThenFree(line: string, rest: string)
    requires '\n' !in line
    requires rest != "" ==> |rest| >= 2 && rest[0] == '\n' && rest[1] != '\n' && !Contains(rest[1..], "\n\n")
    ensures !Contains(line + rest, "\n\n")
  {
    var s := line + rest;
    forall i ensures !OccursAt(s, "\n\n", i) {
      if 0 <= i && i + 2 <= |s| {
        assert s[i..i + 2][0] == s[i] && s[i..i + 2][1] == s[i + 1];
        if i > |line| {
          assert s[i..i + 2] == rest[1..][i - |line| - 1..i - |line| + 1];
          assert !OccursAt(rest[1..], "\n\n", i - |line| - 1);
        }
      }
    }
  }

  lemma {:induction false} LinesFree(lines: seq<string>)
    requires |lines| >= 1
    requires forall k :: 0 <= k < |lines| ==> lines[k] != "" && '\n' !in lines[k]
    ensures Join(lines, "\n") != "" && Join(lines, "\n")[0] == lines[0][0]
    ensures var last := lines[|lines| - 1];
            Join(lines, "\n")[|Join(lines, "\n")| - 1] == last[|last| - 1]
    ensures !Contains(Join(lines, "\n"), "\n\n")
    decreases |lines|
  {
    if |lines| == 1 {
      LineThenFree(lines[0], "");
      assert lines[0] + "" == lines[0];
    } else {
      var rest := Join(lines[1..], "\n");
      LinesFree(lines[1..]);
      assert lines[1..][0] == lines[1];
      assert rest[0] == lines[1][0];
      assert rest[0] != '\n' by { assert lines[1][0] in lines[1]; }
      assert ("\n" + rest)[1..] == rest;
      LineThenFree(lines[0], "\n" + rest);
      assert lines[0] + ("\n" + rest) == lines[0] + "\n" + rest;
    }
  }

  /** A printed block is one trimmed block: no blank line inside, text at both ends. */
  lemma BlockShape(fields: seq<Field>)
    requires |fields| >= 1 && GoodFields(fields)
    requires !IsSpace(fields[0].key[0])
    requires var last := fields[|fields| - 1].value; last != "" && !IsSpace(last[|last| - 1])
    ensures var text := BlockText(fields); text != "" && Trimmed(text) && !Contains(text, "\n\n")
  {
    var lines := Lines(fields);
    forall k | 0 <= k < |lines| ensures lines[k] != "" && '\n' !in lines[k] {
      assert GoodField(fields[k]);
    }
    LinesFree(lines);
    assert lines[0][0] == fields[0].key[0];
    var last := fields[|fields| - 1];
    assert lines[|lines| - 1] == last.key + ": " + last.value;
  }

  // ------------------------------------------------------------------- blocks

  /** strings.ReplaceAll(s, "\r\n", "\n"). */
  function UnixNewlines(s: string): string {
    if |s| < 2 then s
    else if s[0] == '\r' && s[1] == '\n' then "\n" + UnixNewlines(s[2..])
    else [s[0]] + UnixNewlines(s[1..])
  }

  function Blocks(document: string): (blocks: seq<string>)
    ensures |blocks| >= 1
  {
    Split(TrimSpace(UnixNewlines(document)), "\n\n")
  }

  predicate NoCrLf(s: string) {
    forall i :: 0 <= i < |s| - 1 ==> !(s[i] == '\r' && s[i + 1] == '\n')
  }

  /** Each block followed by a blank line. */
  function Bodies(docs: seq<string>): string {
    if |docs| == 0 then "" else Bodies(docs[..|docs| - 1]) + docs[|docs| - 1] + "\n\n"
  }

  ghost predicate SeparablePiece(p: string) {
    p != "" && Trimmed(p) && !Contains(p, "\n\n")
  }

  ghost predicate SeparablePieces(pieces: seq<string>) {
    forall k :: 0 <= k < |pieces| ==> SeparablePiece(pieces[k])
  }

  /** What the first block of a printed index is. */
  ghost predicate PreambleLike(pre: string) {
    SeparablePiece(pre) && NoCrLf(pre)
  }

  // ------------------------------------------------------- reading back blocks

  lemma {:induction false} UnixNewlinesStays(s: string)
    requires NoCrLf(s)
    ensures UnixNewlines(s) == s
  {
    if |s| >= 2 {
      assert !(s[0] == '\r' && s[1] == '\n');
      var t := s[1..];
      forall i | 0 <= i < |t| - 1 ensures !(t[i] == '\r' && t[i + 1] == '\n') {
        assert t[i] == s[i + 1] && t[i + 1] == s[i + 2];
      }
      UnixNewlinesStays(t);
      assert s == [s[0]] + s[1..];
    }
  }

  lemma {:induction false} UnixNewlinesShrinks(s: string)
    ensures |UnixNewlines(s)| <= |s|
    ensures !NoCrLf(s) ==> |UnixNewlines(s)| < |s|
  {
    if |s| >= 2 {
      if s[0] == '\r' && s[1] == '\n' {
        UnixNewlinesShrinks(s[2..]);
      } else {
        UnixNewlinesShrinks(s[1..]);
        if !NoCrLf(s) {
          var i :| 0 <= i < |s| - 1 && s[i] == '\r' && s[i + 1] == '\n';
          assert s[1..][i - 1] == '\r' && s[1..][i] == '\n';
        }
      }
    }
  }

  lemma {:induction false} UnixNewlinesAfter(prefix: string, s: string)
    requires NoCrLf(prefix) && (prefix == "" || prefix[|prefix| - 1] != '\r')
    ensures UnixNewlines(prefix + s) == prefix + UnixNewlines(s)
  {
    if prefix == "" {
      assert prefix + s == s && prefix + UnixNewlines(s) == UnixNewlines(s);
    } else {
      var whole := prefix + s;
      assert whole[1..] == prefix[1..] + s;
      UnixNewlinesAfter(prefix[1..], s);
      assert prefix == [prefix[0]] + prefix[1..];
      if |whole| >= 2 {
        assert whole[0] == prefix[0];
        assert UnixNewlines(whole) == [prefix[0]] + (prefix[1..] + UnixNewlines(s));
      } else {
        assert s == "" && prefix[1..] == "";
      }
    }
  }

  /** Joining blocks with a blank line between them, the printed form without its last blank line. */
  lemma {:induction false} BodiesJoin(pre: string, docs: seq<string>)
    ensures pre + "\n\n" + Bodies(docs) == Join([pre] + docs, "\n\n") + "\n\n"
    decreases |docs|
  {
    var n := |docs|;
    if n == 0 {
      assert [pre] + docs == [pre];
    } else {
      BodiesJoin(pre, docs[..n - 1]);
      var head := [pre] + docs[..n - 1];
      assert [pre] + docs == head + [docs[n - 1]];
      JoinSnoc(head, docs[n - 1], "\n\n");
      var left := pre + "\n\n" + Bodies(docs[..n - 1]);
      assert pre + "\n\n" + Bodies(docs) == left + docs[n - 1] + "\n\n";
    }
  }

  lemma {:induction false} JoinSnoc(pieces: seq<string>, last: string, sep: string)
    requires |pieces| >= 1
    ensures Join(pieces + [last], sep) == Join(pieces, sep) + sep + last
    decreases |pieces|
  {
    var all := pieces + [last];
    if |pieces| == 1 {
      assert all[1..] == [last];
    } else {
      assert all[1..] == pieces[1..] + [last];
      JoinSnoc(pieces[1..], last, sep);
      var t := Join(pieces[1..], sep);
      assert pieces[0] + sep + (t + sep + last) == pieces[0] + sep + t + sep + last;
    }
  }

  /** Blocks that end in text come back out of a split at blank lines. */
  lemma {:induction false} SplitJoinBlank(pieces: seq<string>)
    requires |pieces| >= 1
    requires SeparablePieces(pieces)
    ensures Split(Join(pieces, "\n\n"), "\n\n") == pieces
    decreases |pieces|
  {
    assert SeparablePiece(pieces[0]);
    if |pieces| == 1 {
      SplitWhole(pieces[0], "\n\n");
    } else {
      var rest := Join(pieces[1..], "\n\n");
      BeforeBlank(pieces[0], rest);
      SplitHead(pieces[0], "\n\n", rest);
      assert SeparablePieces(pieces[1..]);
      SplitJoinBlank(pieces[1..]);
    }
  }

  lemma BeforeBlank(p: string, rest: string)
    requires SeparablePiece(p)
    ensures forall j :: 0 <= j < |p| ==> !OccursAt(p + "\n\n" + rest, "\n\n", j)
  {
    var s := p + "\n\n" + rest;
    forall j | 0 <= j < |p| ensures !OccursAt(s, "\n\n", j) {
      assert s[j..j + 2][0] == s[j] && s[j] == p[j];
      if j + 1 < |p| {
        assert s[j..j + 2] == p[j..j + 2];
        assert !OccursAt(p, "\n\n", j);
      }
    }
  }

  lemma {:induction false} JoinEnds(pieces: seq<string>, sep: string)
    requires |pieces| >= 1 && SeparablePieces(pieces)
    ensures Join(pieces, sep) != "" && Trimmed(Join(pieces, sep))
    decreases |pieces|
  {
    assert SeparablePiece(pieces[0]);
    if |pieces| > 1 {
      assert SeparablePieces(pieces[1..]);
      JoinEnds(pieces[1..], sep);
      var t := Join(pieces[1..], sep);
      var all := pieces[0] + sep + t;
      assert all[0] == pieces[0][0] && all[|all| - 1] == t[|t| - 1];
    }
  }

  /** A printed block list with its final blank line splits back into the blocks. */
  lemma BlocksOfPrinted(pieces: seq<string>)
    requires |pieces| >= 1 && SeparablePieces(pieces)
    ensures Split(TrimSpace(Join(pieces, "\n\n") + "\n\n"), "\n\n") == pieces
  {
    JoinEnds(pieces, "\n\n");
    TrimPrinted(Join(pieces, "\n\n"));
    SplitJoinBlank(pieces);
  }

  lemma TrimPrinted(text: string)
    requires text != "" && Trimmed(text)
    ensures TrimSpace(text + "\n\n") == text
  {
    TrimCore("", text, "\n\n", IsSpace);
    assert "" + text + "\n\n" == text + "\n\n";
  }

  /** Printed blocks without carriage-return line ends are read back block for block. */
  lemma PrintedBlocks(pre: string, docs: seq<string>)
    requires PreambleLike(pre) && SeparablePieces(docs) && NoCrLf(pre + "\n\n" + Bodies(docs))
    ensures Blocks(pre + "\n\n" + Bodies(docs)) == [pre] + docs
  {
    UnixNewlinesStays(pre + "\n\n" + Bodies(docs));
    BodiesJoin(pre, docs);
    BlocksOfPrinted([pre] + docs);
  }

  ghost predicate CrLfFree(docs: seq<string>) {
    forall k :: 0 <= k < |docs| ==> NoCrLf(docs[k])
  }

  lemma NoCrLfConcat(a: string, b: string)
    requires NoCrLf(a) && NoCrLf(b)
    requires a == "" || a[|a| - 1] != '\r'
    ensures NoCrLf(a + b)
  {
    var s := a + b;
    forall i | 0 <= i < |s| - 1 ensures !(s[i] == '\r' && s[i + 1] == '\n') {
      if i + 1 < |a| {
        assert !(a[i] == '\r' && a[i + 1] == '\n');
      } else if i >= |a| {
        assert !(b[i - |a|] == '\r' && b[i - |a| + 1] == '\n');
      }
    }
  }

  /** A line that has no newline inside and no return at its end. */
  predicate PlainLine(line: string) {
    '\n' !in line && (line != "" ==> line[|line| - 1] != '\r')
  }

  lemma {:induction false} JoinNoCrLf(lines: seq<string>)
    requires forall k :: 0 <= k < |lines| ==> PlainLine(lines[k])
    ensures NoCrLf(Join(lines, "\n"))
    decreases |lines|
  {
    if |lines| > 1 {
      JoinNoCrLf(lines[1..]);
      assert PlainLine(lines[0]);
      var head := lines[0] + "\n";
      assert NoCrLf(head);
      NoCrLfConcat(head, Join(lines[1..], "\n"));
    } else if |lines| == 1 {
      assert PlainLine(lines[0]);
    }
  }

  lemma NoCrLfBlank(left: string, doc: string)
    requires NoCrLf(left) && (left == "" || left[|left| - 1] == '\n') && NoCrLf(doc) && SeparablePiece(doc)
    ensures NoCrLf(left + doc + "\n\n")
  {
    NoCrLfConcat(left, doc);
    assert (left + doc)[|left + doc| - 1] == doc[|doc| - 1];
    NoCrLfConcat(left + doc, "\n\n");
  }

  lemma {:induction false} BodiesNoCrLf(docs: seq<string>)
    requires SeparablePieces(docs) && CrLfFree(docs)
    ensures NoCrLf(Bodies(docs)) && (Bodies(docs) == "" || Bodies(docs)[|Bodies(docs)| - 1] == '\n')
  {
    if |docs| > 0 {
      var n := |docs| - 1;
      assert SeparablePieces(docs[..n]) && CrLfFree(docs[..n]);
      BodiesNoCrLf(docs[..n]);
      assert SeparablePiece(docs[n]);
      NoCrLfBlank(Bodies(docs[..n]), docs[n]);
    }
  }

  lemma PrintedNoCrLf(pre: string, docs: seq<string>)
    requires PreambleLike(pre) && SeparablePieces(docs) && CrLfFree(docs)
    ensures NoCrLf(pre + "\n\n" + Bodies(docs))
  {
    BodiesNoCrLf(docs);
    NoCrLfConcat(pre + "\n\n", Bodies(docs));
  }

  // ------------------------------------ reading shortens text that holds "\r\n"

  function PieceWeight(pieces: seq<string>): nat {
    if |pieces| == 0 then 0 else PieceWeight(pieces[..|pieces| - 1]) + |pieces[|pieces| - 1]| + 2
  }

  lemma {:induction false} BodiesWeight(docs: seq<string>)
    ensures |Bodies(docs)| == PieceWeight(docs)
  {
    if |docs| > 0 {
      BodiesWeight(docs[..|docs| - 1]);
    }
  }

  lemma {:induction false} JoinWeight(pieces: seq<string>)
    requires |pieces| >= 1
    ensures |Join(pieces, "\n\n")| + 2 == PieceWeight(pieces)
    decreases |pieces|
  {
    var n := |pieces| - 1;
    if n == 0 {
      assert pieces[..0] == [];
    } else {
      JoinSnoc(pieces[..n], pieces[n], "\n\n");
      assert pieces[..n] + [pieces[n]] == pieces;
      JoinWeight(pieces[..n]);
    }
  }

  lemma {:induction false} PieceWeightHead(pieces: seq<string>)
    requires |pieces| >= 1
    ensures PieceWeight(pieces) == |pieces[0]| + 2 + PieceWeight(pieces[1..])
    decreases |pieces|
  {
    var n := |pieces| - 1;
    if n > 0 {
      PieceWeightHead(pieces[..n]);
      assert pieces[..n][1..] == pieces[1..][..n - 1];
    } else {
      assert pieces[..0] == [];
    }
  }

  /** All blocks together are exactly as long as the trimmed text. */
  lemma BlocksWeight(document: string)
    ensures |Blocks(document)[0]| + PieceWeight(Blocks(document)[1..]) == |TrimSpace(UnixNewlines(document))|
  {
    JoinSplit(TrimSpace(UnixNewlines(document)), "\n\n");
    JoinWeight(Blocks(document));
    PieceWeightHead(Blocks(document));
  }

  lemma PreambleUnix(pre: string, bodies: string)
    requires PreambleLike(pre)
    ensures UnixNewlines(pre + "\n\n" + bodies) == pre + "\n\n" + UnixNewlines(bodies)
  {
    NoCrLfConcat(pre, "\n\n");
    UnixNewlinesAfter(pre + "\n\n", bodies);
  }

  /** Reading a printed index never loses the preamble block. */
  lemma PreambleKept(pre: string, bodies: string)
    requires PreambleLike(pre)
    ensures |Blocks(pre + "\n\n" + bodies)[0]| >= |pre|
  {
    var whole := pre + "\n\n" + bodies;
    var unix := UnixNewlines(whole);
    PreambleUnix(pre, bodies);
    var u := UnixNewlines(bodies);
    var lo, hi := TrimPart(unix, IsSpace);
    var text := unix[lo..hi];
    assert unix[0] == pre[0] && unix[|pre| - 1] == pre[|pre| - 1];
    assert lo == 0 && hi >= |pre|;
    BeforeBlank(pre, u);
    var i := IndexOf(text, "\n\n");
    if i < |text| {
      SliceOfSlice(unix, 0, hi, i, i + 2);
      assert OccursAt(unix, "\n\n", i);
    }
  }

  lemma {:induction false} BodiesHold(docs: seq<string>, k: nat) returns (lo: nat)
    requires k < |docs|
    ensures lo + |docs[k]| <= |Bodies(docs)|
    ensures Bodies(docs)[lo..lo + |docs[k]|] == docs[k]
  {
    var n := |docs| - 1;
    var left := Bodies(docs[..n]);
    if k == n {
      lo := |left|;
    } else {
      lo := BodiesHold(docs[..n], k);
      assert Bodies(docs)[lo..lo + |docs[k]|] == left[lo..lo + |docs[k]|];
    }
  }

  lemma PrintedCrLf(pre: string, docs: seq<string>)
    requires !CrLfFree(docs)
    ensures !NoCrLf(pre + "\n\n" + Bodies(docs))
  {
    var k :| 0 <= k < |docs| && !NoCrLf(docs[k]);
    var i :| 0 <= i < |docs[k]| - 1 && docs[k][i] == '\r' && docs[k][i + 1] == '\n';
    var lo := BodiesHold(docs, k);
    var bodies := Bodies(docs);
    var part := bodies[lo..lo + |docs[k]|];
    assert part[i] == bodies[lo + i] && part[i + 1] == bodies[lo + i + 1];
    var text := pre + "\n\n" + bodies;
    assert text[|pre| + 2 + lo + i] == '\r' && text[|pre| + 2 + lo + i + 1] == '\n';
  }

  /** The final blank line of a printed index is always trimmed away. */
  lemma PrintedTail(pre: string, bodies: string)
    requires PreambleLike(pre)
    requires bodies == "" || (|bodies| >= 2 && bodies[|bodies| - 2..] == "\n\n")
    ensures |TrimSpace(UnixNewlines(pre + "\n\n" + bodies))| + 2 <= |UnixNewlines(pre + "\n\n" + bodies)|
  {
    var whole := pre + "\n\n" + bodies;
    var unix := UnixNewlines(whole);
    EndsBlank(whole);
    var lo, hi := TrimPart(unix, IsSpace);
    assert unix[|unix| - 2] == '\n' && unix[|unix| - 1] == '\n';
    if lo < hi {
      assert unix[lo..hi][hi - lo - 1] == unix[hi - 1];
    }
  }

  lemma {:induction false} EndsBlank(s: string)
    requires |s| >= 2 && s[|s| - 2..] == "\n\n"
    ensures |UnixNewlines(s)| >= 2 && UnixNewlines(s)[|UnixNewlines(s)| - 2..] == "\n\n"
  {
    assert s[|s| - 2] == s[|s| - 2..][0] && s[|s| - 1] == s[|s| - 2..][1];
    if |s| == 2 {
      assert UnixNewlines(s) == [s[0]] + UnixNewlines(s[1..]);
      assert UnixNewlines(s) == "\n\n";
    } else if s[0] == '\r' && s[1] == '\n' {
      if |s| == 3 {
        assert UnixNewlines(s) == "\n" + s[2..];
      } else {
        assert s[2..][|s| - 4..] == s[|s| - 2..];
        EndsBlank(s[2..]);
      }
    } else {
      assert s[1..][|s| - 3..] == s[|s| - 2..];
      EndsBlank(s[1..]);
    }
  }

  lemma BodiesEndBlank(docs: seq<string>)
    ensures Bodies(docs) == "" || (|Bodies(docs)| >= 2 && Bodies(docs)[|Bodies(docs)| - 2..] == "\n\n")
  {
  }

  /** Text with "\r\n" in a block reads back strictly shorter than it was printed. */
  lemma CrLfShortens(pre: string, docs: seq<string>)
    requires PreambleLike(pre) && !CrLfFree(docs)
    ensures PieceWeight(Blocks(pre + "\n\n" + Bodies(docs))[1..]) < PieceWeight(docs)
  {
    var text := pre + "\n\n" + Bodies(docs);
    PrintedCrLf(pre, docs);
    UnixNewlinesShrinks(text);
    PreambleKept(pre, Bodies(docs));
    BodiesWeight(docs);
    BodiesEndBlank(docs);
    PrintedTail(pre, Bodies(docs));
    BlocksWeight(text);
  }
}
