/** Small indexes written out: one that the merge accepts and that hides a carriage return, and one without returns
    (internal/binpkg/index_merge.go). */
module IndexExamples {
  import opened Text
  import opened IndexText
  import opened Ordering
  import opened PackagesIndex
  import opened PackagesMerge

  lemma {:induction false} Utf8Bound(s: string)
    ensures Utf8Len(s) <= 4 * |s|
  {
    if s != "" {
      Utf8Bound(s[1..]);
    }
  }

  lemma TwoBlocks(source: string, pre: string, doc: string)
    requires UnixNewlines(source) == pre + "\n\n" + doc && SeparablePiece(pre) && SeparablePiece(doc)
    ensures Blocks(source) == [pre, doc]
  {
    var text := pre + "\n\n" + doc;
    TrimmedStays(text);
    BeforeBlank(pre, doc);
    SplitHead(pre, "\n\n", doc);
    SplitWhole(doc, "\n\n");
  }

  lemma SmallIsRead(source: string)
    requires 0 < |source| <= MERGE_LIMIT / 4
    ensures Contribution(source) == ParseBody(source)
  {
    Utf8Bound(source);
  }

  lemma OneBlock(stanza: Stanza)
    requires LegalStanza(stanza)
    ensures FoldBlocks([stanza.document]) == Ok([stanza])
  {
    FoldDocs([stanza.document], [stanza]);
  }

  /** A preamble and one good block are one stanza. */
  lemma OneStanza(source: string, pre: string, fields: FieldMap, stanza: Stanza)
    requires Blocks(source) == [pre, stanza.document] && 0 < |source| <= MERGE_LIMIT / 4
    requires PackagesFields(pre) == Ok(fields) && Get(fields, "VERSION") == "0" && LegalStanza(stanza)
    ensures Contribution(source) == Ok([stanza])
  {
    SmallIsRead(source);
    OneBlock(stanza);
    assert [pre, stanza.document][1..] == [stanza.document];
  }

  function VersionFields(): seq<Field> {
    [Field("VERSION", "0")]
  }

  /** The version field alone is a preamble. */
  lemma VersionPreamble()
    ensures var text, fields := BlockText(VersionFields()), FieldsMap(VersionFields());
            SeparablePiece(text) && PackagesFields(text) == Ok(fields) && Get(fields, "VERSION") == "0"
  {
    var fields := VersionFields();
    VersionKeyGood();
    BlockFields(fields);
    FieldLookup(fields, 0);
    BlockShape(fields);
  }

  lemma PlainName()
    ensures SlashPath.IsRelativeFile("p")
  {
    forall i ensures !OccursAt("p", "/", i) {
      if 0 <= i && i + 1 <= |"p"| {
        assert "p"[i..i + 1][0] == 'p';
      }
    }
    SplitWhole("p", "/");
    SlashPath.RelativeFileIsNames("p");
  }

  /** Fields that make a stanza of their block. */
  lemma FieldsStanza(fields: seq<Field>, cpv: string, path: string, size: string)
    requires |fields| >= 3 && GoodFields(fields) && !IsSpace(fields[0].key[0])
    requires var last := fields[|fields| - 1].value; last != "" && !IsSpace(last[|last| - 1])
    requires fields[0] == Field("CPV", cpv) && fields[1] == Field("PATH", path) && fields[2] == Field("SIZE", size)
    requires cpv != "" && SlashPath.IsRelativeFile(path) && ParseInt(size).Some?
    ensures LegalStanza(Stanza(cpv, path, BlockText(fields)))
  {
    BlockFields(fields);
    BlockShape(fields);
    FieldLookup(fields, 0);
    FieldLookup(fields, 1);
    FieldLookup(fields, 2);
  }

  /** One of two returns before a newline goes. */
  lemma ReturnsCollapse(head: string, tail: string)
    requires '\r' !in head && '\r' !in tail
    ensures UnixNewlines(head + "\r\r\n" + tail) == head + "\r\n" + tail
  {
    TailCollapses(tail);
    UnixNewlinesAfter(head, "\r\r\n" + tail);
    Associate(head, "\r\r\n", tail);
    Associate(head, "\r\n", tail);
  }

  lemma Associate(a: string, b: string, c: string)
    ensures a + b + c == a + (b + c)
  {
  }

  lemma TailCollapses(tail: string)
    requires '\r' !in tail
    ensures UnixNewlines("\r\r\n" + tail) == "\r\n" + tail
  {
    var rest := "\r\r\n" + tail;
    assert rest[1..] == "\r\n" + tail && rest[1..][2..] == tail;
    UnixNewlinesStays(tail);
    assert UnixNewlines(rest[1..]) == "\n" + tail;
    assert UnixNewlines(rest) == "\r" + ("\n" + tail);
  }

  /** The fields of the hiding stanza; in the index X ends in two returns, in the stanza in one. */
  function HidingFields(x: string): seq<Field> {
    [Field("CPV", "a/b-1"), Field("PATH", "p"), Field("SIZE", "1"), Field("X", x), Field("Y", "b")]
  }

  function HidingIndex(): string {
    BlockText(VersionFields()) + "\n\n" + BlockText(HidingFields("a\r\r"))
  }

  lemma KeysGood(x: string)
    requires '\n' !in x
    ensures GoodFields(HidingFields(x))
  {
    var fields := HidingFields(x);
    assert forall k :: 0 <= k < |fields| ==> GoodField(fields[k]);
    assert fields[1].key[0] == 'P' && fields[2].key[0] == 'S' && fields[0].key[0] == 'C';
    assert fields[3].key[0] == 'X' && fields[4].key[0] == 'Y';
  }

  lemma JoinFive(a: string, b: string, c: string, d: string, e: string)
    ensures Join([a, b, c, d, e], "\n") == a + "\n" + (b + "\n" + c + "\n" + d + "\n" + e)
  {
    assert [a, b, c, d, e][1..] == [b, c, d, e];
    JoinFour(b, c, d, e);
  }

  lemma Regroup(a: string, b: string, c: string, d: string, x: string, e: string)
    ensures a + "\n" + (b + "\n" + c + "\n" + (d + x) + "\n" + e) == (a + "\n" + b + "\n" + c + "\n" + d) + x + "\n" + e
  {
  }

  /** What precedes the value of X, and what follows it. */
  function HidingHead(): string {
    ("CPV" + ": " + "a/b-1") + "\n" + ("PATH" + ": " + "p") + "\n" + ("SIZE" + ": " + "1") + "\n" + ("X" + ": ")
  }

  function HidingTail(): string {
    "Y" + ": " + "b"
  }

  lemma HidingText(x: string)
    ensures BlockText(HidingFields(x)) == HidingHead() + x + "\n" + HidingTail()
  {
    var a, b, c := "CPV" + ": " + "a/b-1", "PATH" + ": " + "p", "SIZE" + ": " + "1";
    var d, e := "X" + ": ", "Y" + ": " + "b";
    var lines := Lines(HidingFields(x));
    assert lines == [a, b, c, d + x, e];
    JoinFive(a, b, c, d + x, e);
    Regroup(a, b, c, d, x, e);
  }

  lemma NoReturnsAround()
    ensures '\r' !in BlockText(VersionFields()) + "\n\n" + HidingHead() + "a" && '\r' !in HidingTail()
    ensures |BlockText(VersionFields()) + "\n\n" + HidingHead() + "a"| <= 100 && |HidingTail()| <= 4
  {
    assert Lines(VersionFields()) == ["VERSION" + ": " + "0"];
  }

  lemma AroundReturns(pre: string, head: string, tail: string)
    ensures pre + "\n\n" + (head + "a\r\r" + "\n" + tail) == (pre + "\n\n" + head + "a") + "\r\r\n" + tail
    ensures pre + "\n\n" + (head + "a\r" + "\n" + tail) == (pre + "\n\n" + head + "a") + "\r\n" + tail
  {
  }

  /** Normalising line ends turns the two returns into one. */
  lemma HidingNewlines()
    ensures UnixNewlines(HidingIndex()) == BlockText(VersionFields()) + "\n\n" + BlockText(HidingFields("a\r"))
    ensures 0 < |HidingIndex()| <= 200
  {
    var pre, head, tail := BlockText(VersionFields()), HidingHead(), HidingTail();
    NoReturnsAround();
    HidingText("a\r\r");
    HidingText("a\r");
    AroundReturns(pre, head, tail);
    ReturnsCollapse(pre + "\n\n" + head + "a", tail);
  }

  lemma VersionText()
    ensures BlockText(VersionFields()) == "VERSION: 0"
  {
    assert Lines(VersionFields()) == ["VERSION" + ": " + "0"];
  }

  lemma HidingHeadText()
    ensures HidingHead() == "CPV: a/b-1\nPATH: p\nSIZE: 1\nX: "
  {
  }

  lemma HidingTailText()
    ensures HidingTail() == "Y: b"
  {
  }

  /** The index, character by character. */
  lemma HidingIndexText()
    ensures HidingIndex() == "VERSION: 0" + "\n\n" + ("CPV: a/b-1\nPATH: p\nSIZE: 1\nX: " + "a\r\r" + "\n" + "Y: b")
  {
    VersionText();
    HidingText("a\r\r");
    HidingHeadText();
    HidingTailText();
  }

  function HidingStanza(): Stanza {
    Stanza("a/b-1", "p", BlockText(HidingFields("a\r")))
  }

  lemma ReturnInside(head: string, tail: string)
    ensures !NoCrLf(head + "a\r" + "\n" + tail)
  {
    var doc := head + "a\r" + "\n" + tail;
    assert doc[|head| + 1] == '\r' && doc[|head| + 2] == '\n';
  }

  lemma HidingHoldsReturn()
    ensures !NoCrLf(HidingStanza().document)
  {
    HidingText("a\r");
    ReturnInside(HidingHead(), HidingTail());
  }

  lemma OneIsANumber()
    ensures ParseInt("1").Some?
  {
  }

  lemma HidingIsLegal()
    ensures LegalStanza(HidingStanza())
  {
    KeysGood("a\r");
    PlainName();
    OneIsANumber();
    FieldsStanza(HidingFields("a\r"), "a/b-1", "p", "1");
  }

  /** Over nothing, one stanza stays one stanza. */
  lemma SingleMerge(stanza: Stanza)
    ensures MergeStanzas([], [stanza]) == [stanza]
  {
    var m := ByPath([]) + ByPath([stanza]);
    assert [stanza][..0] == [];
    assert m == map[stanza.path := stanza];
    assert m.Values == {stanza} by {
      assert m[stanza.path] in m.Values;
    }
    UnionKeyed([], [stanza]);
    KeyedTotal(m);
    BeforeIsStrict();
    ListingElements(Before, m.Values);
    ListingOrdered(Before, m.Values);
    var list := MergeStanzas([], [stanza]);
    OrderedDistinct(Before, list);
    assert stanza in Elements(list);
    forall k | 0 <= k < |list| ensures list[k] == stanza {
      assert list[k] in Elements(list);
    }
  }

  /** Any accepted index whose one stanza holds "\r\n" is lost by the merge. */
  lemma HidingIsLost(source: string, stanza: Stanza, arch: string, seconds: int)
    requires Contribution(source) == Ok([stanza]) && !NoCrLf(stanza.document)
    requires PlainArch(arch) && TrimSpace(arch) != ""
    ensures !Mergeable(source) && Merge("", source, arch, Some(seconds)).Ok?
    ensures ParseBody(Merge("", source, arch, Some(seconds)).value) != Ok(MergeStanzas([], [stanza]))
  {
    assert Documents([stanza])[0] == stanza.document;
    SingleMerge(stanza);
    MergeReadsBack("", source, arch, seconds, Merge("", source, arch, Some(seconds)).value);
  }

  lemma HidingIsAccepted()
    ensures Contribution(HidingIndex()) == Ok([HidingStanza()])
  {
    HidingIsLegal();
    HidingNewlines();
    VersionPreamble();
    TwoBlocks(HidingIndex(), BlockText(VersionFields()), HidingStanza().document);
    OneStanza(HidingIndex(), BlockText(VersionFields()), FieldsMap(VersionFields()), HidingStanza());
  }

  /** The condition on "\r\n" is not automatic. The index of two blocks, "VERSION: 0" and the lines CPV: a/b-1, PATH: p,
      SIZE: 1, X: a and Y: b with two returns after the a, is accepted; it is not mergeable, and its merge does not read
      back as the overlay. */
  lemma CarriageReturnsCanHide(arch: string, seconds: int)
    requires PlainArch(arch) && TrimSpace(arch) != ""
    ensures Contribution(HidingIndex()) == Ok([HidingStanza()])
    ensures !Mergeable(HidingIndex())
    ensures Merge("", HidingIndex(), arch, Some(seconds)).Ok?
    ensures ParseBody(Merge("", HidingIndex(), arch, Some(seconds)).value) != Ok(MergeStanzas([], [HidingStanza()]))
  {
    HidingIsAccepted();
    HidingHoldsReturn();
    HidingIsLost(HidingIndex(), HidingStanza(), arch, seconds);
  }

  // ----------------------------------------------------------- an index without returns

  function PlainFields(): seq<Field> {
    [Field("CPV", "a/b-1"), Field("PATH", "p"), Field("SIZE", "1")]
  }

  function PlainStanza(): Stanza {
    Stanza("a/b-1", "p", BlockText(PlainFields()))
  }

  function PlainIndex(): string {
    BlockText(VersionFields()) + "\n\n" + BlockText(PlainFields())
  }

  lemma PlainText()
    ensures BlockText(PlainFields()) == ("CPV" + ": " + "a/b-1") + "\n" + (("PATH" + ": " + "p") + "\n" + ("SIZE"
            + ": " + "1"))
  {
    var a, b, c := "CPV" + ": " + "a/b-1", "PATH" + ": " + "p", "SIZE" + ": " + "1";
    assert Lines(PlainFields()) == [a, b, c];
    assert [a, b, c][1..] == [b, c] && [b, c][1..] == [c];
    assert Join([b, c], "\n") == b + "\n" + c;
  }

  lemma PlainKeysGood()
    ensures GoodFields(PlainFields())
  {
    var fields := PlainFields();
    assert forall k :: 0 <= k < |fields| ==> GoodField(fields[k]);
    assert fields[1].key[0] == 'P' && fields[2].key[0] == 'S' && fields[0].key[0] == 'C';
  }

  lemma PlainIsLegal()
    ensures LegalStanza(PlainStanza())
  {
    PlainKeysGood();
    PlainName();
    OneIsANumber();
    FieldsStanza(PlainFields(), "a/b-1", "p", "1");
  }

  lemma VersionHasNoReturns()
    ensures '\r' !in BlockText(VersionFields()) && |BlockText(VersionFields())| == 10
  {
    VersionText();
  }

  lemma PlainHasNoReturns()
    ensures '\r' !in BlockText(PlainFields()) && |BlockText(PlainFields())| <= 40
  {
    var a, b, c := "CPV" + ": " + "a/b-1", "PATH" + ": " + "p", "SIZE" + ": " + "1";
    assert '\r' !in a && |a| == 10;
    assert '\r' !in b && |b| == 7;
    assert '\r' !in c && |c| == 7;
    PlainText();
    NoReturnsTogether(a, b, c);
  }

  lemma NoReturnsTogether(a: string, b: string, c: string)
    requires '\r' !in a && '\r' !in b && '\r' !in c
    ensures '\r' !in a + "\n" + (b + "\n" + c)
  {
  }

  lemma PlainStays(pre: string, doc: string)
    requires '\r' !in pre && '\r' !in doc
    ensures var source := pre + "\n\n" + doc; '\r' !in source && UnixNewlines(source) == source
  {
    UnixNewlinesStays(pre + "\n\n" + doc);
  }

  /** An index of one stanza without returns is mergeable. */
  lemma AcceptedPlain(pre: string, fields: FieldMap, stanza: Stanza)
    requires '\r' !in pre && '\r' !in stanza.document && |pre| + |stanza.document| <= 1000
    requires SeparablePiece(pre) && PackagesFields(pre) == Ok(fields) && Get(fields, "VERSION") == "0"
    requires LegalStanza(stanza)
    ensures Contribution(pre + "\n\n" + stanza.document) == Ok([stanza]) && Mergeable(pre + "\n\n" + stanza.document)
  {
    var source := pre + "\n\n" + stanza.document;
    PlainStays(pre, stanza.document);
    TwoBlocks(source, pre, stanza.document);
    OneStanza(source, pre, fields, stanza);
    NoReturnsIsMergeable(source);
  }

  lemma PlainIsAccepted()
    ensures Contribution(PlainIndex()) == Ok([PlainStanza()]) && Mergeable(PlainIndex())
  {
    PlainIsLegal();
    VersionHasNoReturns();
    PlainHasNoReturns();
    VersionPreamble();
    AcceptedPlain(BlockText(VersionFields()), FieldsMap(VersionFields()), PlainStanza());
  }

  lemma PreambleSmall(arch: string)
    ensures |PreambleText(arch, 0, 1)| <= |arch| + 60
  {
    PreambleLines(arch, 0, 1);
  }

  /** Its merge into nothing is far below the size limit. */
  lemma PlainMergeSmall(arch: string)
    requires |arch| <= 1000
    ensures Utf8Len(Render(MergeStanzas([], [PlainStanza()]), arch, 0)) <= MERGE_LIMIT
  {
    var docs := Documents([PlainStanza()]);
    SingleMerge(PlainStanza());
    PreambleSmall(arch);
    PlainHasNoReturns();
    assert docs == [PlainStanza().document] && docs[..0] == [];
    assert Bodies(docs[..0]) == "";
    Utf8Bound(Render([PlainStanza()], arch, 0));
  }
}
