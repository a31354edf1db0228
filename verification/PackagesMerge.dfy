/** MergePackagesIndexes (internal/binpkg/index_merge.go): overlaying one index on another, the order
    of the output, and the algebra that makes repeated publication safe. */
module PackagesMerge {
  import opened Text
  import opened IndexText
  import opened Ordering
  import opened PackagesIndex

  // ----------------------------------------------------------------- the order

  /** The comparison given to sort.Slice. */
  predicate Before(a: Stanza, b: Stanza) {
    if a.cpv != b.cpv then Less(a.cpv, b.cpv) else Less(a.path, b.path)
  }

  lemma BeforeTransitive(a: Stanza, b: Stanza, c: Stanza)
    requires Before(a, b) && Before(b, c)
    ensures Before(a, c)
  {
    if a.cpv == b.cpv && b.cpv == c.cpv {
      LessTransitive(a.path, b.path, c.path);
    } else if a.cpv != b.cpv && b.cpv != c.cpv {
      LessTransitive(a.cpv, b.cpv, c.cpv);
      LessIrreflexive(a.cpv);
    }
  }

  lemma BeforeIsStrict()
    ensures StrictOrder(Before)
  {
    forall a: Stanza ensures !Before(a, a) {
      LessIrreflexive(a.path);
    }
    forall a: Stanza, b: Stanza, c: Stanza | Before(a, b) && Before(b, c) ensures Before(a, c) {
      BeforeTransitive(a, b, c);
    }
  }

  // --------------------------------------------------- stanzas keyed by PATH

  ghost predicate Keyed(m: map<string, Stanza>) {
    forall p :: p in m ==> m[p].path == p
  }

  function ByPath(stanzas: seq<Stanza>): map<string, Stanza> {
    if |stanzas| == 0 then map[]
    else ByPath(stanzas[..|stanzas| - 1])[stanzas[|stanzas| - 1].path := stanzas[|stanzas| - 1]]
  }

  lemma {:induction false} ByPathKeyed(stanzas: seq<Stanza>)
    ensures Keyed(ByPath(stanzas))
    ensures ByPath(stanzas).Keys == Paths(stanzas)
    ensures forall p :: p in ByPath(stanzas) ==> ByPath(stanzas)[p] in stanzas
  {
    var n := |stanzas| - 1;
    if n >= 0 {
      ByPathKeyed(stanzas[..n]);
      assert Paths(stanzas) == Paths(stanzas[..n]) + {stanzas[n].path};
    }
  }

  lemma ListsIsByPath(stanzas: seq<Stanza>, m: map<string, Stanza>)
    requires Elements(stanzas) == m.Values && Keyed(m)
    ensures ByPath(stanzas) == m
  {
    ByPathKeyed(stanzas);
    var b := ByPath(stanzas);
    forall p | p in m ensures p in b && b[p] == m[p] {
      assert m[p] in Elements(stanzas);
      var k :| 0 <= k < |stanzas| && stanzas[k] == m[p];
      assert stanzas[k].path in Paths(stanzas);
      assert b[p] in Elements(stanzas);
    }
    forall p | p in b ensures p in m {
      assert b[p] in Elements(stanzas);
    }
    assert b.Keys == m.Keys;
  }

  lemma KeyedTotal(m: map<string, Stanza>)
    requires Keyed(m)
    ensures TotalOn(Before, m.Values)
  {
    forall a, b | a in m.Values && b in m.Values && a != b ensures Before(a, b) || Before(b, a) {
      LessTotal(a.cpv, b.cpv);
      LessTotal(a.path, b.path);
    }
  }

  // ------------------------------------------------------------------- merging

  function Contribution(source: string): Result<seq<Stanza>, IndexError> {
    if source == "" then Ok([]) else ParsePackagesStanzas(source)
  }

  ghost function MergeStanzas(previous: seq<Stanza>, current: seq<Stanza>): seq<Stanza> {
    Listing(Before, (ByPath(previous) + ByPath(current)).Values)
  }

  /** MergePackagesIndexes; the absent time is Go's zero time. */
  ghost function Merge(previous: string, current: string, arch: string, seconds: Option<int>)
    : Result<string, IndexError>
  {
    if TrimSpace(arch) == "" || seconds.None? then Err(NoArchitectureOrTime)
    else
      match Contribution(previous)
      case Err(e) => Err(e)
      case Ok(older) =>
        match Contribution(current)
        case Err(e) => Err(e)
        case Ok(newer) => Ok(Render(MergeStanzas(older, newer), arch, seconds.value))
  }

  lemma ContributionIsLegal(source: string)
    requires Contribution(source).Ok?
    ensures Legal(Contribution(source).value)
  {
    if source != "" {
      ParsedIsLegal(source);
    }
  }

  lemma UnionKeyed(a: seq<Stanza>, b: seq<Stanza>)
    ensures Keyed(ByPath(a) + ByPath(b))
  {
    ByPathKeyed(a);
    ByPathKeyed(b);
  }

  /** A merge is a legal, strictly ordered list of exactly the right-biased overlay by PATH. */
  lemma MergedStanzas(older: seq<Stanza>, newer: seq<Stanza>)
    requires Legal(older) && Legal(newer)
    ensures var merged := MergeStanzas(older, newer);
            && Legal(merged) && Ordered(Before, merged)
            && ByPath(merged) == ByPath(older) + ByPath(newer)
            && forall s :: s in merged ==> s in older || s in newer
  {
    var m := ByPath(older) + ByPath(newer);
    var merged := MergeStanzas(older, newer);
    UnionKeyed(older, newer);
    KeyedTotal(m);
    BeforeIsStrict();
    ListingOrdered(Before, m.Values);
    ListingElements(Before, m.Values);
    OrderedDistinct(Before, merged);
    ListsIsByPath(merged, m);
    MergedMembers(older, newer, merged);
    MergedLegal(older, newer, merged, m);
  }

  lemma MergedMembers(older: seq<Stanza>, newer: seq<Stanza>, merged: seq<Stanza>)
    requires Elements(merged) == (ByPath(older) + ByPath(newer)).Values
    ensures forall s :: s in merged ==> s in older || s in newer
  {
    ByPathKeyed(older);
    ByPathKeyed(newer);
    forall s | s in merged ensures s in older || s in newer {
      assert s in Elements(merged);
    }
  }

  lemma MergedLegal(older: seq<Stanza>, newer: seq<Stanza>, merged: seq<Stanza>, m: map<string, Stanza>)
    requires Legal(older) && Legal(newer) && Keyed(m) && Elements(merged) == m.Values && Distinct(merged)
    requires forall s :: s in merged ==> s in older || s in newer
    ensures Legal(merged)
  {
    forall k | 0 <= k < |merged| ensures LegalStanza(merged[k]) {
      assert merged[k] in older || merged[k] in newer;
    }
    forall i, j | 0 <= i < j < |merged| ensures merged[i].path != merged[j].path {
      assert merged[i] in Elements(merged) && merged[j] in Elements(merged);
    }
  }

  lemma CrLfFreeMerge(older: seq<Stanza>, newer: seq<Stanza>)
    requires Legal(older) && Legal(newer) && CrLfFree(Documents(older)) && CrLfFree(Documents(newer))
    ensures CrLfFree(Documents(MergeStanzas(older, newer)))
  {
    MergedStanzas(older, newer);
    var merged := MergeStanzas(older, newer);
    forall k | 0 <= k < |merged| ensures NoCrLf(Documents(merged)[k]) {
      assert merged[k] in older || merged[k] in newer;
      if merged[k] in older {
        var i :| 0 <= i < |older| && older[i] == merged[k];
        assert NoCrLf(Documents(older)[i]);
      } else {
        var i :| 0 <= i < |newer| && newer[i] == merged[k];
        assert NoCrLf(Documents(newer)[i]);
      }
    }
  }

  /** The output of a merge reads back as the overlay exactly when no overlaid stanza holds "\r\n". */
  lemma MergeReadsBack(previous: string, current: string, arch: string, seconds: int, out: string)
    requires Merge(previous, current, arch, Some(seconds)) == Ok(out) && PlainArch(arch)
    ensures var older, newer := Contribution(previous).value, Contribution(current).value;
            var merged := MergeStanzas(older, newer);
            && Legal(merged) && Ordered(Before, merged)
            && ByPath(merged) == ByPath(older) + ByPath(newer)
            && (ParseBody(out) == Ok(merged) <==> CrLfFree(Documents(merged)))
            && (CrLfFree(Documents(merged)) ==>
                  var preamble := PackagesFields(Blocks(out)[0]);
                  preamble.Ok? && Get(preamble.value, "PACKAGES") == Decimal(|merged|))
  {
    ContributionIsLegal(previous);
    ContributionIsLegal(current);
    var older, newer := Contribution(previous).value, Contribution(current).value;
    var merged := MergeStanzas(older, newer);
    MergedStanzas(older, newer);
    ParseRendered(merged, arch, seconds);
    if CrLfFree(Documents(merged)) {
      RenderedPreamble(merged, arch, seconds);
    }
  }

  /** A source the merge can fold in again: absent, or an accepted index without "\r\n" inside a stanza. */
  ghost predicate Mergeable(source: string) {
    Contribution(source).Ok? && CrLfFree(Documents(Contribution(source).value))
  }

  /** The result of merging mergeable sources is mergeable, up to the size limit. */
  lemma MergeClosed(a: string, b: string, arch: string, seconds: int, out: string)
    requires Mergeable(a) && Mergeable(b) && PlainArch(arch)
    requires Merge(a, b, arch, Some(seconds)) == Ok(out)
    ensures ParseBody(out) == Ok(MergeStanzas(Contribution(a).value, Contribution(b).value))
    ensures Mergeable(out) <==> Utf8Len(out) <= MERGE_LIMIT
    ensures Mergeable(out) ==>
              ByPath(Contribution(out).value) == ByPath(Contribution(a).value) + ByPath(Contribution(b).value)
  {
    ContributionIsLegal(a);
    ContributionIsLegal(b);
    CrLfFreeMerge(Contribution(a).value, Contribution(b).value);
    MergeReadsBack(a, b, arch, seconds, out);
    RenderNonEmpty(MergeStanzas(Contribution(a).value, Contribution(b).value), arch, seconds);
  }

  lemma RenderNonEmpty(stanzas: seq<Stanza>, arch: string, seconds: int)
    ensures Render(stanzas, arch, seconds) != ""
  {
    assert |PreambleText(arch, seconds, |stanzas|) + "\n\n"| >= 2;
  }

  /** Merging is associative on bytes: the grouping of publications never shows. */
  lemma MergeAssociative(a: string, b: string, c: string, arch: string, seconds: int, ab: string, bc: string)
    requires Mergeable(a) && Mergeable(b) && Mergeable(c) && PlainArch(arch)
    requires Merge(a, b, arch, Some(seconds)) == Ok(ab) && Utf8Len(ab) <= MERGE_LIMIT
    requires Merge(b, c, arch, Some(seconds)) == Ok(bc) && Utf8Len(bc) <= MERGE_LIMIT
    ensures Merge(ab, c, arch, Some(seconds)).Ok?
    ensures Merge(ab, c, arch, Some(seconds)) == Merge(a, bc, arch, Some(seconds))
  {
    MergeClosed(a, b, arch, seconds, ab);
    MergeClosed(b, c, arch, seconds, bc);
    UnionAssociative(ByPath(Contribution(a).value), ByPath(Contribution(b).value), ByPath(Contribution(c).value));
  }

  lemma UnionAssociative(a: map<string, Stanza>, b: map<string, Stanza>, c: map<string, Stanza>)
    ensures (a + b) + c == a + (b + c)
  {
  }

  lemma UnionIdempotent(m: map<string, Stanza>)
    ensures m + m == m && m + ByPath([]) == m && ByPath([]) + m == m
  {
  }

  /** Merging an index with itself, or with nothing, only normalises it. */
  lemma MergeIdempotent(a: string, arch: string, seconds: Option<int>)
    ensures Merge(a, a, arch, seconds) == Merge(a, "", arch, seconds)
    ensures Merge("", a, arch, seconds) == Merge(a, "", arch, seconds)
  {
    if Contribution(a).Ok? {
      UnionIdempotent(ByPath(Contribution(a).value));
    }
  }

  /** The empty index is a two-sided identity on merge outputs, byte for byte. */
  lemma MergeIdentity(a: string, b: string, arch: string, seconds: int, out: string)
    requires Mergeable(a) && Mergeable(b) && PlainArch(arch)
    requires Merge(a, b, arch, Some(seconds)) == Ok(out) && Utf8Len(out) <= MERGE_LIMIT
    ensures Merge(out, "", arch, Some(seconds)) == Ok(out)
    ensures Merge("", out, arch, Some(seconds)) == Ok(out)
    ensures Merge(out, out, arch, Some(seconds)) == Ok(out)
  {
    MergeClosed(a, b, arch, seconds, out);
    UnionIdempotent(ByPath(Contribution(a).value) + ByPath(Contribution(b).value));
    MergeIdempotent(out, arch, Some(seconds));
  }

  /** Once a path is in a published index it is in every later merge. */
  lemma MergeKeepsPaths(a: string, b: string, arch: string, seconds: int, out: string)
    requires Mergeable(a) && Mergeable(b) && PlainArch(arch)
    requires Merge(a, b, arch, Some(seconds)) == Ok(out)
    ensures ParseBody(out).Ok?
    ensures Paths(ParseBody(out).value) == Paths(Contribution(a).value) + Paths(Contribution(b).value)
  {
    MergeClosed(a, b, arch, seconds, out);
    ContributionIsLegal(a);
    ContributionIsLegal(b);
    MergedStanzas(Contribution(a).value, Contribution(b).value);
    ByPathKeyed(Contribution(a).value);
    ByPathKeyed(Contribution(b).value);
    ByPathKeyed(ParseBody(out).value);
  }

  // -------------------------------------------------- a sufficient input check

  lemma {:induction false} UnixNewlinesChars(s: string, c: char)
    requires c !in s && c != '\n'
    ensures c !in UnixNewlines(s)
  {
    if |s| >= 2 {
      if s[0] == '\r' && s[1] == '\n' {
        UnixNewlinesChars(s[2..], c);
      } else {
        UnixNewlinesChars(s[1..], c);
      }
    }
  }

  lemma {:induction false} SplitChars(s: string, sep: string, c: char)
    requires c !in s && sep != ""
    ensures forall k :: 0 <= k < |Split(s, sep)| ==> c !in Split(s, sep)[k]
    decreases |s|
  {
    var i := IndexOf(s, sep);
    if i < |s| {
      SplitChars(s[i + |sep|..], sep, c);
    }
  }

  lemma {:induction false} FoldChars(blocks: seq<string>, c: char)
    requires FoldBlocks(blocks).Ok? && forall k :: 0 <= k < |blocks| ==> c !in blocks[k]
    ensures forall s :: s in FoldBlocks(blocks).value ==> c !in s.document
  {
    var n := |blocks| - 1;
    if n >= 0 {
      FoldChars(blocks[..n], c);
      var lo, hi := TrimPart(blocks[n], IsSpace);
      assert c !in TrimSpace(blocks[n]);
      AddedDocument(FoldBlocks(blocks[..n]).value, blocks[n]);
    }
  }

  lemma AddedDocument(stanzas: seq<Stanza>, raw: string)
    requires AddBlock(stanzas, raw).Ok?
    ensures forall s :: s in AddBlock(stanzas, raw).value ==> s in stanzas || s.document == TrimSpace(raw)
  {
  }

  /** An accepted index without carriage returns is always mergeable. */
  lemma NoReturnsIsMergeable(source: string)
    requires Contribution(source).Ok? && '\r' !in source
    ensures Mergeable(source)
  {
    if source != "" {
      UnixNewlinesChars(source, '\r');
      var unix := UnixNewlines(source);
      var lo, hi := TrimPart(unix, IsSpace);
      assert '\r' !in TrimSpace(unix);
      SplitChars(TrimSpace(unix), "\n\n", '\r');
      FoldChars(Blocks(source)[1..], '\r');
    }
  }

  // ------------------------------------------------------------ the Go routines

  method ParseFields(block: string) returns (r: Result<FieldMap, IndexError>)
    ensures r == PackagesFields(block)
  {
    var lines := Split(block, "\n");
    var fields: FieldMap := map[];
    for i := 0 to |lines|
      invariant FoldLines(lines[..i]) == Ok(fields)
    {
      assert lines[..i + 1][..i] == lines[..i];
      var cut := Cut(lines[i], ": ");
      if cut.None? || cut.value.0 == "" || ' ' in cut.value.0 || '\t' in cut.value.0 {
        FoldStopsLines(lines, i + 1);
        return Err(MalformedLine);
      }
      var (key, value) := cut.value;
      if key in fields {
        FoldStopsLines(lines, i + 1);
        return Err(DuplicateField(key));
      }
      fields := fields[key := value];
    }
    assert lines[..|lines|] == lines;
    return Ok(fields);
  }

  lemma {:induction false} FoldStopsLines(lines: seq<string>, i: nat)
    requires i <= |lines| && FoldLines(lines[..i]).Err?
    ensures FoldLines(lines) == FoldLines(lines[..i])
    decreases |lines|
  {
    if i == |lines| {
      assert lines[..i] == lines;
    } else {
      assert lines[..|lines| - 1][..i] == lines[..i];
      FoldStopsLines(lines[..|lines| - 1], i);
    }
  }

  lemma {:induction false} FoldStopsBlocks(blocks: seq<string>, i: nat)
    requires i <= |blocks| && FoldBlocks(blocks[..i]).Err?
    ensures FoldBlocks(blocks) == FoldBlocks(blocks[..i])
    decreases |blocks|
  {
    if i == |blocks| {
      assert blocks[..i] == blocks;
    } else {
      assert blocks[..|blocks| - 1][..i] == blocks[..i];
      FoldStopsBlocks(blocks[..|blocks| - 1], i);
    }
  }

  method ParseBlock(stanzas: seq<Stanza>, seen: set<string>, raw: string) returns (r: Result<seq<Stanza>, IndexError>)
    requires seen == Paths(stanzas)
    ensures r == AddBlock(stanzas, raw)
  {
    var block := TrimSpace(raw);
    if block == "" {
      return Ok(stanzas);
    }
    var parsed := ParseFields(block);
    if parsed.Err? {
      return Err(parsed.error);
    }
    var cpv, relative := Get(parsed.value, "CPV"), Get(parsed.value, "PATH");
    if cpv == "" || !SlashPath.IsRelativeFile(relative) {
      return Err(BadIdentity);
    }
    if ParseInt(Get(parsed.value, "SIZE")).None? {
      return Err(BadSize(relative));
    }
    if relative in seen {
      return Err(RepeatedPath(relative));
    }
    return Ok(stanzas + [Stanza(cpv, relative, block)]);
  }

  method ParseBlocks(rest: seq<string>) returns (r: Result<seq<Stanza>, IndexError>)
    ensures r == FoldBlocks(rest)
  {
    var stanzas: seq<Stanza> := [];
    for i := 0 to |rest|
      invariant FoldBlocks(rest[..i]) == Ok(stanzas)
    {
      assert rest[..i + 1][..i] == rest[..i];
      FoldStep(rest[..i + 1], i, stanzas);
      var next := ParseBlock(stanzas, Paths(stanzas), rest[i]);
      if next.Err? {
        FoldStopsBlocks(rest, i + 1);
        return Err(next.error);
      }
      stanzas := next.value;
    }
    assert rest[..|rest|] == rest;
    return Ok(stanzas);
  }

  method ParseStanzas(document: string) returns (r: Result<seq<Stanza>, IndexError>)
    ensures r == ParsePackagesStanzas(document)
  {
    if Utf8Len(document) > MERGE_LIMIT {
      return Err(TooLarge);
    }
    var blocks := Blocks(document);
    var preamble := ParseFields(blocks[0]);
    if preamble.Err? || Get(preamble.value, "VERSION") != "0" {
      return Err(BadPreamble);
    }
    r := ParseBlocks(blocks[1..]);
  }

  /** `merged[stanza.path] = stanza` for every stanza of one source. */
  method Overlay(merged: map<string, Stanza>, stanzas: seq<Stanza>) returns (m: map<string, Stanza>)
    ensures m == merged + ByPath(stanzas)
  {
    m := merged;
    for i := 0 to |stanzas|
      invariant m == merged + ByPath(stanzas[..i])
    {
      assert stanzas[..i + 1][..i] == stanzas[..i];
      m := m[stanzas[i].path := stanzas[i]];
    }
    assert stanzas[..|stanzas|] == stanzas;
  }

  method ReadSource(source: string) returns (r: Result<seq<Stanza>, IndexError>)
    ensures r == Contribution(source)
  {
    if source == "" {
      return Ok([]);
    }
    r := ParseStanzas(source);
  }

  lemma JoinFour(a: string, b: string, c: string, d: string)
    ensures Join([a, b, c, d], "\n") == a + "\n" + b + "\n" + c + "\n" + d
  {
    assert [a, b, c, d][1..] == [b, c, d] && [b, c, d][1..] == [c, d] && [c, d][1..] == [d];
    assert Join([c, d], "\n") == c + "\n" + d;
    assert Join([b, c, d], "\n") == b + "\n" + (c + "\n" + d);
  }

  lemma PreambleLines(arch: string, seconds: int, count: nat)
    ensures PreambleText(arch, seconds, count)
         == ("ARCH: " + arch) + "\n" + ("TIMESTAMP: " + SignedDecimal(seconds)) + "\n" + "VERSION: 0" + "\n"
            + ("PACKAGES: " + Decimal(count))
  {
    var a, b := "ARCH" + ": " + arch, "TIMESTAMP" + ": " + SignedDecimal(seconds);
    var c, d := "VERSION" + ": " + "0", "PACKAGES" + ": " + Decimal(count);
    assert Lines(PreambleFields(arch, seconds, count)) == [a, b, c, d];
    JoinFour(a, b, c, d);
    assert a == "ARCH: " + arch && b == "TIMESTAMP: " + SignedDecimal(seconds);
    assert c == "VERSION: 0" && d == "PACKAGES: " + Decimal(count);
  }

  method PrintMergedPreamble(arch: string, seconds: int, count: nat) returns (output: string)
    ensures output == PreambleText(arch, seconds, count) + "\n\n"
  {
    output := ("ARCH: " + arch) + "\n" + ("TIMESTAMP: " + SignedDecimal(seconds)) + "\n" + "VERSION: 0" + "\n"
    + ("PACKAGES: " + Decimal(count));
    PreambleLines(arch, seconds, count);
    output := output + "\n\n";
  }

  method PrintIndex(ordered: seq<Stanza>, arch: string, seconds: int) returns (output: string)
    ensures output == Render(ordered, arch, seconds)
  {
    output := PrintMergedPreamble(arch, seconds, |ordered|);
    ghost var docs := Documents(ordered);
    ghost var head := output;
    for i := 0 to |ordered|
      invariant output == head + Bodies(docs[..i])
    {
      assert docs[..i + 1][..i] == docs[..i];
      output := output + ordered[i].document;
      output := output + "\n\n";
    }
    assert docs[..|docs|] == docs;
  }

  method MergePackagesIndexes(previous: string, current: string, arch: string, timestamp: Option<int>)
    returns (r: Result<string, IndexError>)
    ensures r == Merge(previous, current, arch, timestamp)
  {
    if TrimSpace(arch) == "" || timestamp.None? {
      return Err(NoArchitectureOrTime);
    }
    var older := ReadSource(previous);
    if older.Err? {
      return Err(older.error);
    }
    var merged := Overlay(map[], older.value);
    var newer := ReadSource(current);
    if newer.Err? {
      return Err(newer.error);
    }
    merged := Overlay(merged, newer.value);
    assert merged == ByPath(older.value) + ByPath(newer.value);
    UnionKeyed(older.value, newer.value);
    KeyedTotal(merged);
    BeforeIsStrict();
    var ordered := CollectSorted(Before, merged.Values);
    var output := PrintIndex(ordered, arch, timestamp.value);
    return Ok(output);
  }
}
