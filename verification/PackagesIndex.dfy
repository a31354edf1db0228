/** The Portage "Packages" index: its parser, its merge printer, and the laws of merging
    (internal/binpkg/index_merge.go). */
module PackagesIndex {
  import opened Text
  import opened IndexText
  import opened SlashPath

  datatype Stanza = Stanza(cpv: string, path: string, document: string)

  datatype IndexError =
    | NoArchitectureOrTime
    | TooLarge
    | BadPreamble
    | MalformedLine
    | DuplicateField(key: string)
    | BadIdentity
    | BadSize(path: string)
    | RepeatedPath(path: string)

  const MERGE_LIMIT: nat := 64 * 1024 * 1024

  // ------------------------------------------------------------------ parsing

  function AddLine(fields: FieldMap, line: string): Result<FieldMap, IndexError> {
    match Cut(line, ": ")
    case None => Err(MalformedLine)
    case Some((key, value)) =>
      if key == "" || ' ' in key || '\t' in key then Err(MalformedLine)
      else if key in fields then Err(DuplicateField(key))
      else Ok(fields[key := value])
  }

  function FoldLines(lines: seq<string>): Result<FieldMap, IndexError> {
    if |lines| == 0 then Ok(map[])
    else
      match FoldLines(lines[..|lines| - 1])
      case Err(e) => Err(e)
      case Ok(fields) => AddLine(fields, lines[|lines| - 1])
  }

  function PackagesFields(block: string): Result<FieldMap, IndexError> {
    FoldLines(Split(block, "\n"))
  }

  function ParseStanza(block: string): Result<Stanza, IndexError> {
    match PackagesFields(block)
    case Err(e) => Err(e)
    case Ok(fields) =>
      var cpv, relative := Get(fields, "CPV"), Get(fields, "PATH");
      if cpv == "" || !IsRelativeFile(relative) then Err(BadIdentity)
      else if ParseInt(Get(fields, "SIZE")).None? then Err(BadSize(relative))
      else Ok(Stanza(cpv, relative, block))
  }

  function Paths(stanzas: seq<Stanza>): set<string> {
    set k | 0 <= k < |stanzas| :: stanzas[k].path
  }

  function AddBlock(stanzas: seq<Stanza>, raw: string): Result<seq<Stanza>, IndexError> {
    var block := TrimSpace(raw);
    if block == "" then Ok(stanzas)
    else
      match ParseStanza(block)
      case Err(e) => Err(e)
      case Ok(stanza) =>
        if stanza.path in Paths(stanzas) then Err(RepeatedPath(stanza.path)) else Ok(stanzas + [stanza])
  }

  function FoldBlocks(blocks: seq<string>): Result<seq<Stanza>, IndexError> {
    if |blocks| == 0 then Ok([])
    else
      match FoldBlocks(blocks[..|blocks| - 1])
      case Err(e) => Err(e)
      case Ok(stanzas) => AddBlock(stanzas, blocks[|blocks| - 1])
  }

  /** parsePackagesStanzas without its size guard. */
  function ParseBody(document: string): Result<seq<Stanza>, IndexError> {
    var blocks := Blocks(document);
    match PackagesFields(blocks[0])
    case Err(_) => Err(BadPreamble)
    case Ok(preamble) =>
      if Get(preamble, "VERSION") != "0" then Err(BadPreamble) else FoldBlocks(blocks[1..])
  }

  function ParsePackagesStanzas(document: string): Result<seq<Stanza>, IndexError> {
    if Utf8Len(document) > MERGE_LIMIT then Err(TooLarge) else ParseBody(document)
  }

  // ------------------------------------------------- what every parse produces

  ghost predicate LegalStanza(stanza: Stanza) {
    SeparablePiece(stanza.document) && ParseStanza(stanza.document) == Ok(stanza)
  }

  ghost predicate DistinctPaths(stanzas: seq<Stanza>) {
    forall i, j :: 0 <= i < j < |stanzas| ==> stanzas[i].path != stanzas[j].path
  }

  ghost predicate Legal(stanzas: seq<Stanza>) {
    && (forall k :: 0 <= k < |stanzas| ==> LegalStanza(stanzas[k]))
    && DistinctPaths(stanzas)
  }

  lemma TrimmedBlockFree(raw: string)
    requires !Contains(raw, "\n\n")
    ensures !Contains(TrimSpace(raw), "\n\n") && Trimmed(TrimSpace(raw))
  {
    var lo, hi := TrimPart(raw, IsSpace);
    if Contains(raw[lo..hi], "\n\n") {
      OccursInPart(raw, lo, hi, "\n\n");
    }
  }

  lemma AddedBlockIsLegal(stanzas: seq<Stanza>, raw: string)
    requires Legal(stanzas) && !Contains(raw, "\n\n") && AddBlock(stanzas, raw).Ok?
    ensures Legal(AddBlock(stanzas, raw).value)
  {
    TrimmedBlockFree(raw);
    var block := TrimSpace(raw);
    if block != "" {
      var stanza := ParseStanza(block).value;
      assert LegalStanza(stanza);
      LegalSnoc(stanzas, stanza);
    }
  }

  lemma LegalSnoc(stanzas: seq<Stanza>, stanza: Stanza)
    requires Legal(stanzas) && LegalStanza(stanza) && stanza.path !in Paths(stanzas)
    ensures Legal(stanzas + [stanza])
  {
    assert forall k :: 0 <= k < |stanzas| ==> stanzas[k].path in Paths(stanzas);
  }

  lemma {:induction false} FoldedBlocksAreLegal(blocks: seq<string>)
    requires Free(blocks, "\n\n") && FoldBlocks(blocks).Ok?
    ensures Legal(FoldBlocks(blocks).value)
  {
    if |blocks| > 0 {
      var n := |blocks| - 1;
      assert Free(blocks[..n], "\n\n");
      FoldedBlocksAreLegal(blocks[..n]);
      AddedBlockIsLegal(FoldBlocks(blocks[..n]).value, blocks[n]);
    }
  }

  /** Every accepted index is a list of well-formed stanzas under distinct paths. */
  lemma ParsedIsLegal(document: string)
    requires ParseBody(document).Ok?
    ensures Legal(ParseBody(document).value)
  {
    var text := TrimSpace(UnixNewlines(document));
    SplitPieces(text, "\n\n");
    FoldedBlocksAreLegal(Blocks(document)[1..]);
  }

  // ----------------------------------------------------------------- printing

  function Documents(stanzas: seq<Stanza>): (docs: seq<string>)
    ensures |docs| == |stanzas|
    ensures forall k :: 0 <= k < |docs| ==> docs[k] == stanzas[k].document
  {
    seq(|stanzas|, k requires 0 <= k < |stanzas| => stanzas[k].document)
  }

  function PreambleFields(arch: string, seconds: int, count: nat): seq<Field> {
    [Field("ARCH", arch), Field("TIMESTAMP", SignedDecimal(seconds)), Field("VERSION", "0"),
     Field("PACKAGES", Decimal(count))]
  }

  function PreambleText(arch: string, seconds: int, count: nat): string {
    BlockText(PreambleFields(arch, seconds, count))
  }

  function Render(stanzas: seq<Stanza>, arch: string, seconds: int): string {
    PreambleText(arch, seconds, |stanzas|) + "\n\n" + Bodies(Documents(stanzas))
  }

  /** The architecture as it reaches a preamble line. */
  predicate PlainArch(arch: string) {
    PlainLine(arch)
  }

  lemma AddGoodLine(m: FieldMap, f: Field)
    requires GoodField(f) && f.key !in m
    ensures AddLine(m, f.key + ": " + f.value) == Ok(m[f.key := f.value])
  {
    CutField(f.key, f.value);
  }

  lemma GoodLast(fields: seq<Field>, n: nat)
    requires GoodFields(fields) && |fields| == n + 1
    ensures GoodFields(fields[..n]) && GoodField(fields[n]) && fields[n].key !in FieldsMap(fields[..n])
  {
    assert GoodField(fields[n]);
    FieldKeys(fields[..n]);
  }

  lemma {:induction false} FoldFieldLines(lines: seq<string>, fields: seq<Field>)
    requires GoodFields(fields) && |lines| == |fields|
    requires forall k :: 0 <= k < |lines| ==> lines[k] == fields[k].key + ": " + fields[k].value
    ensures FoldLines(lines) == Ok(FieldsMap(fields))
  {
    if |fields| > 0 {
      var n := |fields| - 1;
      GoodLast(fields, n);
      FoldFieldLines(lines[..n], fields[..n]);
      AddGoodLine(FieldsMap(fields[..n]), fields[n]);
    }
  }

  /** A printed block reads back as its fields. */
  lemma BlockFields(fields: seq<Field>)
    requires |fields| >= 1 && GoodFields(fields)
    ensures PackagesFields(BlockText(fields)) == Ok(FieldsMap(fields))
  {
    var lines := Lines(fields);
    forall k | 0 <= k < |lines| ensures '\n' !in lines[k] {
      assert GoodField(fields[k]);
    }
    SplitJoinChar(lines, '\n');
    FoldFieldLines(lines, fields);
  }

  lemma NumberIsOneLine(z: int)
    ensures '\n' !in SignedDecimal(z) && '\r' !in SignedDecimal(z)
  {
  }

  lemma CountIsOneLine(count: nat)
    ensures '\n' !in Decimal(count) && '\r' !in Decimal(count)
  {
  }

  /** The keys of a preamble are good and differ in length. */
  lemma ArchKeyGood(value: string)
    requires '\n' !in value
    ensures GoodField(Field("ARCH", value)) && |"ARCH"| == 4
  {
  }

  lemma TimestampKeyGood(value: string)
    requires '\n' !in value
    ensures GoodField(Field("TIMESTAMP", value)) && |"TIMESTAMP"| == 9
  {
  }

  lemma VersionKeyGood()
    ensures GoodField(Field("VERSION", "0")) && |"VERSION"| == 7
  {
  }

  lemma PackagesKeyGood(value: string)
    requires '\n' !in value
    ensures GoodField(Field("PACKAGES", value)) && |"PACKAGES"| == 8
  {
  }

  lemma DifferentLengths(fields: seq<Field>)
    requires forall k :: 0 <= k < |fields| ==> GoodField(fields[k])
    requires forall i, j :: 0 <= i < j < |fields| ==> |fields[i].key| != |fields[j].key|
    ensures GoodFields(fields)
  {
  }

  lemma PreambleGood(arch: string, seconds: int, count: nat)
    requires PlainArch(arch)
    ensures GoodFields(PreambleFields(arch, seconds, count))
  {
    NumberIsOneLine(seconds);
    CountIsOneLine(count);
    ArchKeyGood(arch);
    TimestampKeyGood(SignedDecimal(seconds));
    VersionKeyGood();
    PackagesKeyGood(Decimal(count));
    DifferentLengths(PreambleFields(arch, seconds, count));
  }

  lemma NumberEnds(key: string, z: int)
    requires '\n' !in key
    ensures PlainLine(key + ": " + SignedDecimal(z))
  {
    NumberIsOneLine(z);
    var line := key + ": " + SignedDecimal(z);
    assert SignedDecimal(z) != "" ==> line[|line| - 1] in SignedDecimal(z);
  }

  lemma PreambleNoCrLf(arch: string, seconds: int, count: nat)
    requires PlainArch(arch)
    ensures NoCrLf(PreambleText(arch, seconds, count))
  {
    var lines := Lines(PreambleFields(arch, seconds, count));
    assert PlainLine(lines[0]);
    NumberEnds("TIMESTAMP", seconds);
    assert PlainLine(lines[1]);
    assert PlainLine("VERSION" + ": " + "0");
    NumberEnds("PACKAGES", count);
    assert SignedDecimal(count) == Decimal(count);
    assert PlainLine(lines[3]);
    JoinNoCrLf(lines);
  }

  lemma PreambleReads(arch: string, seconds: int, count: nat)
    requires PlainArch(arch)
    ensures PreambleLike(PreambleText(arch, seconds, count))
    ensures PackagesFields(PreambleText(arch, seconds, count)) ==
            Ok(FieldsMap(PreambleFields(arch, seconds, count)))
    ensures var fields := FieldsMap(PreambleFields(arch, seconds, count));
            Get(fields, "VERSION") == "0" && Get(fields, "PACKAGES") == Decimal(count)
            && Get(fields, "ARCH") == arch
  {
    var fields := PreambleFields(arch, seconds, count);
    PreambleGood(arch, seconds, count);
    BlockFields(fields);
    var last := Decimal(count);
    assert last[|last| - 1] in last;
    BlockShape(fields);
    PreambleNoCrLf(arch, seconds, count);
    FieldLookup(fields, 0);
    FieldLookup(fields, 2);
    FieldLookup(fields, 3);
  }

  // ---------------------------------------------------- reading back what prints

  lemma AddDocument(stanzas: seq<Stanza>, stanza: Stanza)
    requires LegalStanza(stanza) && stanza.path !in Paths(stanzas)
    ensures AddBlock(stanzas, stanza.document) == Ok(stanzas + [stanza])
  {
    TrimmedStays(stanza.document);
  }

  lemma LegalLast(stanzas: seq<Stanza>, n: nat)
    requires Legal(stanzas) && |stanzas| == n + 1
    ensures Legal(stanzas[..n]) && LegalStanza(stanzas[n]) && stanzas[n].path !in Paths(stanzas[..n])
  {
    assert LegalStanza(stanzas[n]);
  }

  lemma FoldStep(blocks: seq<string>, n: nat, stanzas: seq<Stanza>)
    requires |blocks| == n + 1 && FoldBlocks(blocks[..n]) == Ok(stanzas)
    ensures FoldBlocks(blocks) == AddBlock(stanzas, blocks[n])
  {
  }

  lemma {:induction false} FoldDocs(docs: seq<string>, stanzas: seq<Stanza>)
    requires Legal(stanzas) && |docs| == |stanzas|
    requires forall k :: 0 <= k < |docs| ==> docs[k] == stanzas[k].document
    ensures FoldBlocks(docs) == Ok(stanzas)
  {
    if |stanzas| > 0 {
      var n := |stanzas| - 1;
      LegalLast(stanzas, n);
      FoldDocs(docs[..n], stanzas[..n]);
      FoldStep(docs, n, stanzas[..n]);
      AddDocument(stanzas[..n], stanzas[n]);
      assert stanzas[..n] + [stanzas[n]] == stanzas;
    }
  }

  /** The stanzas of a legal list come back from their documents. */
  lemma FoldDocuments(stanzas: seq<Stanza>)
    requires Legal(stanzas)
    ensures FoldBlocks(Documents(stanzas)) == Ok(stanzas)
  {
    FoldDocs(Documents(stanzas), stanzas);
  }

  lemma LegalPieces(stanzas: seq<Stanza>)
    requires Legal(stanzas)
    ensures SeparablePieces(Documents(stanzas))
  {
    forall k | 0 <= k < |stanzas| ensures SeparablePiece(Documents(stanzas)[k]) {
      assert LegalStanza(stanzas[k]);
    }
  }

  lemma AddWeight(stanzas: seq<Stanza>, raw: string)
    requires AddBlock(stanzas, raw).Ok?
    ensures PieceWeight(Documents(AddBlock(stanzas, raw).value)) <= PieceWeight(Documents(stanzas)) + |raw| + 2
  {
    var lo, hi := TrimPart(raw, IsSpace);
    var after := AddBlock(stanzas, raw).value;
    if TrimSpace(raw) != "" {
      assert Documents(after)[..|after| - 1] == Documents(stanzas);
    }
  }

  /** Accepted stanzas are no longer than the blocks they were read from. */
  lemma {:induction false} FoldWeight(blocks: seq<string>)
    requires FoldBlocks(blocks).Ok?
    ensures PieceWeight(Documents(FoldBlocks(blocks).value)) <= PieceWeight(blocks)
  {
    if |blocks| > 0 {
      FoldWeight(blocks[..|blocks| - 1]);
      AddWeight(FoldBlocks(blocks[..|blocks| - 1]).value, blocks[|blocks| - 1]);
    }
  }

  /** A printed index is read back stanza for stanza exactly when no printed stanza holds "\r\n". */
  lemma ParseRendered(stanzas: seq<Stanza>, arch: string, seconds: int)
    requires Legal(stanzas) && PlainArch(arch)
    ensures ParseBody(Render(stanzas, arch, seconds)) == Ok(stanzas) <==> CrLfFree(Documents(stanzas))
  {
    var pre, docs := PreambleText(arch, seconds, |stanzas|), Documents(stanzas);
    PreambleReads(arch, seconds, |stanzas|);
    LegalPieces(stanzas);
    if CrLfFree(docs) {
      PrintedNoCrLf(pre, docs);
      PrintedBlocks(pre, docs);
      FoldDocuments(stanzas);
      assert ([pre] + docs)[1..] == docs;
    } else {
      CrLfShortens(pre, docs);
      var blocks := Blocks(Render(stanzas, arch, seconds));
      if FoldBlocks(blocks[1..]).Ok? {
        FoldWeight(blocks[1..]);
      }
    }
  }

  /** The preamble of a printed index states the architecture and the true number of stanzas. */
  lemma RenderedPreamble(stanzas: seq<Stanza>, arch: string, seconds: int)
    requires Legal(stanzas) && PlainArch(arch) && CrLfFree(Documents(stanzas))
    ensures var preamble := PackagesFields(Blocks(Render(stanzas, arch, seconds))[0]);
            && preamble.Ok?
            && Get(preamble.value, "ARCH") == arch
            && Get(preamble.value, "PACKAGES") == Decimal(|stanzas|)
            && Get(preamble.value, "VERSION") == "0"
  {
    var pre, docs := PreambleText(arch, seconds, |stanzas|), Documents(stanzas);
    PreambleReads(arch, seconds, |stanzas|);
    LegalPieces(stanzas);
    PrintedNoCrLf(pre, docs);
    PrintedBlocks(pre, docs);
  }
}
