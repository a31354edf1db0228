/** generateIndex and the query view (internal/binpkg/binhost.go, internal/binpkg/store.go,
    internal/binpkg/index_merge.go): the printed index and the in-memory view describe the same packages. */
module Binhost {
  import opened Text
  import opened IndexText
  import opened Ordering
  import opened SlashPath
  import opened PackagesIndex

  datatype Entry = Entry(
    cpv: string, path: string, size: int, mtime: int, sha1: string, md5: string, extra: FieldMap)

  datatype Package = Package(
    name: string, version: string, arch: string, useFlags: seq<string>, path: string, checksum: string,
    metadata: FieldMap)

  /** "name|arch" to the known packages, oldest entry first. */
  type View = map<string, seq<Package>>

  const ORDERED_META: seq<string> := [
    "BUILD_ID", "BUILD_TIME", "CHOST", "DEFINED_PHASES", "DEPEND", "DESCRIPTION",
    "EAPI", "IUSE", "KEYWORDS", "LICENSE", "PROVIDES", "RDEPEND", "REQUIRES",
    "SLOT", "USE"]

  const OWN_KEYS: set<string> := {"CPV", "PATH", "SIZE", "MTIME", "SHA1", "MD5"}

  // ----------------------------------------------------------------- printing

  /** writeLine: empty values are not written. */
  function Optional(key: string, value: string): seq<Field> {
    if value == "" then [] else [Field(key, value)]
  }

  function PresentFields(keys: seq<string>, extra: FieldMap): seq<Field> {
    if |keys| == 0 then []
    else
      var key := keys[|keys| - 1];
      PresentFields(keys[..|keys| - 1], extra) + (if key in extra then Optional(key, extra[key]) else [])
  }

  /** The ordered keys first, then every other key in alphabetical order. */
  ghost function MetaKeys(extra: FieldMap): seq<string> {
    ORDERED_META + Listing(Less, extra.Keys - Elements(ORDERED_META))
  }

  ghost function EntryFields(e: Entry): seq<Field> {
    Optional("CPV", e.cpv) + PresentFields(MetaKeys(e.extra), e.extra)
    + Optional("MD5", e.md5) + Optional("SHA1", e.sha1)
    + Optional("MTIME", SignedDecimal(e.mtime)) + Optional("SIZE", SignedDecimal(e.size))
    + Optional("PATH", e.path)
  }

  function IndexPreamble(arch: string, now: int, count: nat): seq<Field> {
    Optional("ARCH", arch) + [Field("TIMESTAMP", SignedDecimal(now)), Field("VERSION", "0"),
                              Field("PACKAGES", Decimal(count))]
  }

  ghost function EntryBlocks(entries: seq<Entry>): (blocks: seq<string>)
    ensures |blocks| == |entries|
    ensures forall k :: 0 <= k < |blocks| ==> blocks[k] == BlockText(EntryFields(entries[k]))
  {
    seq(|entries|, k requires 0 <= k < |entries| => BlockText(EntryFields(entries[k])))
  }

  /** The text generateIndex writes for the scanned entries. */
  ghost function IndexOfEntries(entries: seq<Entry>, arch: string, now: int): string {
    BlockText(IndexPreamble(arch, now, |entries|)) + "\n\n" + Bodies(EntryBlocks(entries))
  }

  // ------------------------------------------------------------ the query view

  /** The last hyphen directly followed by a digit, at or below position i. */
  function VersionHyphen(cpv: string, i: int): Option<nat>
    requires i + 1 < |cpv|
  {
    if i <= 0 then None
    else if cpv[i] == '-' && IsDigit(cpv[i + 1]) then Some(i)
    else VersionHyphen(cpv, i - 1)
  }

  function SplitCpv(cpv: string): Option<(string, string)> {
    if |cpv| < 2 then None
    else
      match VersionHyphen(cpv, |cpv| - 2)
      case None => None
      case Some(i) => if i < |cpv| then Some((cpv[..i], cpv[i + 1..])) else None
  }

  function PackageFromEntry(e: Entry, arch: string): Option<Package> {
    match SplitCpv(e.cpv)
    case None => None
    case Some((name, version)) =>
      Some(Package(name, version, arch, Fields(Get(e.extra, "USE")), e.path,
                   if e.sha1 == "" then "" else "sha1:" + e.sha1, e.extra))
  }

  function PackageKey(name: string, arch: string): string {
    name + "|" + arch
  }

  function AddToView(view: View, found: Option<Package>): View {
    match found
    case None => view
    case Some(p) =>
      var key := PackageKey(p.name, p.arch);
      view[key := (if key in view then view[key] else []) + [p]]
  }

  /** regenerateIndexLocked: the view straight from the scanned entries. */
  function DirectView(entries: seq<Entry>, arch: string): View {
    if |entries| == 0 then map[]
    else AddToView(DirectView(entries[..|entries| - 1], arch), PackageFromEntry(entries[|entries| - 1], arch))
  }

  /** The size of a loaded entry never reaches the view, so a SIZE that does not parse is simply 0 here. */
  function LoadedEntry(stanza: Stanza, fields: FieldMap): Entry {
    var parsed := ParseInt(Get(fields, "SIZE"));
    Entry(stanza.cpv, stanza.path, if parsed.Some? then parsed.value else 0, 0,
          Get(fields, "SHA1"), Get(fields, "MD5"), fields - OWN_KEYS)
  }

  function LoadStanza(view: View, stanza: Stanza, arch: string): Result<View, IndexError> {
    match PackagesFields(stanza.document)
    case Err(e) => Err(e)
    case Ok(fields) => Ok(AddToView(view, PackageFromEntry(LoadedEntry(stanza, fields), arch)))
  }

  function LoadStanzas(stanzas: seq<Stanza>, arch: string): Result<View, IndexError> {
    if |stanzas| == 0 then Ok(map[])
    else
      match LoadStanzas(stanzas[..|stanzas| - 1], arch)
      case Err(e) => Err(e)
      case Ok(view) => LoadStanza(view, stanzas[|stanzas| - 1], arch)
  }

  /** LoadPackagesIndex: the view from the text, with the number of stanzas. */
  function LoadView(document: string, arch: string): Result<(View, nat), IndexError> {
    match ParsePackagesStanzas(document)
    case Err(e) => Err(e)
    case Ok(stanzas) =>
      match LoadStanzas(stanzas, arch)
      case Err(e) => Err(e)
      case Ok(view) => Ok((view, |stanzas|))
  }

  // ------------------------------------------------------- well-formed entries

  predicate PlainValue(v: string) {
    v != "" && '\n' !in v && v[|v| - 1] != '\r'
  }

  predicate MetaKey(key: string) {
    key != "" && ' ' !in key && '\t' !in key && '\n' !in key && key !in OWN_KEYS
  }

  /** An entry that can be printed: single-line values without a return at the end, under keys the parser takes. The
      scan
      does not ensure it; a metadata name with a space inside, say, gives a key that the parser refuses. */
  ghost predicate WellFormed(e: Entry) {
    && PlainValue(e.cpv)
    && IsRelativeFile(e.path) && '\n' !in e.path && !IsSpace(e.path[|e.path| - 1])
    && MIN_INT64 <= e.size <= MAX_INT64
    && (e.sha1 == "" || PlainValue(e.sha1)) && (e.md5 == "" || PlainValue(e.md5))
    && (forall k :: k in e.extra ==> MetaKey(k) && PlainValue(e.extra[k]))
  }

  ghost predicate WellFormedScan(entries: seq<Entry>) {
    && (forall k :: 0 <= k < |entries| ==> WellFormed(entries[k]))
    && (forall i, j :: 0 <= i < j < |entries| ==> entries[i].path != entries[j].path)
  }

  // --------------------------------------------- a printed entry has its fields

  ghost predicate PlainFields(fields: seq<Field>) {
    GoodFields(fields) && forall k :: 0 <= k < |fields| ==> PlainValue(fields[k].value)
  }

  function Mark(key: string): int {
    if key == "" then 0 else 0x110000 * |key| + key[0] as int
  }

  /** Length and first letter tell the ordered keys apart. */
  const MARKS: seq<int> := [
    8912962, 11141186, 5570627, 15597636, 6684740, 12255300, 4456517, 4456521,
    8912971, 7798860, 8912976, 7798866, 8912978, 4456531, 3342421]

  lemma MarkAt(k: nat)
    requires k < 15
    ensures |ORDERED_META| == |MARKS| == 15 && Mark(ORDERED_META[k]) == MARKS[k]
  {
  }

  lemma OrderedMetaDistinct()
    ensures Distinct(ORDERED_META)
  {
    forall i, j | 0 <= i < j < |ORDERED_META| ensures ORDERED_META[i] != ORDERED_META[j] {
      MarkAt(i);
      MarkAt(j);
    }
  }

  lemma OrderedThenRest(first: seq<string>, keys: set<string>)
    requires Distinct(first)
    ensures var all := first + Listing(Less, keys - Elements(first)); Distinct(all) && keys <= Elements(all)
  {
    LessIsStrict();
    var rest := keys - Elements(first);
    ListingElements(Less, rest);
    LessIsTotalOn(rest);
    ListingOrdered(Less, rest);
    var tail := Listing(Less, rest);
    OrderedDistinct(Less, tail);
    var all := first + tail;
    forall i, j | 0 <= i < j < |all| ensures all[i] != all[j] {
      if i < |first| <= j {
        assert all[i] in Elements(first) && tail[j - |first|] in Elements(tail);
      }
    }
    assert Elements(all) == Elements(first) + Elements(tail);
  }

  lemma MetaKeysCover(extra: FieldMap)
    ensures Distinct(MetaKeys(extra)) && extra.Keys <= Elements(MetaKeys(extra))
  {
    OrderedMetaDistinct();
    OrderedThenRest(ORDERED_META, extra.Keys);
  }

  lemma {:induction false} FieldsMapSnoc(fields: seq<Field>, f: Field)
    ensures FieldsMap(fields + [f]) == FieldsMap(fields)[f.key := f.value]
  {
    assert (fields + [f])[..|fields|] == fields;
  }

  lemma AppendField(fields: seq<Field>, key: string, value: string)
    requires PlainFields(fields) && key !in FieldsMap(fields)
    requires value == "" || (PlainValue(value) && GoodField(Field(key, value)))
    ensures PlainFields(fields + Optional(key, value))
    ensures FieldsMap(fields + Optional(key, value)) ==
            if value == "" then FieldsMap(fields) else FieldsMap(fields)[key := value]
  {
    if value == "" {
      assert fields + Optional(key, value) == fields;
    } else {
      FieldsMapSnoc(fields, Field(key, value));
      FieldKeys(fields);
    }
  }

  ghost function Restrict(extra: FieldMap, keys: seq<string>): FieldMap {
    map k | k in extra && k in Elements(keys) :: extra[k]
  }

  lemma RestrictSnoc(base: FieldMap, extra: FieldMap, keys: seq<string>, key: string)
    ensures base + Restrict(extra, keys + [key]) ==
            if key in extra then (base + Restrict(extra, keys))[key := extra[key]] else base + Restrict(extra, keys)
  {
  }

  lemma PresentSnoc(keys: seq<string>, extra: FieldMap, key: string)
    ensures PresentFields(keys + [key], extra) ==
            PresentFields(keys, extra) + if key in extra then Optional(key, extra[key]) else []
  {
    assert (keys + [key])[..|keys|] == keys;
  }

  lemma AppendPresent(fields: seq<Field>, keys: seq<string>, extra: FieldMap, key: string)
    requires PlainFields(fields + PresentFields(keys, extra))
    requires FieldsMap(fields + PresentFields(keys, extra)) == FieldsMap(fields) + Restrict(extra, keys)
    requires key !in Elements(keys) && key !in FieldsMap(fields)
    requires key in extra ==> MetaKey(key) && PlainValue(extra[key])
    ensures PlainFields(fields + PresentFields(keys + [key], extra))
    ensures FieldsMap(fields + PresentFields(keys + [key], extra)) == FieldsMap(fields) + Restrict(extra, keys + [key])
  {
    var before := fields + PresentFields(keys, extra);
    RestrictSnoc(FieldsMap(fields), extra, keys, key);
    PresentSnoc(keys, extra, key);
    if key in extra {
      AppendField(before, key, extra[key]);
      assert fields + PresentFields(keys + [key], extra) == before + Optional(key, extra[key]);
    } else {
      assert fields + PresentFields(keys + [key], extra) == before;
    }
  }

  lemma {:induction false} AppendMeta(fields: seq<Field>, keys: seq<string>, extra: FieldMap)
    requires PlainFields(fields) && Distinct(keys)
    requires forall k :: k in extra ==> MetaKey(k) && PlainValue(extra[k])
    requires forall k :: 0 <= k < |keys| ==> keys[k] !in FieldsMap(fields)
    ensures PlainFields(fields + PresentFields(keys, extra))
    ensures FieldsMap(fields + PresentFields(keys, extra)) == FieldsMap(fields) + Restrict(extra, keys)
    decreases |keys|
  {
    var n := |keys| - 1;
    if n < 0 {
      assert fields + PresentFields(keys, extra) == fields;
      assert FieldsMap(fields) + Restrict(extra, keys) == FieldsMap(fields);
    } else {
      AppendMeta(fields, keys[..n], extra);
      assert keys == keys[..n] + [keys[n]];
      assert keys[n] !in Elements(keys[..n]);
      AppendPresent(fields, keys[..n], extra, keys[n]);
    }
  }

  ghost function WithOptional(m: FieldMap, key: string, value: string): FieldMap {
    if value == "" then m else m[key := value]
  }

  /** Every field of an entry, as the parser will see them. */
  ghost function EntryMap(e: Entry): FieldMap {
    var digests := WithOptional(WithOptional(map["CPV" := e.cpv] + e.extra, "MD5", e.md5), "SHA1", e.sha1);
    digests["MTIME" := SignedDecimal(e.mtime)]["SIZE" := SignedDecimal(e.size)]["PATH" := e.path]
  }

  lemma MetaKeysAvoidOwn(extra: FieldMap)
    requires forall k :: k in extra ==> MetaKey(k)
    ensures forall k :: 0 <= k < |MetaKeys(extra)| ==> MetaKeys(extra)[k] != "CPV"
  {
    var keys := MetaKeys(extra);
    ListingElements(Less, extra.Keys - Elements(ORDERED_META));
    var tail := Listing(Less, extra.Keys - Elements(ORDERED_META));
    forall k | 0 <= k < |keys| ensures keys[k] != "CPV" {
      if k < |ORDERED_META| {
        OrderedMetaIsNotCpv(k);
      } else {
        assert tail[k - |ORDERED_META|] in Elements(tail);
        assert MetaKey(keys[k]);
      }
    }
  }

  lemma OrderedMetaIsNotCpv(k: nat)
    requires k < |ORDERED_META|
    ensures ORDERED_META[k] != "CPV"
  {
    assert |ORDERED_META[k]| == 3 ==> k == 14;
  }

  lemma EntryHead(e: Entry)
    requires WellFormed(e)
    ensures var head := Optional("CPV", e.cpv) + PresentFields(MetaKeys(e.extra), e.extra);
            PlainFields(head) && FieldsMap(head) == map["CPV" := e.cpv] + e.extra && |head| > 0 && head[0].key == "CPV"
  {
    var first := [Field("CPV", e.cpv)];
    assert first[..0] == [];
    assert FieldsMap(first) == map["CPV" := e.cpv];
    assert GoodField(first[0]);
    MetaKeysCover(e.extra);
    MetaKeysAvoidOwn(e.extra);
    AppendMeta(first, MetaKeys(e.extra), e.extra);
    assert Restrict(e.extra, MetaKeys(e.extra)) == e.extra;
  }

  lemma DecimalIsPlain(z: int)
    ensures PlainValue(SignedDecimal(z))
  {
    var s := SignedDecimal(z);
    assert s[|s| - 1] in s;
  }

  /** The keys generateIndex writes itself never come from the metadata. */
  lemma OwnKeysAreOwn(e: Entry)
    requires WellFormed(e)
    ensures "CPV" !in e.extra && "PATH" !in e.extra && "SIZE" !in e.extra
    ensures "MTIME" !in e.extra && "SHA1" !in e.extra && "MD5" !in e.extra
    ensures e.extra.Keys !! OWN_KEYS
  {
    forall k | k in e.extra ensures k !in OWN_KEYS {
      assert MetaKey(k);
    }
  }

  lemma EntryDigests(head: seq<Field>, e: Entry)
    requires WellFormed(e) && PlainFields(head) && FieldsMap(head) == map["CPV" := e.cpv] + e.extra
    ensures var fields := head + Optional("MD5", e.md5) + Optional("SHA1", e.sha1);
            && PlainFields(fields)
            && FieldsMap(fields) == WithOptional(WithOptional(FieldsMap(head), "MD5", e.md5), "SHA1", e.sha1)
            && "MTIME" !in FieldsMap(fields) && "SIZE" !in FieldsMap(fields) && "PATH" !in FieldsMap(fields)
  {
    OwnKeysAreOwn(e);
    AppendField(head, "MD5", e.md5);
    var a := head + Optional("MD5", e.md5);
    AppendField(a, "SHA1", e.sha1);
  }

  lemma EntrySize(fields: seq<Field>, e: Entry)
    requires WellFormed(e) && PlainFields(fields) && "SIZE" !in FieldsMap(fields) && "PATH" !in FieldsMap(fields)
    ensures var all := fields + Optional("SIZE", SignedDecimal(e.size)) + Optional("PATH", e.path);
            PlainFields(all) && FieldsMap(all) == FieldsMap(fields)["SIZE" := SignedDecimal(e.size)]["PATH" := e.path]
  {
    DecimalIsPlain(e.size);
    AppendField(fields, "SIZE", SignedDecimal(e.size));
    AppendField(fields + Optional("SIZE", SignedDecimal(e.size)), "PATH", e.path);
  }

  lemma EntryNumbers(fields: seq<Field>, e: Entry)
    requires WellFormed(e) && PlainFields(fields)
    requires "MTIME" !in FieldsMap(fields) && "SIZE" !in FieldsMap(fields) && "PATH" !in FieldsMap(fields)
    ensures var all := fields + Optional("MTIME", SignedDecimal(e.mtime)) + Optional("SIZE", SignedDecimal(e.size))
                       + Optional("PATH", e.path);
            && PlainFields(all)
            && FieldsMap(all) == FieldsMap(fields)["MTIME" := SignedDecimal(e.mtime)]["SIZE" := SignedDecimal(e.size)]
                                                  ["PATH" := e.path]
  {
    DecimalIsPlain(e.mtime);
    AppendField(fields, "MTIME", SignedDecimal(e.mtime));
    EntrySize(fields + Optional("MTIME", SignedDecimal(e.mtime)), e);
  }

  lemma EntryFieldsAre(e: Entry)
    requires WellFormed(e)
    ensures var fields := EntryFields(e);
            && PlainFields(fields) && |fields| > 0
            && FieldsMap(fields) == EntryMap(e)
            && fields[0].key == "CPV" && fields[|fields| - 1].value == e.path
  {
    EntryHead(e);
    var head := Optional("CPV", e.cpv) + PresentFields(MetaKeys(e.extra), e.extra);
    EntryDigests(head, e);
    EntryNumbers(head + Optional("MD5", e.md5) + Optional("SHA1", e.sha1), e);
  }

  lemma EntryMapLookups(e: Entry)
    requires WellFormed(e)
    ensures var m := EntryMap(e);
            && Get(m, "CPV") == e.cpv && Get(m, "PATH") == e.path && Get(m, "SIZE") == SignedDecimal(e.size)
            && Get(m, "SHA1") == e.sha1 && m - OWN_KEYS == e.extra
  {
    OwnKeysAreOwn(e);
  }

  // -------------------------------------------------- a printed entry reads back

  lemma {:induction false} JoinLinesNoCrLf(lines: seq<string>)
    requires forall k :: 0 <= k < |lines| ==> '\n' !in lines[k] && lines[k] != "" && lines[k][|lines[k]| - 1] != '\r'
    ensures NoCrLf(Join(lines, "\n"))
    decreases |lines|
  {
    if |lines| > 1 {
      JoinLinesNoCrLf(lines[1..]);
      var rest := Join(lines[1..], "\n");
      NoCrLfConcat(lines[0], "\n");
      NoCrLfConcat(lines[0] + "\n", rest);
    }
  }

  lemma PlainBlockNoCrLf(fields: seq<Field>)
    requires PlainFields(fields)
    ensures NoCrLf(BlockText(fields))
  {
    var lines := Lines(fields);
    forall k | 0 <= k < |lines|
      ensures '\n' !in lines[k] && lines[k] != "" && lines[k][|lines[k]| - 1] != '\r'
    {
      assert GoodField(fields[k]) && PlainValue(fields[k].value);
      var v := fields[k].value;
      assert lines[k][|lines[k]| - 1] == v[|v| - 1];
    }
    JoinLinesNoCrLf(lines);
  }

  function EntryStanza(e: Entry, block: string): Stanza {
    Stanza(e.cpv, e.path, block)
  }

  /** One printed entry is one legal stanza with the entry's identity. */
  lemma PrintedEntry(e: Entry)
    requires WellFormed(e)
    ensures var block := BlockText(EntryFields(e));
            && NoCrLf(block)
            && PackagesFields(block) == Ok(EntryMap(e))
            && LegalStanza(EntryStanza(e, block))
  {
    var fields := EntryFields(e);
    EntryFieldsAre(e);
    BlockFields(fields);
    BlockShape(fields);
    PlainBlockNoCrLf(fields);
    EntryMapLookups(e);
    ParsePrinted(e.size);
  }

  /** The stanza carries every field of the entry. */
  ghost predicate Represents(e: Entry, stanza: Stanza) {
    stanza.cpv == e.cpv && stanza.path == e.path && PackagesFields(stanza.document) == Ok(EntryMap(e))
  }

  lemma LoadRepresented(view: View, e: Entry, stanza: Stanza, arch: string)
    requires WellFormed(e) && Represents(e, stanza)
    ensures LoadStanza(view, stanza, arch) == Ok(AddToView(view, PackageFromEntry(e, arch)))
  {
    EntryMapLookups(e);
  }

  ghost function EntryStanzas(entries: seq<Entry>): (stanzas: seq<Stanza>)
    ensures |stanzas| == |entries|
    ensures forall k :: 0 <= k < |stanzas| ==>
              stanzas[k] == EntryStanza(entries[k], BlockText(EntryFields(entries[k])))
  {
    seq(|entries|, k requires 0 <= k < |entries| => EntryStanza(entries[k], BlockText(EntryFields(entries[k]))))
  }

  lemma EntryStanzasLegal(entries: seq<Entry>)
    requires WellFormedScan(entries)
    ensures Legal(EntryStanzas(entries))
    ensures Documents(EntryStanzas(entries)) == EntryBlocks(entries)
    ensures CrLfFree(EntryBlocks(entries))
  {
    forall k | 0 <= k < |entries| ensures LegalStanza(EntryStanzas(entries)[k]) && NoCrLf(EntryBlocks(entries)[k]) {
      PrintedEntry(entries[k]);
    }
  }

  lemma ShortPreambleGood(fields: seq<Field>, now: int, count: nat)
    requires fields == [Field("TIMESTAMP", SignedDecimal(now)), Field("VERSION", "0"), Field("PACKAGES",
             Decimal(count))]
    ensures GoodFields(fields)
  {
    NumberIsOneLine(now);
    CountIsOneLine(count);
    TimestampKeyGood(SignedDecimal(now));
    VersionKeyGood();
    PackagesKeyGood(Decimal(count));
    DifferentLengths(fields);
  }

  lemma ShortPreambleReads(fields: seq<Field>, now: int, count: nat)
    requires fields == [Field("TIMESTAMP", SignedDecimal(now)), Field("VERSION", "0"), Field("PACKAGES",
             Decimal(count))]
    ensures GoodFields(fields) && PreambleLike(BlockText(fields))
  {
    ShortPreambleGood(fields, now, count);
    var last := Decimal(count);
    assert last[|last| - 1] in last;
    BlockShape(fields);
    var lines := Lines(fields);
    NumberEnds("TIMESTAMP", now);
    NumberEnds("PACKAGES", count);
    assert PlainLine("VERSION" + ": " + "0");
    assert PlainLine(lines[0]) && PlainLine(lines[1]) && PlainLine(lines[2]);
    JoinNoCrLf(lines);
  }

  lemma IndexPreambleReads(arch: string, now: int, count: nat)
    requires PlainArch(arch)
    ensures PreambleLike(BlockText(IndexPreamble(arch, now, count)))
    ensures PackagesFields(BlockText(IndexPreamble(arch, now, count))) == Ok(FieldsMap(IndexPreamble(arch, now, count)))
    ensures Get(FieldsMap(IndexPreamble(arch, now, count)), "VERSION") == "0"
  {
    var fields := IndexPreamble(arch, now, count);
    if arch == "" {
      ShortPreambleReads(fields, now, count);
      BlockFields(fields);
      FieldLookup(fields, 1);
    } else {
      PreambleReads(arch, now, count);
      assert fields == PreambleFields(arch, now, count);
    }
  }

  /** The printed index parses into one stanza per scanned entry, in order. */
  lemma PrintedIndexParses(entries: seq<Entry>, arch: string, now: int)
    requires WellFormedScan(entries) && PlainArch(arch)
    ensures ParseBody(IndexOfEntries(entries, arch, now)) == Ok(EntryStanzas(entries))
  {
    var pre, docs := BlockText(IndexPreamble(arch, now, |entries|)), EntryBlocks(entries);
    IndexPreambleReads(arch, now, |entries|);
    EntryStanzasLegal(entries);
    LegalPieces(EntryStanzas(entries));
    PrintedNoCrLf(pre, docs);
    PrintedBlocks(pre, docs);
    FoldDocuments(EntryStanzas(entries));
    assert ([pre] + docs)[1..] == docs;
  }

  lemma {:induction false} LoadedIsDirect(entries: seq<Entry>, stanzas: seq<Stanza>, arch: string)
    requires |stanzas| == |entries|
    requires forall k :: 0 <= k < |entries| ==> WellFormed(entries[k]) && Represents(entries[k], stanzas[k])
    ensures LoadStanzas(stanzas, arch) == Ok(DirectView(entries, arch))
  {
    var n := |entries| - 1;
    if n >= 0 {
      LoadedIsDirect(entries[..n], stanzas[..n], arch);
      LoadRepresented(DirectView(entries[..n], arch), entries[n], stanzas[n], arch);
    }
  }

  /** Loading the text generateIndex wrote gives the view the scan itself gives. */
  lemma LoadedViewIsDirectView(entries: seq<Entry>, arch: string, now: int)
    requires WellFormedScan(entries) && PlainArch(arch)
    ensures Utf8Len(IndexOfEntries(entries, arch, now)) <= MERGE_LIMIT ==>
              LoadView(IndexOfEntries(entries, arch, now), arch) == Ok((DirectView(entries, arch), |entries|))
    ensures Utf8Len(IndexOfEntries(entries, arch, now)) > MERGE_LIMIT ==>
              LoadView(IndexOfEntries(entries, arch, now), arch) == Err(TooLarge)
  {
    PrintedIndexParses(entries, arch, now);
    forall k | 0 <= k < |entries| ensures WellFormed(entries[k]) && Represents(entries[k], EntryStanzas(entries)[k]) {
      PrintedEntry(entries[k]);
    }
    LoadedIsDirect(entries, EntryStanzas(entries), arch);
  }

  // ------------------------------------------------------------- names and keys

  lemma {:induction false} VersionHyphenIs(cpv: string, i: int)
    requires i + 1 < |cpv|
    ensures match VersionHyphen(cpv, i)
            case None => forall j :: 0 < j <= i ==> !(cpv[j] == '-' && IsDigit(cpv[j + 1]))
            case Some(h) => 0 < h <= i && cpv[h] == '-' && IsDigit(cpv[h + 1])
                            && forall j :: h < j <= i ==> !(cpv[j] == '-' && IsDigit(cpv[j + 1]))
  {
    if i > 0 && !(cpv[i] == '-' && IsDigit(cpv[i + 1])) {
      VersionHyphenIs(cpv, i - 1);
    }
  }

  /** A split CPV is a name, a hyphen and the longest hyphen-digit-free version that starts with a digit. */
  lemma SplitCpvIs(cpv: string)
    ensures match SplitCpv(cpv)
            case None => forall j :: 0 < j < |cpv| - 1 ==> !(cpv[j] == '-' && IsDigit(cpv[j + 1]))
            case Some((name, version)) =>
              && cpv == name + "-" + version && name != "" && version != "" && IsDigit(version[0])
              && forall j :: 0 <= j < |version| - 1 ==> !(version[j] == '-' && IsDigit(version[j + 1]))
  {
    if |cpv| >= 2 {
      VersionHyphenIs(cpv, |cpv| - 2);
      var found := VersionHyphen(cpv, |cpv| - 2);
      if found.Some? {
        var h := found.value;
        assert cpv == cpv[..h] + "-" + cpv[h + 1..];
        var version := cpv[h + 1..];
        forall j | 0 <= j < |version| - 1 ensures !(version[j] == '-' && IsDigit(version[j + 1])) {
          assert version[j] == cpv[h + 1 + j] && version[j + 1] == cpv[h + 2 + j];
        }
      }
    }
  }

  /** Position of the last hyphen, or -1. */
  function LastHyphen(s: string): (i: int)
    ensures -1 <= i < |s|
    ensures i >= 0 ==> s[i] == '-'
  {
    if s == "" then -1 else if s[|s| - 1] == '-' then |s| - 1 else LastHyphen(s[..|s| - 1])
  }

  function StripBuildId(pf: string): string {
    var i := LastHyphen(pf);
    if i <= 0 || i == |pf| - 1 then pf
    else if AllDigits(pf[i + 1..]) then pf[..i] else pf
  }

  function BuildId(base: string): string {
    var i := LastHyphen(base);
    if i <= 0 || i == |base| - 1 then ""
    else if AllDigits(base[i + 1..]) then base[i + 1..] else ""
  }

  /** The two scans of a gpkg file name split it without loss and agree on whether a build id exists. */
  lemma BuildIdSplits(base: string)
    ensures if BuildId(base) == "" then StripBuildId(base) == base
            else base == StripBuildId(base) + "-" + BuildId(base) && AllDigits(BuildId(base))
  {
    var i := LastHyphen(base);
    if i >= 0 {
      assert base == base[..i] + "-" + base[i + 1..];
    }
  }

  // ------------------------------------------------------- the printing routine

  /** Every line with its newline, as writeLine emits them. */
  function Written(fields: seq<Field>): string {
    if |fields| == 0 then ""
    else
      var f := fields[|fields| - 1];
      Written(fields[..|fields| - 1]) + (f.key + ": " + f.value) + "\n"
  }

  lemma {:induction false} WrittenIsBlock(fields: seq<Field>)
    requires |fields| >= 1
    ensures Written(fields) == BlockText(fields) + "\n"
  {
    var n := |fields| - 1;
    var line := fields[n].key + ": " + fields[n].value;
    if n == 0 {
      assert fields[..0] == [];
    } else {
      WrittenIsBlock(fields[..n]);
      assert Lines(fields) == Lines(fields[..n]) + [line];
      JoinSnoc(Lines(fields[..n]), line, "\n");
    }
  }

  /** writeLine: nothing is printed for an empty value. */
  method WriteLine(buffer: string, ghost fields: seq<Field>, key: string, value: string) returns (longer: string)
    requires buffer == Written(fields)
    ensures longer == Written(fields + Optional(key, value))
  {
    if value == "" {
      assert fields + Optional(key, value) == fields;
      return buffer;
    }
    assert (fields + [Field(key, value)])[..|fields|] == fields;
    return buffer + (key + ": " + value) + "\n";
  }

  method WriteKeys(start: string, ghost fields: seq<Field>, keys: seq<string>, extra: FieldMap) returns (buffer: string)
    requires start == Written(fields)
    ensures buffer == Written(fields + PresentFields(keys, extra))
  {
    buffer := start;
    assert fields + PresentFields(keys[..0], extra) == fields;
    for i := 0 to |keys|
      invariant buffer == Written(fields + PresentFields(keys[..i], extra))
    {
      assert keys[..i + 1] == keys[..i] + [keys[i]];
      PresentSnoc(keys[..i], extra, keys[i]);
      ghost var before := fields + PresentFields(keys[..i], extra);
      if keys[i] in extra {
        assert before + Optional(keys[i], extra[keys[i]]) == fields + PresentFields(keys[..i + 1], extra);
        buffer := WriteLine(buffer, before, keys[i], extra[keys[i]]);
      } else {
        assert before == fields + PresentFields(keys[..i + 1], extra);
      }
    }
    assert keys[..|keys|] == keys;
  }

  lemma {:induction false} PresentConcat(a: seq<string>, b: seq<string>, extra: FieldMap)
    ensures PresentFields(a + b, extra) == PresentFields(a, extra) + PresentFields(b, extra)
    decreases |b|
  {
    if |b| == 0 {
      assert a + b == a;
    } else {
      var n := |b| - 1;
      var shorter := a + b[..n];
      PresentConcat(a, b[..n], extra);
      PresentSnoc(shorter, extra, b[n]);
      PresentSnoc(b[..n], extra, b[n]);
      assert a + b == shorter + [b[n]] && b == b[..n] + [b[n]];
    }
  }

  lemma PresentAfter(fields: seq<Field>, a: seq<string>, b: seq<string>, extra: FieldMap)
    ensures fields + PresentFields(a, extra) + PresentFields(b, extra) == fields + PresentFields(a + b, extra)
  {
    PresentConcat(a, b, extra);
  }

  /** The metadata lines of one stanza: the ordered keys first, then the remaining ones sorted. */
  method PrintMeta(start: string, ghost fields: seq<Field>, ordered: seq<string>, extra: FieldMap)
    returns (text: string)
    requires start == Written(fields)
    ensures text == Written(fields + PresentFields(ordered + Listing(Less, extra.Keys - Elements(ordered)), extra))
  {
    text := WriteKeys(start, fields, ordered, extra);
    var remaining := SortedKeys(extra.Keys - Elements(ordered));
    text := WriteKeys(text, fields + PresentFields(ordered, extra), remaining, extra);
    PresentAfter(fields, ordered, remaining, extra);
  }

  method PrintHead(e: Entry) returns (text: string)
    ensures text == Written(Optional("CPV", e.cpv) + PresentFields(MetaKeys(e.extra), e.extra))
  {
    text := WriteLine("", [], "CPV", e.cpv);
    ghost var fields := Optional("CPV", e.cpv);
    assert [] + fields == fields;
    text := PrintMeta(text, fields, ORDERED_META, e.extra);
  }

  method PrintEntry(e: Entry) returns (text: string)
    ensures text == BlockText(EntryFields(e)) + "\n"
  {
    text := PrintHead(e);
    ghost var fields := Optional("CPV", e.cpv) + PresentFields(MetaKeys(e.extra), e.extra);
    text := WriteLine(text, fields, "MD5", e.md5);
    fields := fields + Optional("MD5", e.md5);
    text := WriteLine(text, fields, "SHA1", e.sha1);
    fields := fields + Optional("SHA1", e.sha1);
    var mtime := SignedDecimal(e.mtime);
    text := WriteLine(text, fields, "MTIME", mtime);
    fields := fields + Optional("MTIME", mtime);
    var size := SignedDecimal(e.size);
    text := WriteLine(text, fields, "SIZE", size);
    fields := fields + Optional("SIZE", size);
    text := WriteLine(text, fields, "PATH", e.path);
    fields := fields + Optional("PATH", e.path);
    assert fields == EntryFields(e);
    WrittenIsBlock(fields);
  }

  method PrintPreamble(arch: string, now: int, count: nat) returns (text: string)
    ensures text == BlockText(IndexPreamble(arch, now, count)) + "\n"
  {
    text := WriteLine("", [], "ARCH", arch);
    ghost var fields := Optional("ARCH", arch);
    assert [] + fields == fields;
    var timestamp := SignedDecimal(now);
    text := WriteLine(text, fields, "TIMESTAMP", timestamp);
    fields := fields + Optional("TIMESTAMP", timestamp);
    text := WriteLine(text, fields, "VERSION", "0");
    fields := fields + Optional("VERSION", "0");
    var packages := Decimal(count);
    text := WriteLine(text, fields, "PACKAGES", packages);
    fields := fields + Optional("PACKAGES", packages);
    assert fields == IndexPreamble(arch, now, count);
    WrittenIsBlock(fields);
  }

  /** The printer half of generateIndex. */
  method PrintEntries(entries: seq<Entry>, arch: string, now: int) returns (text: string)
    ensures text == IndexOfEntries(entries, arch, now)
  {
    text := PrintPreamble(arch, now, |entries|);
    text := text + "\n";
    ghost var head := BlockText(IndexPreamble(arch, now, |entries|)) + "\n\n";
    ghost var blocks := EntryBlocks(entries);
    assert text == head + Bodies(blocks[..0]);
    for i := 0 to |entries|
      invariant text == head + Bodies(blocks[..i])
    {
      var block := PrintEntry(entries[i]);
      assert blocks[..i + 1][..i] == blocks[..i];
      text := text + block + "\n";
      BodiesSnoc(head, blocks, i);
    }
    assert blocks[..|blocks|] == blocks;
  }

  lemma BodiesSnoc(head: string, blocks: seq<string>, i: nat)
    requires i < |blocks|
    ensures head + Bodies(blocks[..i]) + (blocks[i] + "\n") + "\n" == head + Bodies(blocks[..i + 1])
  {
    assert blocks[..i + 1][..i] == blocks[..i];
    assert blocks[i] + "\n" + "\n" == blocks[i] + "\n\n";
  }

  /** The view half of RegenerateIndex. */
  method BuildView(entries: seq<Entry>, arch: string) returns (view: View)
    ensures view == DirectView(entries, arch)
  {
    view := map[];
    for i := 0 to |entries|
      invariant view == DirectView(entries[..i], arch)
    {
      assert entries[..i + 1][..i] == entries[..i];
      view := AddToView(view, PackageFromEntry(entries[i], arch));
    }
    assert entries[..|entries|] == entries;
  }

  lemma {:induction false} LoadStops(stanzas: seq<Stanza>, i: nat, arch: string)
    requires i <= |stanzas| && LoadStanzas(stanzas[..i], arch).Err?
    ensures LoadStanzas(stanzas, arch) == LoadStanzas(stanzas[..i], arch)
    decreases |stanzas|
  {
    if i == |stanzas| {
      assert stanzas[..i] == stanzas;
    } else {
      assert stanzas[..|stanzas| - 1][..i] == stanzas[..i];
      LoadStops(stanzas[..|stanzas| - 1], i, arch);
    }
  }

  /** The loop of LoadPackagesIndex. */
  method LoadAll(stanzas: seq<Stanza>, arch: string) returns (r: Result<View, IndexError>)
    ensures r == LoadStanzas(stanzas, arch)
  {
    var view: View := map[];
    for i := 0 to |stanzas|
      invariant LoadStanzas(stanzas[..i], arch) == Ok(view)
    {
      assert stanzas[..i + 1][..i] == stanzas[..i];
      var next := LoadStanza(view, stanzas[i], arch);
      if next.Err? {
        LoadStops(stanzas, i + 1, arch);
        return Err(next.error);
      }
      view := next.value;
    }
    assert stanzas[..|stanzas|] == stanzas;
    return Ok(view);
  }
}
