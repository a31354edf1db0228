/** The XPAK metadata blob of a binary package (internal/binpkg/binhost.go). */
module Xpak {
  import opened Text

  newtype Byte = x: int | 0 <= x < 256

  type Bytes = seq<Byte>

  type Meta = map<string, string>

  const WORD := 0x1_0000_0000

  function BigEndian(b: Bytes): nat {
    if |b| == 0 then 0 else 256 * BigEndian(b[..|b| - 1]) + b[|b| - 1] as int
  }

  function WriteBigEndian(n: nat, k: nat): (b: Bytes)
    ensures |b| == k
  {
    if k == 0 then [] else WriteBigEndian(n / 256, k - 1) + [(n % 256) as Byte]
  }

  function Limit(k: nat): nat {
    if k == 0 then 1 else 256 * Limit(k - 1)
  }

  lemma {:induction false} BigEndianReads(n: nat, k: nat)
    requires n < Limit(k)
    ensures BigEndian(WriteBigEndian(n, k)) == n
  {
    if k > 0 {
      BigEndianReads(n / 256, k - 1);
      assert WriteBigEndian(n, k)[..k - 1] == WriteBigEndian(n / 256, k - 1);
    }
  }

  /** binary.BigEndian.Uint32 and its inverse. */
  function U32(b: Bytes): nat
    requires |b| == 4
  {
    BigEndian(b)
  }

  function BE32(n: nat): (b: Bytes)
    requires n < WORD
    ensures |b| == 4
  {
    WriteBigEndian(n, 4)
  }

  lemma ReadWritten(n: nat)
    requires n < WORD
    ensures U32(BE32(n)) == n
  {
    assert Limit(2) == 65536;
    assert Limit(4) == WORD;
    BigEndianReads(n, 4);
  }

  function Chars(b: Bytes): (s: string)
    ensures |s| == |b|
  {
    seq(|b|, i requires 0 <= i < |b| => b[i] as int as char)
  }

  function UpperChar(c: char): char {
    if 'a' <= c <= 'z' then (c as int - 32) as char else c
  }

  function Upper(s: string): string {
    seq(|s|, i requires 0 <= i < |s| => UpperChar(s[i]))
  }

  // -------------------------------------------------------------- single lines

  /** bufio.Scanner gives up at the first line of this many bytes. */
  const MAX_TOKEN := 65536

  /** The trimmed non-empty lines, up to the first one the scanner cannot hold. */
  function LineParts(lines: seq<string>): seq<string>
  {
    if |lines| == 0 || |lines[0]| >= MAX_TOKEN then []
    else if TrimSpace(lines[0]) == "" then LineParts(lines[1..])
    else [TrimSpace(lines[0])] + LineParts(lines[1..])
  }

  function SingleLine(b: Bytes): string {
    Join(LineParts(Split(Chars(b), "\n")), " ")
  }

  /** The result is one line without space at its ends. */
  lemma {:induction false} PartsAreTrimmed(lines: seq<string>)
    requires forall k :: 0 <= k < |lines| ==> '\n' !in lines[k]
    ensures forall k :: 0 <= k < |LineParts(lines)| ==>
              LineParts(lines)[k] != "" && Trimmed(LineParts(lines)[k]) && '\n' !in LineParts(lines)[k]
  {
    if |lines| > 0 && |lines[0]| < MAX_TOKEN {
      PartsAreTrimmed(lines[1..]);
      var lo, hi := TrimPart(lines[0], IsSpace);
    }
  }

  lemma {:induction false} JoinedPart(parts: seq<string>)
    requires forall k :: 0 <= k < |parts| ==> parts[k] != "" && Trimmed(parts[k]) && '\n' !in parts[k]
    ensures Trimmed(Join(parts, " ")) && '\n' !in Join(parts, " ") && (parts != [] ==> Join(parts, " ") != "")
    decreases |parts|
  {
    if |parts| > 1 {
      JoinedPart(parts[1..]);
      assert Join(parts, " ") == parts[0] + " " + Join(parts[1..], " ");
    }
  }

  lemma SingleLineIsOneLine(b: Bytes)
    ensures '\n' !in SingleLine(b) && Trimmed(SingleLine(b))
  {
    var lines := Split(Chars(b), "\n");
    SplitPieces(Chars(b), "\n");
    forall k | 0 <= k < |lines| ensures '\n' !in lines[k] {
      assert !Contains(lines[k], "\n");
      ContainsChar(lines[k], '\n');
    }
    PartsAreTrimmed(lines);
    JoinedPart(LineParts(lines));
  }

  /** singleLine. */
  method ScanSingleLine(b: Bytes) returns (s: string)
    ensures s == SingleLine(b)
  {
    var lines := Split(Chars(b), "\n");
    var parts: seq<string> := [];
    var i := 0;
    while i < |lines| && |lines[i]| < MAX_TOKEN
      invariant 0 <= i <= |lines| && parts + LineParts(lines[i..]) == LineParts(lines)
    {
      var t := TrimSpace(lines[i]);
      assert lines[i..][1..] == lines[i + 1..];
      if t != "" {
        assert parts + ([t] + LineParts(lines[i + 1..])) == parts + [t] + LineParts(lines[i + 1..]);
        parts := parts + [t];
      }
      i := i + 1;
    }
    assert parts + [] == parts;
    s := Join(parts, " ");
  }

  // -------------------------------------------------------------------- parser

  datatype Entry = Entry(name: Bytes, value: Bytes)

  /** The entries the cursor meets from a position on; one whose data lies outside the data section is passed over. */
  function ReadIndex(index: Bytes, data: Bytes, ip: nat): seq<Entry>
    requires ip <= |index|
    decreases |index| - ip
  {
    if ip + 4 > |index| then []
    else
      var nameLen := U32(index[ip..ip + 4]);
      var at := ip + 4;
      if at + nameLen + 8 > |index| then []
      else
        var rest := at + nameLen;
        var off := U32(index[rest..rest + 4]);
        var length := U32(index[rest + 4..rest + 8]);
        (if off + length > |data| then [] else [Entry(index[at..rest], data[off..off + length])])
        + ReadIndex(index, data, rest + 8)
  }

  function AddEntry(meta: Meta, e: Entry): Meta {
    var line := SingleLine(e.value);
    if line == "" then meta else meta[Upper(TrimSpace(Chars(e.name))) := line]
  }

  /** The non-empty single-line values by normalized name, later entries over earlier ones. */
  function Collected(meta: Meta, entries: seq<Entry>): Meta
    decreases |entries|
  {
    if |entries| == 0 then meta else Collected(AddEntry(meta, entries[0]), entries[1..])
  }

  method Add(meta: Meta, e: Entry) returns (next: Meta)
    ensures next == AddEntry(meta, e)
  {
    var v := ScanSingleLine(e.value);
    next := if v == "" then meta else meta[Upper(TrimSpace(Chars(e.name))) := v];
  }

  lemma CollectedStep(meta: Meta, e: Entry, entries: seq<Entry>)
    ensures Collected(meta, [e] + entries) == Collected(AddEntry(meta, e), entries)
  {
    assert ([e] + entries)[1..] == entries;
  }

  /** The cursor loop. */
  method ScanIndex(index: Bytes, data: Bytes) returns (meta: Meta)
    ensures meta == Collected(map[], ReadIndex(index, data, 0))
  {
    meta := map[];
    var ip := 0;
    while ip + 4 <= |index|
      invariant 0 <= ip <= |index|
      invariant Collected(meta, ReadIndex(index, data, ip)) == Collected(map[], ReadIndex(index, data, 0))
      decreases |index| - ip
    {
      var nameLen := U32(index[ip..ip + 4]);
      if ip + 4 + nameLen + 8 > |index| {
        return;
      }
      var at := ip + 4;
      var rest := at + nameLen;
      var off := U32(index[rest..rest + 4]);
      var length := U32(index[rest + 4..rest + 8]);
      ip := rest + 8;
      if off + length <= |data| {
        var e := Entry(index[at..rest], data[off..off + length]);
        CollectedStep(meta, e, ReadIndex(index, data, ip));
        meta := Add(meta, e);
      } else {
        assert [] + ReadIndex(index, data, ip) == ReadIndex(index, data, ip);
      }
    }
  }

  /** The declared sections, if the blob is long enough to hold them. */
  function Sections(blob: Bytes): Option<(Bytes, Bytes)> {
    if |blob| < 16 then None
    else
      var indexEnd := 16 + U32(blob[8..12]);
      var dataEnd := indexEnd + U32(blob[12..16]);
      if dataEnd > |blob| then None else Some((blob[16..indexEnd], blob[indexEnd..dataEnd]))
  }

  function BlobEntries(blob: Bytes): seq<Entry> {
    match Sections(blob)
    case None => []
    case Some((index, data)) => ReadIndex(index, data, 0)
  }

  /** parseXpakBlob: total on every byte string, and nothing rather than an empty map. */
  method ParseXpakBlob(blob: Bytes) returns (r: Option<Meta>)
    ensures r == if Collected(map[], BlobEntries(blob)) == map[] then None
            else Some(Collected(map[], BlobEntries(blob)))
  {
    var sections := Sections(blob);
    if sections.None? {
      return None;
    }
    var meta := ScanIndex(sections.value.0, sections.value.1);
    return if meta == map[] then None else Some(meta);
  }

  // ------------------------------------------------------- canonical encoding

  function EntryBytes(e: Entry, off: nat): (b: Bytes)
    requires |e.name| < WORD && |e.value| < WORD && off < WORD
    ensures |b| == 12 + |e.name|
  {
    BE32(|e.name|) + e.name + BE32(off) + BE32(|e.value|)
  }

  function DataBytes(entries: seq<Entry>): Bytes {
    if |entries| == 0 then [] else entries[0].value + DataBytes(entries[1..])
  }

  function IndexSize(entries: seq<Entry>): nat {
    if |entries| == 0 then 0 else 12 + |entries[0].name| + IndexSize(entries[1..])
  }

  /** The values follow each other from offset off on and everything fits 32 bits. */
  ghost predicate Fits(entries: seq<Entry>, off: nat) {
    IndexSize(entries) < WORD && off + |DataBytes(entries)| < WORD
  }

  ghost function IndexBytes(entries: seq<Entry>, off: nat): (b: Bytes)
    requires Fits(entries, off)
    ensures |b| == IndexSize(entries)
  {
    if |entries| == 0 then []
    else
      assert |DataBytes(entries)| == |entries[0].value| + |DataBytes(entries[1..])|;
      EntryBytes(entries[0], off) + IndexBytes(entries[1..], off + |entries[0].value|)
  }

  const MAGIC: Bytes := [88, 80, 65, 75, 80, 65, 67, 75]

  ghost function Encoded(entries: seq<Entry>): Bytes
    requires Fits(entries, 0)
  {
    MAGIC + BE32(IndexSize(entries)) + BE32(|DataBytes(entries)|) + IndexBytes(entries, 0) + DataBytes(entries)
  }

  lemma EntrySlices(pre: Bytes, e: Entry, off: nat, post: Bytes)
    requires |e.name| < WORD && |e.value| < WORD && off < WORD
    ensures var index := pre + EntryBytes(e, off) + post; var n := |pre|;
            && index[n..n + 4] == BE32(|e.name|)
            && index[n + 4..n + 4 + |e.name|] == e.name
            && index[n + 4 + |e.name|..n + 8 + |e.name|] == BE32(off)
            && index[n + 8 + |e.name|..n + 12 + |e.name|] == BE32(|e.value|)
  {
  }

  /** The index holds the entry at a position, pointing at offset off. */
  ghost predicate EntryAt(index: Bytes, ip: nat, e: Entry, off: nat) {
    var rest := ip + 4 + |e.name|;
    && rest + 8 <= |index|
    && U32(index[ip..ip + 4]) == |e.name| && index[ip + 4..rest] == e.name
    && U32(index[rest..rest + 4]) == off && U32(index[rest + 4..rest + 8]) == |e.value|
  }

  /** It holds all the entries from a position to its end, their values following each other. */
  ghost predicate EntriesAt(index: Bytes, ip: nat, entries: seq<Entry>, off: nat)
    decreases |entries|
  {
    if |entries| == 0 then ip == |index|
    else EntryAt(index, ip, entries[0], off)
         && EntriesAt(index, ip + 12 + |entries[0].name|, entries[1..], off + |entries[0].value|)
  }

  lemma EncodedEntryAt(pre: Bytes, e: Entry, off: nat, post: Bytes)
    requires |e.name| < WORD && |e.value| < WORD && off < WORD
    ensures EntryAt(pre + EntryBytes(e, off) + post, |pre|, e, off)
  {
    EntrySlices(pre, e, off, post);
    ReadWritten(|e.name|);
    ReadWritten(off);
    ReadWritten(|e.value|);
  }

  lemma IndexSplits(pre: Bytes, entries: seq<Entry>, off: nat)
    requires |entries| > 0 && Fits(entries, off)
    ensures |entries[0].name| < WORD && |entries[0].value| < WORD && off < WORD
    ensures Fits(entries[1..], off + |entries[0].value|)
    ensures pre + IndexBytes(entries, off)
         == pre + EntryBytes(entries[0], off) + IndexBytes(entries[1..], off + |entries[0].value|)
  {
  }

  lemma {:induction false} EncodedEntriesAt(pre: Bytes, entries: seq<Entry>, off: nat)
    requires Fits(entries, off)
    ensures EntriesAt(pre + IndexBytes(entries, off), |pre|, entries, off)
    decreases |entries|
  {
    if |entries| > 0 {
      var e := entries[0];
      IndexSplits(pre, entries, off);
      EncodedEntryAt(pre, e, off, IndexBytes(entries[1..], off + |e.value|));
      EncodedEntriesAt(pre + EntryBytes(e, off), entries[1..], off + |e.value|);
    }
  }

  /** The cursor takes one entry in one step. */
  lemma ReadStep(index: Bytes, data: Bytes, ip: nat, e: Entry, off: nat)
    requires EntryAt(index, ip, e, off) && off + |e.value| <= |data| && data[off..off + |e.value|] == e.value
    ensures ReadIndex(index, data, ip) == [e] + ReadIndex(index, data, ip + 12 + |e.name|)
  {
  }

  lemma DataSlices(data: Bytes, off: nat, first: Bytes, rest: Bytes)
    requires off <= |data| && data[off..] == first + rest
    ensures off + |first| <= |data| && data[off..off + |first|] == first && data[off + |first|..] == rest
  {
    assert data[off..off + |first|] == data[off..][..|first|];
    assert data[off + |first|..] == data[off..][|first|..];
  }

  lemma {:induction false} ReadEntries(index: Bytes, ip: nat, entries: seq<Entry>, data: Bytes, off: nat)
    requires ip <= |index| && EntriesAt(index, ip, entries, off) && off <= |data| && data[off..] == DataBytes(entries)
    ensures ReadIndex(index, data, ip) == entries
    decreases |entries|
  {
    if |entries| > 0 {
      var e := entries[0];
      DataSlices(data, off, e.value, DataBytes(entries[1..]));
      ReadStep(index, data, ip, e, off);
      ReadEntries(index, ip + 12 + |e.name|, entries[1..], data, off + |e.value|);
      assert entries == [e] + entries[1..];
    }
  }

  lemma BlobSlices(a: Bytes, b: Bytes, index: Bytes, data: Bytes)
    requires |a| == 4 && |b| == 4
    ensures var blob := MAGIC + a + b + index + data;
            && |blob| == 16 + |index| + |data| && blob[8..12] == a && blob[12..16] == b
            && blob[16..16 + |index|] == index && blob[16 + |index|..16 + |index| + |data|] == data
  {
  }

  lemma ParsedParts(blob: Bytes, a: Bytes, b: Bytes, index: Bytes, data: Bytes)
    requires |a| == 4 && |b| == 4 && U32(a) == |index| && U32(b) == |data| && blob == MAGIC + a + b + index + data
    ensures BlobEntries(blob) == ReadIndex(index, data, 0)
  {
    BlobSlices(a, b, index, data);
  }

  /** The canonical encoding of any list of entries reads back as exactly that list, so the parser returns the
      normalized names with their non-empty single-line values, the last of each name winning. */
  lemma EncodedReadsBack(entries: seq<Entry>)
    requires Fits(entries, 0)
    ensures BlobEntries(Encoded(entries)) == entries
  {
    var data := DataBytes(entries);
    var index := IndexBytes(entries, 0);
    ReadWritten(IndexSize(entries));
    ReadWritten(|data|);
    ParsedParts(Encoded(entries), BE32(IndexSize(entries)), BE32(|data|), index, data);
    assert [] + index == index;
    EncodedEntriesAt([], entries, 0);
    ReadEntries(index, 0, entries, data, 0);
  }

  // ----------------------------------------------------------- what it contains

  ghost predicate Counts(e: Entry, key: string) {
    Upper(TrimSpace(Chars(e.name))) == key && SingleLine(e.value) != ""
  }

  lemma {:induction false} NothingLater(meta: Meta, entries: seq<Entry>, key: string)
    requires forall j :: 0 <= j < |entries| ==> !Counts(entries[j], key)
    ensures key in Collected(meta, entries) <==> key in meta
    ensures key in meta ==> Collected(meta, entries)[key] == meta[key]
    decreases |entries|
  {
    if |entries| > 0 {
      assert !Counts(entries[0], key);
      NothingLater(AddEntry(meta, entries[0]), entries[1..], key);
    }
  }

  /** A key is present exactly when some entry of that name has something on a line, and holds the last such value. */
  lemma {:induction false} LastDuplicateWins(meta: Meta, entries: seq<Entry>, key: string, k: nat)
    requires k < |entries| && Counts(entries[k], key) && forall j :: k < j < |entries| ==> !Counts(entries[j], key)
    ensures key in Collected(meta, entries) && Collected(meta, entries)[key] == SingleLine(entries[k].value)
    decreases |entries|
  {
    if k == 0 {
      NothingLater(AddEntry(meta, entries[0]), entries[1..], key);
    } else {
      LastDuplicateWins(AddEntry(meta, entries[0]), entries[1..], key, k - 1);
    }
  }
}
