/** Go's string primitives, as the index and configuration code uses them.
    A Go string of valid UTF-8 is modelled as its sequence of code points. */
module Text {

  datatype Option<+T> = None | Some(value: T)

  datatype Result<+T, +E> = Ok(value: T) | Err(error: E)

  // ---------------------------------------------------------------- searching

  ghost predicate OccursAt(s: string, sep: string, i: int) {
    0 <= i <= i + |sep| <= |s| && s[i..i + |sep|] == sep
  }

  ghost predicate Contains(s: string, sep: string) {
    exists i :: OccursAt(s, sep, i)
  }

  /** Index of the first occurrence of sep, or |s| when there is none. */
  function IndexOf(s: string, sep: string): (i: nat)
    requires sep != ""
    ensures i <= |s|
    ensures i < |s| ==> i + |sep| <= |s| && s[i..i + |sep|] == sep
    ensures forall j :: 0 <= j < i ==> !OccursAt(s, sep, j)
    ensures i == |s| ==> !Contains(s, sep)
  {
    if |s| < |sep| then |s|
    else if s[..|sep|] == sep then 0
    else
      var rest := IndexOf(s[1..], sep);
      assert forall j :: 1 <= j ==> OccursAt(s, sep, j) ==> OccursAt(s[1..], sep, j - 1) by {
        forall j | 1 <= j && OccursAt(s, sep, j) ensures OccursAt(s[1..], sep, j - 1) {
          assert s[1..][j - 1..j - 1 + |sep|] == s[j..j + |sep|];
        }
      }
      assert rest < |s[1..]| ==> s[1 + rest..1 + rest + |sep|] == s[1..][rest..rest + |sep|];
      1 + rest
  }

  /** The first occurrence is where it is, and nowhere earlier. */
  lemma IndexOfIs(s: string, sep: string, i: nat)
    requires sep != "" && OccursAt(s, sep, i)
    requires forall j :: 0 <= j < i ==> !OccursAt(s, sep, j)
    ensures IndexOf(s, sep) == i
  {
    var k := IndexOf(s, sep);
    if k < |s| {
      assert OccursAt(s, sep, k);
    }
  }

  lemma SliceOfSlice<T>(s: seq<T>, lo: nat, hi: nat, i: nat, j: nat)
    requires lo <= hi <= |s| && i <= j <= hi - lo
    ensures s[lo..hi][i..j] == s[lo + i..lo + j]
  {
    assert forall k :: 0 <= k < j - i ==> s[lo..hi][i..j][k] == s[lo..hi][i + k] == s[lo + i..lo + j][k];
  }

  lemma OccursInPart(s: string, lo: nat, hi: nat, sep: string)
    requires lo <= hi <= |s| && Contains(s[lo..hi], sep)
    ensures Contains(s, sep)
  {
    var i :| OccursAt(s[lo..hi], sep, i);
    SliceOfSlice(s, lo, hi, i, i + |sep|);
    assert OccursAt(s, sep, lo + i);
  }

  /** A one-character separator occurs exactly where the character stands. */
  lemma ContainsChar(s: string, c: char)
    ensures Contains(s, [c]) <==> c in s
  {
    if c in s {
      var i :| 0 <= i < |s| && s[i] == c;
      assert OccursAt(s, [c], i);
    }
    if Contains(s, [c]) {
      var i :| OccursAt(s, [c], i);
      assert s[i..i + 1][0] == s[i];
    }
  }

  // ---------------------------------------------------------------- splitting

  /** strings.Split for a non-empty separator: always at least one piece. */
  function Split(s: string, sep: string): (pieces: seq<string>)
    requires sep != ""
    ensures |pieces| >= 1
    decreases |s|
  {
    var i := IndexOf(s, sep);
    if i == |s| then [s] else [s[..i]] + Split(s[i + |sep|..], sep)
  }

  function Join(pieces: seq<string>, sep: string): string {
    if |pieces| == 0 then ""
    else if |pieces| == 1 then pieces[0]
    else pieces[0] + sep + Join(pieces[1..], sep)
  }

  /** Splitting loses nothing. */
  lemma {:induction false} JoinSplit(s: string, sep: string)
    requires sep != ""
    ensures Join(Split(s, sep), sep) == s
    decreases |s|
  {
    var i := IndexOf(s, sep);
    if i < |s| {
      var tail := Split(s[i + |sep|..], sep);
      JoinSplit(s[i + |sep|..], sep);
      assert Split(s, sep)[1..] == tail;
      assert s == s[..i] + sep + s[i + |sep|..];
    }
  }

  ghost predicate Free(pieces: seq<string>, sep: string) {
    forall k :: 0 <= k < |pieces| ==> !Contains(pieces[k], sep)
  }

  /** No piece of a split still holds the separator. */
  lemma {:induction false} SplitPieces(s: string, sep: string)
    requires sep != ""
    ensures Free(Split(s, sep), sep)
    decreases |s|
  {
    var i := IndexOf(s, sep);
    if i < |s| {
      SplitPieces(s[i + |sep|..], sep);
      PrefixFree(s, sep, i);
    }
  }

  lemma PrefixFree(s: string, sep: string, i: nat)
    requires i <= |s|
    requires forall j :: 0 <= j < i ==> !OccursAt(s, sep, j)
    requires sep != ""
    ensures !Contains(s[..i], sep)
  {
    forall j ensures !OccursAt(s[..i], sep, j) {
      if 0 <= j && j + |sep| <= i {
        SliceOfSlice(s, 0, i, j, j + |sep|);
        assert !OccursAt(s, sep, j);
      }
    }
  }

  /** The text before the first separator is the first piece. */
  lemma SplitHead(head: string, sep: string, rest: string)
    requires sep != ""
    requires forall j :: 0 <= j < |head| ==> !OccursAt(head + sep + rest, sep, j)
    ensures Split(head + sep + rest, sep) == [head] + Split(rest, sep)
  {
    var s := head + sep + rest;
    assert s[|head|..|head| + |sep|] == sep;
    assert OccursAt(s, sep, |head|);
    IndexOfIs(s, sep, |head|);
    assert s[..|head|] == head;
    assert s[|head| + |sep|..] == rest;
  }

  lemma SplitWhole(s: string, sep: string)
    requires sep != "" && !Contains(s, sep)
    ensures Split(s, sep) == [s]
  {
    var i := IndexOf(s, sep);
    assert !OccursAt(s, sep, i);
  }

  /** For a one-character separator, joining and splitting are inverse. */
  lemma {:induction false} SplitJoinChar(pieces: seq<string>, c: char)
    requires |pieces| >= 1
    requires forall k :: 0 <= k < |pieces| ==> c !in pieces[k]
    ensures Split(Join(pieces, [c]), [c]) == pieces
    decreases |pieces|
  {
    if |pieces| == 1 {
      ContainsChar(pieces[0], c);
      SplitWhole(pieces[0], [c]);
    } else {
      var rest := Join(pieces[1..], [c]);
      var s := pieces[0] + [c] + rest;
      forall j | 0 <= j < |pieces[0]| ensures !OccursAt(s, [c], j) {
        assert s[j..j + 1][0] == pieces[0][j];
      }
      SplitHead(pieces[0], [c], rest);
      SplitJoinChar(pieces[1..], c);
    }
  }

  /** strings.Cut: the text around the first separator. */
  function Cut(s: string, sep: string): (r: Option<(string, string)>)
    requires sep != ""
  {
    var i := IndexOf(s, sep);
    if i == |s| then None else Some((s[..i], s[i + |sep|..]))
  }

  /** A key without spaces survives "key: value" whatever the value is. */
  lemma CutField(key: string, value: string)
    requires ' ' !in key
    ensures Cut(key + ": " + value, ": ") == Some((key, value))
  {
    var s := key + ": " + value;
    assert s[|key|..|key| + 2] == ": ";
    forall j | 0 <= j < |key| ensures !OccursAt(s, ": ", j) {
      assert s[j..j + 2][1] == s[j + 1];
      assert s[j + 1] == if j + 1 < |key| then key[j + 1] else ':';
    }
    IndexOfIs(s, ": ", |key|);
    assert s[..|key|] == key && s[|key| + 2..] == value;
  }

  // ----------------------------------------------------------------- trimming

  /** unicode.IsSpace. */
  predicate IsSpace(c: char) {
    var n := c as int;
    9 <= n <= 13 || n == 0x20 || n == 0x85 || n == 0xA0 || n == 0x1680
    || 0x2000 <= n <= 0x200A || n == 0x2028 || n == 0x2029 || n == 0x202F
    || n == 0x205F || n == 0x3000
  }

  /** First position from i on whose character is not cut. */
  function SkipWhile(s: string, i: nat, cut: char -> bool): (k: nat)
    requires i <= |s|
    ensures i <= k <= |s|
    ensures forall j :: i <= j < k ==> cut(s[j])
    ensures k < |s| ==> !cut(s[k])
    decreases |s| - i
  {
    if i < |s| && cut(s[i]) then SkipWhile(s, i + 1, cut) else i
  }

  /** First position from i on whose character is cut. */
  function SkipUntil(s: string, i: nat, cut: char -> bool): (k: nat)
    requires i <= |s|
    ensures i <= k <= |s|
    ensures forall j :: i <= j < k ==> !cut(s[j])
    ensures k < |s| ==> cut(s[k])
    decreases |s| - i
  {
    if i < |s| && !cut(s[i]) then SkipUntil(s, i + 1, cut) else i
  }

  function TrimLeftBy(s: string, cut: char -> bool): string {
    s[SkipWhile(s, 0, cut)..]
  }

  /** strings.TrimFunc: cut characters go from both ends. */
  function TrimBy(s: string, cut: char -> bool): string
    decreases |s|
  {
    if s != "" && cut(s[0]) then TrimBy(s[1..], cut)
    else if s != "" && cut(s[|s| - 1]) then TrimBy(s[..|s| - 1], cut)
    else s
  }

  predicate Clean(s: string, cut: char -> bool) {
    s != "" ==> !cut(s[0]) && !cut(s[|s| - 1])
  }

  function TrimSpace(s: string): string {
    TrimBy(s, IsSpace)
  }

  predicate Trimmed(s: string) {
    s != "" ==> !IsSpace(s[0]) && !IsSpace(s[|s| - 1])
  }

  /** Trimming leaves a clean contiguous part of the text. */
  lemma {:induction false} TrimPart(s: string, cut: char -> bool) returns (lo: nat, hi: nat)
    ensures lo <= hi <= |s| && TrimBy(s, cut) == s[lo..hi]
    ensures Clean(TrimBy(s, cut), cut)
    ensures forall i :: 0 <= i < lo ==> cut(s[i])
    ensures forall i :: hi <= i < |s| ==> cut(s[i])
    decreases |s|
  {
    if s != "" && cut(s[0]) {
      lo, hi := TrimPart(s[1..], cut);
      lo, hi := lo + 1, hi + 1;
    } else if s != "" && cut(s[|s| - 1]) {
      lo, hi := TrimPart(s[..|s| - 1], cut);
    } else {
      lo, hi := 0, |s|;
    }
  }

  /** Only cut characters around a clean core are removed. */
  lemma TrimCore(left: string, core: string, right: string, cut: char -> bool)
    requires core != "" && Clean(core, cut)
    requires forall c :: c in left || c in right ==> cut(c)
    ensures TrimBy(left + core + right, cut) == core
  {
    var s := left + core + right;
    var lo, hi := TrimPart(s, cut);
    assert s[|left|] == core[0] && s[|left| + |core| - 1] == core[|core| - 1];
    assert lo <= |left| && |left| + |core| <= hi;
    assert s[lo..hi][0] == s[lo] && s[lo..hi][hi - lo - 1] == s[hi - 1];
    assert forall i :: 0 <= i < |left| ==> s[i] == left[i];
    assert forall i :: |left| + |core| <= i < |s| ==> s[i] == right[i - |left| - |core|];
    assert s[|left|..|left| + |core|] == core;
  }

  lemma TrimmedStays(s: string)
    requires Trimmed(s)
    ensures TrimSpace(s) == s
  {
    if s != "" {
      TrimCore("", s, "", IsSpace);
      assert "" + s + "" == s;
    }
  }

  // ------------------------------------------------------------------- fields

  ghost predicate Word(w: string, sep: char -> bool) {
    w != "" && forall i :: 0 <= i < |w| ==> !sep(w[i])
  }

  ghost predicate Words(words: seq<string>, sep: char -> bool) {
    forall k :: 0 <= k < |words| ==> Word(words[k], sep)
  }

  /** strings.FieldsFunc: maximal runs of non-separators. */
  function FieldsBy(s: string, sep: char -> bool): seq<string>
    decreases |s|
  {
    var t := TrimLeftBy(s, sep);
    if t == "" then []
    else
      var n := SkipUntil(t, 0, sep);
      [t[..n]] + FieldsBy(t[n..], sep)
  }

  lemma {:induction false} FieldsAreWords(s: string, sep: char -> bool)
    ensures Words(FieldsBy(s, sep), sep)
    decreases |s|
  {
    var t := TrimLeftBy(s, sep);
    if t != "" {
      var n := SkipUntil(t, 0, sep);
      assert Word(t[..n], sep);
      FieldsAreWords(t[n..], sep);
    }
  }

  /** strings.Fields. */
  function Fields(s: string): seq<string> {
    FieldsBy(s, IsSpace)
  }

  lemma FieldsHead(word: string, rest: string, sep: char -> bool)
    requires Word(word, sep)
    requires rest != "" ==> sep(rest[0])
    ensures FieldsBy(word + rest, sep) == [word] + FieldsBy(rest, sep)
  {
    var s := word + rest;
    var t := TrimLeftBy(s, sep);
    assert s[0] == word[0];
    assert t == s;
    var n := SkipUntil(t, 0, sep);
    assert forall i :: 0 <= i < |word| ==> s[i] == word[i];
    assert rest != "" ==> s[|word|] == rest[0];
    assert n == |word|;
    assert s[..|word|] == word && s[|word|..] == rest;
  }

  /** Words joined by one separator read back as those words. */
  lemma {:induction false} FieldsJoin(words: seq<string>, c: char, sep: char -> bool)
    requires sep(c)
    requires Words(words, sep)
    ensures FieldsBy(Join(words, [c]), sep) == words
    decreases |words|
  {
    if |words| == 0 {
    } else if |words| == 1 {
      assert Word(words[0], sep);
      FieldsHead(words[0], "", sep);
      assert words[0] + "" == words[0];
    } else {
      var rest := Join(words[1..], [c]);
      assert Word(words[0], sep);
      assert Words(words[1..], sep);
      FieldsJoin(words[1..], c, sep);
      FieldsHead(words[0], [c] + rest, sep);
      assert words[0] + [c] + rest == words[0] + ([c] + rest);
      FieldsSkip(c, rest, sep);
    }
  }

  lemma {:induction false} SkipShift(c: char, rest: string, i: nat, cut: char -> bool)
    requires i <= |rest|
    ensures SkipWhile([c] + rest, i + 1, cut) == SkipWhile(rest, i, cut) + 1
    decreases |rest| - i
  {
    if i < |rest| && cut(rest[i]) {
      SkipShift(c, rest, i + 1, cut);
    }
  }

  lemma FieldsSkip(c: char, rest: string, sep: char -> bool)
    requires sep(c)
    ensures FieldsBy([c] + rest, sep) == FieldsBy(rest, sep)
  {
    assert ([c] + rest)[1..] == rest;
    var t := TrimLeftBy([c] + rest, sep);
    assert t == TrimLeftBy(rest, sep) by {
      SkipShift(c, rest, 0, sep);
    }
  }

  // ----------------------------------------------------------------- ordering

  /** Go's `<` on strings. */
  predicate Less(a: string, b: string) {
    if b == "" then false
    else if a == "" then true
    else if a[0] != b[0] then a[0] < b[0]
    else Less(a[1..], b[1..])
  }

  lemma {:induction false} LessIrreflexive(a: string)
    ensures !Less(a, a)
  {
    if a != "" {
      LessIrreflexive(a[1..]);
    }
  }

  lemma {:induction false} LessTransitive(a: string, b: string, c: string)
    requires Less(a, b) && Less(b, c)
    ensures Less(a, c)
  {
    if a != "" && a[0] == b[0] && b[0] == c[0] {
      LessTransitive(a[1..], b[1..], c[1..]);
    }
  }

  lemma {:induction false} LessTotal(a: string, b: string)
    ensures a == b || Less(a, b) || Less(b, a)
  {
    if a != "" && b != "" && a[0] == b[0] {
      LessTotal(a[1..], b[1..]);
      assert a == [a[0]] + a[1..] && b == [b[0]] + b[1..];
    }
  }

  // ------------------------------------------------------------------ numbers

  const MAX_INT64: int := 0x7FFF_FFFF_FFFF_FFFF
  const MIN_INT64: int := -0x8000_0000_0000_0000

  predicate IsDigit(c: char) {
    '0' <= c <= '9'
  }

  function Digit(n: nat): (c: char)
    requires n < 10
    ensures IsDigit(c) && DigitValue(c) == n
  {
    "0123456789"[n]
  }

  function DigitValue(c: char): (n: nat)
    requires IsDigit(c)
    ensures n < 10
  {
    c as int - '0' as int
  }

  predicate AllDigits(s: string) {
    forall c :: c in s ==> IsDigit(c)
  }

  function DigitsValue(s: string): nat
    requires AllDigits(s)
  {
    if s == "" then 0 else 10 * DigitsValue(s[..|s| - 1]) + DigitValue(s[|s| - 1])
  }

  /** fmt's %d. */
  function Decimal(n: nat): (s: string)
    ensures s != "" && AllDigits(s)
  {
    if n < 10 then [Digit(n)] else Decimal(n / 10) + [Digit(n % 10)]
  }

  function SignedDecimal(z: int): (s: string)
    ensures s != ""
    ensures forall c :: c in s ==> IsDigit(c) || c == '-'
  {
    if z < 0 then "-" + Decimal(0 - z) else Decimal(z)
  }

  /** strconv.ParseInt(s, 10, 64), which is strconv.Atoi on 64-bit hosts. */
  function ParseInt(s: string): (r: Option<int>)
    ensures r.Some? ==> MIN_INT64 <= r.value <= MAX_INT64
  {
    var negative := s != "" && s[0] == '-';
    var digits := if s != "" && (s[0] == '-' || s[0] == '+') then s[1..] else s;
    if digits == "" || !AllDigits(digits) then None
    else
      var value: int := if negative then 0 - DigitsValue(digits) else DigitsValue(digits);
      if MIN_INT64 <= value <= MAX_INT64 then Some(value) else None
  }

  lemma {:induction false} DecimalValue(n: nat)
    ensures DigitsValue(Decimal(n)) == n
  {
    if n < 10 {
      assert Decimal(n)[..0] == "";
    } else {
      DecimalValue(n / 10);
      assert Decimal(n)[..|Decimal(n)| - 1] == Decimal(n / 10);
    }
  }

  /** Printing a 64-bit integer and parsing it back. */
  lemma ParsePrinted(z: int)
    requires MIN_INT64 <= z <= MAX_INT64
    ensures ParseInt(SignedDecimal(z)) == Some(z)
  {
    if z < 0 {
      DecimalValue(0 - z);
      ParseDigits("-", Decimal(0 - z), z);
    } else {
      DecimalValue(z);
      ParseDigits("", Decimal(z), z);
      assert "" + Decimal(z) == Decimal(z);
    }
  }

  lemma ParseDigits(sign: string, digits: string, z: int)
    requires digits != "" && AllDigits(digits) && MIN_INT64 <= z <= MAX_INT64
    requires (sign == "-" && z == 0 - DigitsValue(digits)) || (sign == "" && z == DigitsValue(digits))
    ensures ParseInt(sign + digits) == Some(z)
  {
    var s := sign + digits;
    assert digits[0] in digits;
    assert sign == "" ==> s == digits;
    assert sign == "-" ==> s[0] == '-' && s[1..] == digits;
  }

  /** Length of the UTF-8 encoding, which is what Go's len counts. */
  function Utf8Len(s: string): (n: nat)
    ensures n >= |s|
  {
    if s == "" then 0
    else
      var c := s[0] as int;
      (if c < 0x80 then 1 else if c < 0x800 then 2 else if c < 0x10000 then 3 else 4) + Utf8Len(s[1..])
  }
}
