/** Portage configuration files: what is printed is what is read (internal/builder/config_transfer.go). */
module ConfigTransfer {
  import opened Text
  import opened IndexText
  import opened Ordering

  // ------------------------------------------------------------- shared lemmas

  predicate OneLine(s: string) {
    '\n' !in s
  }

  predicate OneLines(lines: seq<string>) {
    forall k :: 0 <= k < |lines| ==> OneLine(lines[k])
  }

  lemma {:induction false} JoinConcat(a: seq<string>, b: seq<string>, sep: string)
    requires |a| >= 1 && |b| >= 1
    ensures Join(a + b, sep) == Join(a, sep) + sep + Join(b, sep)
    decreases |a|
  {
    if |a| == 1 {
      assert (a + b)[1..] == b;
    } else {
      JoinConcat(a[1..], b, sep);
      assert (a + b)[1..] == a[1..] + b;
    }
  }

  /** A file of whole lines splits into its lines and one empty rest. */
  lemma SplitLines(lines: seq<string>)
    requires |lines| >= 1 && OneLines(lines)
    ensures Split(Join(lines, "\n") + "\n", "\n") == lines + [""]
  {
    JoinSnoc(lines, "", "\n");
    assert Join(lines, "\n") + "\n" + "" == Join(lines, "\n") + "\n";
    assert "\n" == ['\n'];
    SplitJoinChar(lines + [""], '\n');
  }

  lemma SplitIsOneLines(s: string)
    ensures OneLines(Split(s, "\n"))
  {
    SplitPieces(s, "\n");
    var lines := Split(s, "\n");
    forall k | 0 <= k < |lines| ensures OneLine(lines[k]) {
      assert !Contains(lines[k], "\n");
      ContainsChar(lines[k], '\n');
    }
  }

  lemma TrimIsOneLine(s: string, cut: char -> bool)
    requires OneLine(s)
    ensures OneLine(TrimBy(s, cut))
  {
    var lo, hi := TrimPart(s, cut);
  }

  predicate Skipped(line: string) {
    line == "" || "#" <= line
  }

  // --------------------------------------------------------------- package.use

  type UseMap = map<string, seq<string>>

  /** One line of package.use. */
  function UseLine(m: UseMap, raw: string): UseMap {
    var line := TrimSpace(raw);
    if Skipped(line) then m
    else
      var fields := Fields(line);
      if |fields| < 2 then m
      else m[fields[0] := (if fields[0] in m then m[fields[0]] else []) + fields[1..]]
  }

  function UseLines(lines: seq<string>): UseMap {
    if |lines| == 0 then map[] else UseLine(UseLines(lines[..|lines| - 1]), lines[|lines| - 1])
  }

  /** parsePackageUseFile, into an empty configuration. */
  method ParsePackageUse(data: string) returns (m: UseMap)
    ensures m == UseLines(Split(data, "\n"))
  {
    var lines := Split(data, "\n");
    m := map[];
    for i := 0 to |lines|
      invariant m == UseLines(lines[..i])
    {
      assert lines[..i + 1][..i] == lines[..i];
      m := UseLine(m, lines[i]);
    }
    assert lines[..|lines|] == lines;
  }

  ghost predicate GoodEntry(atom: string, flags: seq<string>) {
    Word(atom, IsSpace) && atom[0] != '#' && flags != [] && Words(flags, IsSpace)
  }

  ghost predicate GoodUse(m: UseMap) {
    forall atom :: atom in m ==> GoodEntry(atom, m[atom])
  }

  lemma FirstField(s: string)
    requires s != "" && !IsSpace(s[0])
    ensures |Fields(s)| >= 1 && Fields(s)[0] != "" && Fields(s)[0][0] == s[0]
  {
    var n := SkipUntil(s, 0, IsSpace);
    assert TrimLeftBy(s, IsSpace) == s;
    assert n > 0;
    assert Fields(s)[0] == s[..n];
  }

  lemma UseLineGood(m: UseMap, raw: string)
    requires GoodUse(m)
    ensures GoodUse(UseLine(m, raw))
  {
    var line := TrimSpace(raw);
    var lo, hi := TrimPart(raw, IsSpace);
    if !Skipped(line) {
      FirstField(line);
      FieldsAreWords(line, IsSpace);
      var fields := Fields(line);
      if |fields| >= 2 {
        assert Word(fields[0], IsSpace) && Words(fields[1..], IsSpace);
        assert "#" == ['#'];
        assert line[0] != '#';
      }
    }
  }

  /** Whatever the file says, what is read has plain atoms with at least one plain flag each. */
  lemma {:induction false} ReadUseIsGood(lines: seq<string>)
    ensures GoodUse(UseLines(lines))
  {
    if |lines| > 0 {
      ReadUseIsGood(lines[..|lines| - 1]);
      UseLineGood(UseLines(lines[..|lines| - 1]), lines[|lines| - 1]);
    }
  }

  function UseText(atom: string, flags: seq<string>): string {
    atom + " " + Join(flags, " ")
  }

  function UseTexts(order: seq<string>, m: UseMap): (r: seq<string>)
    requires forall k :: 0 <= k < |order| ==> order[k] in m
    ensures |r| == |order| && forall k :: 0 <= k < |r| ==> r[k] == UseText(order[k], m[order[k]])
  {
    seq(|order|, k requires 0 <= k < |order| => UseText(order[k], m[order[k]]))
  }

  /** An order in which ranging over the map may meet its keys. */
  ghost predicate SomeOrder(order: seq<string>, m: UseMap) {
    Distinct(order) && Elements(order) == m.Keys && forall k :: 0 <= k < |order| ==> order[k] in m
  }

  function UseFile(order: seq<string>, m: UseMap): string
    requires forall k :: 0 <= k < |order| ==> order[k] in m
  {
    Join(UseTexts(order, m), "\n") + "\n"
  }

  lemma OrderSnoc(order: seq<string>, m: UseMap, left: set<string>, atom: string)
    requires left <= m.Keys && Elements(order) == m.Keys - left && Distinct(order) && atom in left
    requires forall k :: 0 <= k < |order| ==> order[k] in m
    ensures Distinct(order + [atom]) && Elements(order + [atom]) == m.Keys - (left - {atom})
    ensures forall k :: 0 <= k < |order| + 1 ==> (order + [atom])[k] in m
    ensures UseTexts(order + [atom], m) == UseTexts(order, m) + [UseText(atom, m[atom])]
  {
    assert forall k :: 0 <= k < |order| ==> order[k] in Elements(order);
    assert Elements(order + [atom]) == Elements(order) + {atom};
  }

  /** writePackageUse: the lines come out in the order the map iteration gives. */
  method WritePackageUse(m: UseMap) returns (text: string)
    ensures exists order :: SomeOrder(order, m) && text == UseFile(order, m)
  {
    var lines: seq<string> := [];
    ghost var order: seq<string> := [];
    var left := m.Keys;
    while left != {}
      invariant left <= m.Keys && Elements(order) == m.Keys - left && Distinct(order)
      invariant forall k :: 0 <= k < |order| ==> order[k] in m
      invariant lines == UseTexts(order, m)
      decreases left
    {
      var atom :| atom in left;
      OrderSnoc(order, m, left, atom);
      lines := lines + [UseText(atom, m[atom])];
      order := order + [atom];
      left := left - {atom};
    }
    text := Join(lines, "\n") + "\n";
    assert SomeOrder(order, m) && text == UseFile(order, m);
  }

  lemma {:induction false} JoinWords(words: seq<string>)
    requires |words| >= 1 && Words(words, IsSpace)
    ensures Join(words, " ") != "" && Join(words, " ")[0] == words[0][0]
    ensures Trimmed(Join(words, " ")) && OneLine(Join(words, " "))
    decreases |words|
  {
    assert Word(words[0], IsSpace);
    if |words| > 1 {
      JoinWords(words[1..]);
      var rest := Join(words[1..], " ");
      assert Join(words, " ") == words[0] + " " + rest;
    }
  }

  /** A good entry survives its line. */
  lemma UseLineReads(m: UseMap, atom: string, flags: seq<string>)
    requires GoodEntry(atom, flags) && atom !in m
    ensures UseLine(m, UseText(atom, flags)) == m[atom := flags] && OneLine(UseText(atom, flags))
  {
    var words := [atom] + flags;
    assert Words(words, IsSpace);
    assert words[1..] == flags;
    assert Join(words, " ") == UseText(atom, flags);
    JoinWords(words);
    TrimmedStays(UseText(atom, flags));
    assert " " == [' '];
    FieldsJoin(words, ' ', IsSpace);
    assert "#" == ['#'];
    assert [] + flags == flags;
  }

  ghost function Listed(order: seq<string>, m: UseMap): UseMap
    requires forall k :: 0 <= k < |order| ==> order[k] in m
  {
    if |order| == 0 then map[] else Listed(order[..|order| - 1], m)[order[|order| - 1] := m[order[|order| - 1]]]
  }

  lemma {:induction false} ListedIs(order: seq<string>, m: UseMap)
    requires forall k :: 0 <= k < |order| ==> order[k] in m
    ensures Listed(order, m).Keys == Elements(order)
    ensures forall a :: a in Listed(order, m) ==> a in m && Listed(order, m)[a] == m[a]
  {
    var n := |order| - 1;
    if n >= 0 {
      ListedIs(order[..n], m);
      assert order == order[..n] + [order[n]];
    }
  }

  lemma {:induction false} UseTextsRead(texts: seq<string>, order: seq<string>, m: UseMap)
    requires GoodUse(m) && Distinct(order) && |texts| == |order|
    requires forall k :: 0 <= k < |order| ==> order[k] in m
    requires forall k :: 0 <= k < |order| ==> texts[k] == UseText(order[k], m[order[k]])
    ensures UseLines(texts) == Listed(order, m) && OneLines(texts)
  {
    if |order| > 0 {
      var n := |order| - 1;
      UseTextsRead(texts[..n], order[..n], m);
      ListedIs(order[..n], m);
      assert GoodEntry(order[n], m[order[n]]);
      UseLineReads(Listed(order[..n], m), order[n], m[order[n]]);
    }
  }

  lemma EmptyLineSkipped()
    ensures TrimSpace("") == "" && Skipped(TrimSpace(""))
  {
  }

  lemma EmptyUseLine(lines: seq<string>)
    ensures UseLines(lines + [""]) == UseLines(lines)
  {
    assert (lines + [""])[..|lines|] == lines;
    EmptyLineSkipped();
  }

  lemma ListedAll(order: seq<string>, m: UseMap)
    requires SomeOrder(order, m)
    ensures Listed(order, m) == m && (m != map[] ==> |order| >= 1)
  {
    ListedIs(order, m);
    if m != map[] {
      var a :| a in m.Keys;
      assert a in Elements(order);
    }
  }

  lemma GoodUseReads(order: seq<string>, m: UseMap)
    requires m != map[] && SomeOrder(order, m) && GoodUse(m)
    ensures UseLines(Split(UseFile(order, m), "\n")) == m
  {
    ListedAll(order, m);
    UseTextsRead(UseTexts(order, m), order, m);
    SplitLines(UseTexts(order, m));
    EmptyUseLine(UseTexts(order, m));
  }

  /** package.use reads back to the same map, in every line order, exactly when every entry is a plain atom with at
      least one plain flag. */
  lemma PackageUseRoundTrip(order: seq<string>, m: UseMap)
    requires m != map[] && SomeOrder(order, m)
    ensures UseLines(Split(UseFile(order, m), "\n")) == m <==> GoodUse(m)
  {
    ReadUseIsGood(Split(UseFile(order, m), "\n"));
    if GoodUse(m) {
      GoodUseReads(order, m);
    }
  }

  // ----------------------------------------------------------------- make.conf

  /** The variables read so far and the global USE flags. */
  datatype Settings = Settings(vars: map<string, string>, use: seq<string>)

  predicate IsQuote(c: char) {
    c == '"' || c == '\''
  }

  /** One line of make.conf. */
  function MakeLine(c: Settings, raw: string): Settings {
    var line := TrimSpace(raw);
    if Skipped(line) then c
    else
      match Cut(line, "=")
      case None => c
      case Some((left, right)) =>
        var key := TrimSpace(left);
        var value := TrimBy(TrimSpace(right), IsQuote);
        Settings(c.vars[key := value], if key == "USE" then Fields(value) else c.use)
  }

  function MakeLines(start: Settings, lines: seq<string>): Settings {
    if |lines| == 0 then start else MakeLine(MakeLines(start, lines[..|lines| - 1]), lines[|lines| - 1])
  }

  const NO_SETTINGS := Settings(map[], [])

  /** readMakeConf, into an empty configuration. */
  method ReadMakeConf(data: string) returns (c: Settings)
    ensures c == MakeLines(NO_SETTINGS, Split(data, "\n"))
  {
    var lines := Split(data, "\n");
    c := NO_SETTINGS;
    for i := 0 to |lines|
      invariant c == MakeLines(NO_SETTINGS, lines[..i])
    {
      assert lines[..i + 1][..i] == lines[..i];
      c := MakeLine(c, lines[i]);
    }
    assert lines[..|lines|] == lines;
  }

  ghost predicate GoodSetting(key: string, value: string) {
    && OneLine(key) && '=' !in key && Trimmed(key) && !("#" <= key)
    && OneLine(value) && Clean(value, IsQuote)
  }

  ghost predicate GoodSettings(vars: map<string, string>) {
    forall key :: key in vars ==> GoodSetting(key, vars[key])
  }

  lemma CutParts(s: string)
    requires Cut(s, "=").Some?
    ensures var (left, right) := Cut(s, "=").value;
            s == left + "=" + right && '=' !in left
  {
    var i := IndexOf(s, "=");
    assert s[i..i + 1] == "=";
    forall k | 0 <= k < i ensures s[k] != '=' {
      assert !OccursAt(s, "=", k);
      assert s[k..k + 1] == [s[k]];
    }
  }

  lemma CutAt(left: string, right: string)
    requires '=' !in left
    ensures Cut(left + "=" + right, "=") == Some((left, right))
  {
    var s := left + "=" + right;
    assert s[|left|..|left| + 1] == "=";
    forall k | 0 <= k < |left| ensures !OccursAt(s, "=", k) {
      assert s[k] == left[k];
      assert s[k..k + 1] == [s[k]];
    }
    IndexOfIs(s, "=", |left|);
    assert s[..|left|] == left && s[|left| + 1..] == right;
  }

  /** The key in front of the first equals sign of a trimmed line. */
  lemma ReadKeyIsGood(line: string, left: string, right: string)
    requires OneLine(line) && Trimmed(line) && !Skipped(line) && line == left + "=" + right && '=' !in left
    ensures OneLine(TrimSpace(left)) && '=' !in TrimSpace(left) && Trimmed(TrimSpace(left)) && !("#" <= TrimSpace(left))
  {
    var lo, hi := TrimPart(left, IsSpace);
    assert forall k :: 0 <= k < |left| ==> left[k] == line[k];
    assert "#" == ['#'];
    assert left != "" ==> left[0] == line[0];
  }

  lemma ReadValueIsGood(line: string, left: string, right: string)
    requires OneLine(line) && line == left + "=" + right
    ensures OneLine(TrimBy(TrimSpace(right), IsQuote)) && Clean(TrimBy(TrimSpace(right), IsQuote), IsQuote)
  {
    assert forall k :: 0 <= k < |right| ==> right[k] == line[|left| + 1 + k];
    TrimIsOneLine(right, IsSpace);
    TrimIsOneLine(TrimSpace(right), IsQuote);
    var lo, hi := TrimPart(TrimSpace(right), IsQuote);
  }

  lemma MakeLineGood(c: Settings, raw: string)
    requires GoodSettings(c.vars) && OneLine(raw)
    ensures GoodSettings(MakeLine(c, raw).vars)
  {
    var line := TrimSpace(raw);
    var lo, hi := TrimPart(raw, IsSpace);
    TrimIsOneLine(raw, IsSpace);
    if !Skipped(line) && Cut(line, "=").Some? {
      CutParts(line);
      var (left, right) := Cut(line, "=").value;
      ReadKeyIsGood(line, left, right);
      ReadValueIsGood(line, left, right);
    }
  }

  /** Whatever the file says, every setting read is one that printing keeps. */
  lemma {:induction false} ReadSettingsAreGood(lines: seq<string>)
    requires OneLines(lines)
    ensures GoodSettings(MakeLines(NO_SETTINGS, lines).vars)
  {
    if |lines| > 0 {
      var n := |lines| - 1;
      ReadSettingsAreGood(lines[..n]);
      MakeLineGood(MakeLines(NO_SETTINGS, lines[..n]), lines[n]);
    }
  }

  function MakeText(key: string, value: string): string {
    key + "=" + ("\"" + value + "\"")
  }

  function MakeTexts(keys: seq<string>, vars: map<string, string>): (r: seq<string>)
    requires forall k :: 0 <= k < |keys| ==> keys[k] in vars
    ensures |r| == |keys| && forall k :: 0 <= k < |r| ==> r[k] == MakeText(keys[k], vars[keys[k]])
  {
    seq(|keys|, k requires 0 <= k < |keys| => MakeText(keys[k], vars[keys[k]]))
  }

  const HEADER_1 := "# Appended by "
  const HEADER_2 := "portage-engine "
  const HEADER_3 := "(user make.conf "
  const HEADER_4 := "overrides)"
  const MAKE_HEADER := HEADER_1 + (HEADER_2 + (HEADER_3 + HEADER_4))

  method RenderLines(header: string, keys: seq<string>, vars: map<string, string>) returns (lines: seq<string>)
    requires forall k :: 0 <= k < |keys| ==> keys[k] in vars
    ensures lines == [header] + MakeTexts(keys, vars)
  {
    lines := [header];
    for i := 0 to |keys|
      invariant lines == [header] + MakeTexts(keys[..i], vars)
    {
      assert MakeTexts(keys[..i + 1], vars) == MakeTexts(keys[..i], vars) + [MakeText(keys[i], vars[keys[i]])];
      lines := lines + [MakeText(keys[i], vars[keys[i]])];
    }
    assert keys[..|keys|] == keys;
  }

  ghost function KeyOrder(vars: map<string, string>): (keys: seq<string>)
    ensures Elements(keys) == vars.Keys && forall k :: 0 <= k < |keys| ==> keys[k] in vars
  {
    ListingElements(Less, vars.Keys);
    assert forall k :: 0 <= k < |Listing(Less, vars.Keys)| ==> Listing(Less, vars.Keys)[k] in Elements(Listing(Less,
           vars.Keys));
    Listing(Less, vars.Keys)
  }

  /** renderMakeConf: a comment, then the settings in key order. */
  method RenderMakeConf(vars: map<string, string>) returns (text: string)
    ensures text == Join([MAKE_HEADER] + MakeTexts(KeyOrder(vars), vars), "\n") + "\n"
  {
    var sorted := SortedKeys(vars.Keys);
    var lines := RenderLines(MAKE_HEADER, sorted, vars);
    text := Join(lines, "\n") + "\n";
  }

  function Overridden(c: Settings, key: string, value: string): Settings {
    Settings(c.vars[key := value], if key == "USE" then Fields(value) else c.use)
  }

  lemma QuotedTrims(value: string)
    requires Clean(value, IsQuote)
    ensures TrimBy(TrimSpace("\"" + value + "\""), IsQuote) == value
  {
    var quoted := "\"" + value + "\"";
    TrimmedStays(quoted);
    if value != "" {
      TrimCore("\"", value, "\"", IsQuote);
    } else {
      assert quoted == "\"\"";
      assert quoted[1..] == "\"" && "\""[1..] == "";
    }
  }

  /** A good setting survives its line. */
  lemma MakeLineReads(c: Settings, key: string, value: string)
    requires GoodSetting(key, value)
    ensures MakeLine(c, MakeText(key, value)) == Overridden(c, key, value) && OneLine(MakeText(key, value))
  {
    var line := MakeText(key, value);
    assert line[|line| - 1] == '"';
    assert line[0] == if key == "" then '=' else key[0];
    TrimmedStays(line);
    assert "#" == ['#'];
    CutAt(key, "\"" + value + "\"");
    TrimmedStays(key);
    QuotedTrims(value);
  }

  function OverriddenBy(c: Settings, keys: seq<string>, vars: map<string, string>): Settings
    requires forall k :: 0 <= k < |keys| ==> keys[k] in vars
  {
    if |keys| == 0 then c
    else Overridden(OverriddenBy(c, keys[..|keys| - 1], vars), keys[|keys| - 1], vars[keys[|keys| - 1]])
  }

  lemma {:induction false} OverriddenVars(c: Settings, keys: seq<string>, vars: map<string, string>)
    requires forall k :: 0 <= k < |keys| ==> keys[k] in vars
    ensures OverriddenBy(c, keys, vars).vars.Keys == c.vars.Keys + Elements(keys)
    ensures forall a :: a in OverriddenBy(c, keys, vars).vars ==>
              OverriddenBy(c, keys, vars).vars[a] == if a in keys then vars[a] else c.vars[a]
  {
    var n := |keys| - 1;
    if n >= 0 {
      OverriddenVars(c, keys[..n], vars);
      assert keys == keys[..n] + [keys[n]];
    }
  }

  lemma {:induction false} OverriddenUse(c: Settings, keys: seq<string>, vars: map<string, string>)
    requires forall k :: 0 <= k < |keys| ==> keys[k] in vars
    ensures OverriddenBy(c, keys, vars).use == if "USE" in keys then Fields(vars["USE"]) else c.use
  {
    var n := |keys| - 1;
    if n >= 0 {
      OverriddenUse(c, keys[..n], vars);
      assert keys == keys[..n] + [keys[n]];
    }
  }

  /** The old settings overridden by exactly the new ones. */
  ghost function Combined(c: Settings, vars: map<string, string>): Settings {
    Settings(c.vars + vars, if "USE" in vars then Fields(vars["USE"]) else c.use)
  }

  lemma OverriddenIsCombined(c: Settings, keys: seq<string>, vars: map<string, string>)
    requires Elements(keys) == vars.Keys && forall k :: 0 <= k < |keys| ==> keys[k] in vars
    ensures OverriddenBy(c, keys, vars) == Combined(c, vars)
  {
    OverriddenVars(c, keys, vars);
    OverriddenUse(c, keys, vars);
    assert forall a :: a in keys <==> a in Elements(keys);
    assert OverriddenBy(c, keys, vars).vars == c.vars + vars;
  }

  lemma {:induction false} MakeTextsRead(c: Settings, texts: seq<string>, keys: seq<string>, vars: map<string, string>)
    requires GoodSettings(vars) && |texts| == |keys| && forall k :: 0 <= k < |keys| ==> keys[k] in vars
    requires forall k :: 0 <= k < |keys| ==> texts[k] == MakeText(keys[k], vars[keys[k]])
    ensures MakeLines(c, texts) == OverriddenBy(c, keys, vars) && OneLines(texts)
  {
    if |keys| > 0 {
      var n := |keys| - 1;
      MakeTextsRead(c, texts[..n], keys[..n], vars);
      assert GoodSetting(keys[n], vars[keys[n]]);
      MakeLineReads(OverriddenBy(c, keys[..n], vars), keys[n], vars[keys[n]]);
    }
  }

  lemma MakeLinesSnoc(c: Settings, lines: seq<string>, text: string)
    ensures MakeLines(c, lines + [text]) == MakeLine(MakeLines(c, lines), text)
  {
    assert (lines + [text])[..|lines|] == lines;
  }

  lemma {:induction false} MakeLinesConcat(c: Settings, a: seq<string>, b: seq<string>)
    ensures MakeLines(c, a + b) == MakeLines(MakeLines(c, a), b)
    decreases |b|
  {
    if |b| == 0 {
      assert a + b == a;
    } else {
      var n := |b| - 1;
      MakeLinesConcat(c, a, b[..n]);
      MakeLinesSnoc(c, a + b[..n], b[n]);
      assert a + b == a + b[..n] + [b[n]];
    }
  }

  lemma HeaderSkipped(c: Settings, header: string)
    requires "#" <= header && Trimmed(header)
    ensures MakeLine(c, header) == c && MakeLine(c, "") == c
  {
    TrimmedStays(header);
    EmptyLineSkipped();
  }

  /** Reading a fragment on top of settings already read. */
  lemma FragmentReads(c: Settings, header: string, keys: seq<string>, vars: map<string, string>)
    requires "#" <= header && Trimmed(header) && GoodSettings(vars)
    requires Elements(keys) == vars.Keys && forall k :: 0 <= k < |keys| ==> keys[k] in vars
    ensures MakeLines(c, [header] + MakeTexts(keys, vars) + [""]) == Combined(c, vars)
  {
    var texts := MakeTexts(keys, vars);
    HeaderSkipped(c, header);
    assert [header][..0] == [];
    MakeLinesConcat(c, [header], texts);
    MakeTextsRead(c, texts, keys, vars);
    OverriddenIsCombined(c, keys, vars);
    HeaderSkipped(Combined(c, vars), header);
    assert ([header] + texts + [""])[..1 + |texts|] == [header] + texts;
  }

  lemma AppendedLines(existing: string, lines: seq<string>)
    requires |lines| >= 1 && OneLines(lines)
    ensures Split(existing + ("\n" + (Join(lines, "\n") + "\n")), "\n") == Split(existing, "\n") + (lines + [""])
  {
    var body := Join(lines, "\n") + "\n";
    JoinSnoc(lines, "", "\n");
    assert body + "" == body;
    SplitIsOneLines(existing);
    JoinSplit(existing, "\n");
    SplitTwo(Split(existing, "\n"), lines + [""], existing, body);
  }

  lemma SplitJoined(pieces: seq<string>, text: string)
    requires |pieces| >= 1 && OneLines(pieces) && text == Join(pieces, "\n")
    ensures Split(text, "\n") == pieces
  {
    SplitJoinChar(pieces, '\n');
  }

  lemma JoinTwo(a: seq<string>, b: seq<string>, first: string, second: string)
    requires |a| >= 1 && |b| >= 1 && first == Join(a, "\n") && second == Join(b, "\n")
    ensures Join(a + b, "\n") == first + ("\n" + second)
  {
    JoinConcat(a, b, "\n");
    Associative(first, "\n", second);
  }

  lemma Associative(a: string, b: string, c: string)
    ensures a + b + c == a + (b + c)
  {
  }

  lemma SplitTwo(a: seq<string>, b: seq<string>, first: string, second: string)
    requires |a| >= 1 && |b| >= 1 && OneLines(a) && OneLines(b) && first == Join(a, "\n") && second == Join(b, "\n")
    ensures Split(first + ("\n" + second), "\n") == a + b
  {
    JoinTwo(a, b, first, second);
    SplitJoined(a + b, first + ("\n" + second));
  }

  /** The text writeMakeConf leaves: the old file, a line break and the fragment. */
  function AppendedMakeConf(existing: string, header: string, keys: seq<string>, vars: map<string, string>): string
    requires forall k :: 0 <= k < |keys| ==> keys[k] in vars
  {
    existing + ("\n" + (Join([header] + MakeTexts(keys, vars), "\n") + "\n"))
  }

  lemma AppendedReads(existing: string, header: string, keys: seq<string>, vars: map<string, string>)
    requires "#" <= header && Trimmed(header) && OneLine(header) && GoodSettings(vars)
    requires Elements(keys) == vars.Keys && forall k :: 0 <= k < |keys| ==> keys[k] in vars
    ensures MakeLines(NO_SETTINGS, Split(AppendedMakeConf(existing, header, keys, vars), "\n"))
         == Combined(MakeLines(NO_SETTINGS, Split(existing, "\n")), vars)
  {
    var c := MakeLines(NO_SETTINGS, Split(existing, "\n"));
    MakeTextsRead(c, MakeTexts(keys, vars), keys, vars);
    AppendedLines(existing, [header] + MakeTexts(keys, vars));
    MakeLinesConcat(NO_SETTINGS, Split(existing, "\n"), [header] + MakeTexts(keys, vars) + [""]);
    FragmentReads(c, header, keys, vars);
  }

  lemma HeaderPieces()
    ensures HEADER_1[0] == '#' && HEADER_4[|HEADER_4| - 1] == ')'
    ensures OneLine(HEADER_1) && OneLine(HEADER_2) && OneLine(HEADER_3) && OneLine(HEADER_4)
  {
  }

  lemma HeaderIsComment()
    ensures "#" <= MAKE_HEADER && Trimmed(MAKE_HEADER) && OneLine(MAKE_HEADER)
  {
    HeaderPieces();
    assert "#" == ['#'];
    assert MAKE_HEADER[0] == HEADER_1[0] && MAKE_HEADER[|MAKE_HEADER| - 1] == HEADER_4[|HEADER_4| - 1];
  }

  /** Appending the rendered settings to any make.conf reads back as the old settings overridden by exactly the new
      ones, if and only if every new setting is a trimmed one-line key without an equals sign that does not start a
      comment, and a one-line value without quotes at its ends. */
  lemma MakeConfRoundTrip(existing: string, keys: seq<string>, vars: map<string, string>)
    requires Elements(keys) == vars.Keys && forall k :: 0 <= k < |keys| ==> keys[k] in vars
    ensures MakeLines(NO_SETTINGS, Split(AppendedMakeConf(existing, MAKE_HEADER, keys, vars), "\n"))
         == Combined(MakeLines(NO_SETTINGS, Split(existing, "\n")), vars)
         <==> GoodSettings(vars)
  {
    var c := MakeLines(NO_SETTINGS, Split(existing, "\n"));
    var text := AppendedMakeConf(existing, MAKE_HEADER, keys, vars);
    SplitIsOneLines(text);
    ReadSettingsAreGood(Split(text, "\n"));
    assert forall k :: k in vars ==> k in Combined(c, vars).vars && Combined(c, vars).vars[k] == vars[k];
    if GoodSettings(vars) {
      HeaderIsComment();
      AppendedReads(existing, MAKE_HEADER, keys, vars);
    }
  }

  // ---------------------------------------------------------------- repos.conf

  datatype Repo = Repo(name: string, location: string, syncType: string, syncUri: string, priority: int)

  /** The repositories finished so far and the one being read. */
  datatype Reading = Reading(done: seq<Repo>, current: Option<Repo>)

  predicate IsBracket(c: char) {
    c == '[' || c == ']'
  }

  predicate IsHeader(line: string) {
    line != "" && line[0] == '[' && line[|line| - 1] == ']'
  }

  predicate NumberChar(s: string, k: nat)
    requires k < |s|
  {
    IsDigit(s[k]) || (k == 0 && (s[k] == '-' || s[k] == '+'))
  }

  function NumberEnd(s: string, i: nat): (k: nat)
    requires i <= |s|
    ensures i <= k <= |s| && (k < |s| ==> !NumberChar(s, k))
    decreases |s| - i
  {
    if i < |s| && NumberChar(s, i) then NumberEnd(s, i + 1) else i
  }

  /** fmt.Sscanf with %d: the leading number, if there is one that fits. */
  function ScanInt(s: string): Option<int> {
    ParseInt(s[..NumberEnd(s, 0)])
  }

  const LOCATION := "location"
  const SYNC_TYPE := "sync-type"
  const SYNC_URI := "sync-uri"
  const PRIORITY := "priority"

  /** setRepoConfigField. */
  function SetField(repo: Repo, key: string, value: string): Repo {
    if key == LOCATION then repo.(location := value)
    else if key == SYNC_TYPE then repo.(syncType := value)
    else if key == SYNC_URI then repo.(syncUri := value)
    else if key == PRIORITY then (if ScanInt(value).Some? then repo.(priority := ScanInt(value).value) else repo)
    else repo
  }

  function Finished(r: Reading): seq<Repo> {
    if r.current.Some? then r.done + [r.current.value] else r.done
  }

  /** One line of a repository file. */
  function RepoLine(r: Reading, raw: string): Reading {
    var line := TrimSpace(raw);
    if Skipped(line) then r
    else if IsHeader(line) then Reading(Finished(r), Some(Repo(TrimBy(line, IsBracket), "", "", "", 0)))
    else if r.current.None? then r
    else
      match Cut(line, "=")
      case None => r
      case Some((left, right)) => r.(current := Some(SetField(r.current.value, TrimSpace(left), TrimSpace(right))))
  }

  function RepoLines(lines: seq<string>): Reading {
    if |lines| == 0 then Reading([], None) else RepoLine(RepoLines(lines[..|lines| - 1]), lines[|lines| - 1])
  }

  /** parseRepoConfFile, into an empty configuration. */
  method ParseRepoConf(data: string) returns (repos: seq<Repo>)
    ensures repos == Finished(RepoLines(Split(data, "\n")))
  {
    var lines := Split(data, "\n");
    var r := Reading([], None);
    for i := 0 to |lines|
      invariant r == RepoLines(lines[..i])
    {
      assert lines[..i + 1][..i] == lines[..i];
      r := RepoLine(r, lines[i]);
    }
    assert lines[..|lines|] == lines;
    return Finished(r);
  }

  predicate GoodValue(value: string) {
    OneLine(value) && Trimmed(value)
  }

  predicate GoodRepo(repo: Repo) {
    && OneLine(repo.name) && Clean(repo.name, IsBracket)
    && GoodValue(repo.location) && GoodValue(repo.syncType) && GoodValue(repo.syncUri)
    && MIN_INT64 <= repo.priority <= MAX_INT64
  }

  predicate GoodReading(r: Reading) {
    (forall k :: 0 <= k < |r.done| ==> GoodRepo(r.done[k])) && (r.current.Some? ==> GoodRepo(r.current.value))
  }

  lemma ReadFieldIsGood(line: string, left: string, right: string)
    requires OneLine(line) && line == left + "=" + right
    ensures GoodValue(TrimSpace(right))
  {
    assert forall k :: 0 <= k < |right| ==> right[k] == line[|left| + 1 + k];
    TrimIsOneLine(right, IsSpace);
    var lo, hi := TrimPart(right, IsSpace);
  }

  lemma SetFieldGood(repo: Repo, key: string, value: string)
    requires GoodRepo(repo) && GoodValue(value)
    ensures GoodRepo(SetField(repo, key, value))
  {
  }

  lemma RepoLineGood(r: Reading, raw: string)
    requires GoodReading(r) && OneLine(raw)
    ensures GoodReading(RepoLine(r, raw))
  {
    var line := TrimSpace(raw);
    TrimIsOneLine(raw, IsSpace);
    if !Skipped(line) {
      if IsHeader(line) {
        TrimIsOneLine(line, IsBracket);
        var lo, hi := TrimPart(line, IsBracket);
      } else if r.current.Some? && Cut(line, "=").Some? {
        CutParts(line);
        var (left, right) := Cut(line, "=").value;
        ReadFieldIsGood(line, left, right);
        SetFieldGood(r.current.value, TrimSpace(left), TrimSpace(right));
      }
    }
  }

  /** Whatever the file says, every repository read is one that printing keeps. */
  lemma {:induction false} ReadReposAreGood(lines: seq<string>)
    requires OneLines(lines)
    ensures GoodReading(RepoLines(lines))
  {
    if |lines| > 0 {
      ReadReposAreGood(lines[..|lines| - 1]);
      RepoLineGood(RepoLines(lines[..|lines| - 1]), lines[|lines| - 1]);
    }
  }

  function FieldText(key: string, value: string): string {
    key + " = " + value
  }

  function FieldTexts(key: string, value: string): seq<string> {
    if value == "" then [] else [FieldText(key, value)]
  }

  /** The lines writeReposConf prints for one repository. */
  function RepoTexts(repo: Repo): seq<string> {
    ["[" + repo.name + "]"] + FieldTexts(LOCATION, repo.location) + FieldTexts(SYNC_TYPE, repo.syncType)
    + FieldTexts(SYNC_URI, repo.syncUri)
    + FieldTexts(PRIORITY, if repo.priority == 0 then "" else SignedDecimal(repo.priority))
  }

  predicate PlainKey(key: string) {
    key != "" && Trimmed(key) && '=' !in key && key[0] != '#' && key[0] != '[' && OneLine(key)
  }

  lemma FieldLineTrimmed(key: string, value: string)
    requires PlainKey(key) && value != "" && GoodValue(value)
    ensures var line := FieldText(key, value);
            TrimSpace(line) == line && !Skipped(line) && !IsHeader(line) && OneLine(line)
  {
    var line := FieldText(key, value);
    assert line[0] == key[0] && line[|line| - 1] == value[|value| - 1];
    TrimmedStays(line);
    assert "#" == ['#'];
  }

  lemma FieldLineCut(key: string, value: string)
    requires PlainKey(key)
    ensures Cut(FieldText(key, value), "=") == Some((key + " ", " " + value))
  {
    assert FieldText(key, value) == (key + " ") + "=" + (" " + value);
    CutAt(key + " ", " " + value);
  }

  lemma FieldLineParts(key: string, value: string)
    requires PlainKey(key) && value != "" && GoodValue(value)
    ensures TrimSpace(key + " ") == key && TrimSpace(" " + value) == value
  {
    TrimCore("", key, " ", IsSpace);
    assert "" + key + " " == key + " ";
    TrimCore(" ", value, "", IsSpace);
    assert " " + value + "" == " " + value;
  }

  /** A printed field reaches SetField with its own key and value. */
  lemma FieldReads(done: seq<Repo>, repo: Repo, key: string, value: string)
    requires PlainKey(key) && value != "" && GoodValue(value)
    ensures RepoLine(Reading(done, Some(repo)), FieldText(key, value)) == Reading(done, Some(SetField(repo, key,
            value)))
    ensures OneLine(FieldText(key, value))
  {
    FieldLineTrimmed(key, value);
    FieldLineCut(key, value);
    FieldLineParts(key, value);
  }

  lemma HeaderReads(name: string)
    requires OneLine(name) && Clean(name, IsBracket)
    ensures RepoLine(Reading([], None), "[" + name + "]") == Reading([], Some(Repo(name, "", "", "", 0)))
    ensures OneLine("[" + name + "]")
  {
    var line := "[" + name + "]";
    TrimmedStays(line);
    assert "#" == ['#'];
    if name != "" {
      TrimCore("[", name, "]", IsBracket);
    } else {
      var rest := line[1..];
      assert rest == "]" && rest[1..] == "";
      assert TrimBy(rest, IsBracket) == TrimBy("", IsBracket) == "";
    }
  }

  lemma {:induction false} NumberEndIs(s: string, i: nat)
    requires i <= |s| && forall k :: i <= k < |s| ==> NumberChar(s, k)
    ensures NumberEnd(s, i) == |s|
    decreases |s| - i
  {
    if i < |s| {
      NumberEndIs(s, i + 1);
    }
  }

  lemma PriorityReads(z: int)
    requires MIN_INT64 <= z <= MAX_INT64
    ensures ScanInt(SignedDecimal(z)) == Some(z) && GoodValue(SignedDecimal(z))
  {
    var s := SignedDecimal(z);
    var digits := if z < 0 then Decimal(0 - z) else Decimal(z);
    assert forall k :: 0 <= k < |digits| ==> digits[k] in digits;
    forall k | 0 <= k < |s| ensures NumberChar(s, k) && s[k] in s {
      assert z < 0 && k > 0 ==> s[k] == digits[k - 1];
    }
    NumberEndIs(s, 0);
    assert s[..|s|] == s;
    ParsePrinted(z);
    assert s[0] in s && s[|s| - 1] in s;
  }

  lemma RepoLinesSnoc(lines: seq<string>, more: seq<string>)
    requires |more| <= 1
    ensures RepoLines(lines + more) == if more == [] then RepoLines(lines) else RepoLine(RepoLines(lines), more[0])
  {
    if more == [] {
      assert lines + more == lines;
    } else {
      assert (lines + more)[..|lines|] == lines;
    }
  }

  /** One optional field after the lines already read. */
  lemma OptionalReads(lines: seq<string>, repo: Repo, key: string, value: string)
    requires OneLines(lines) && RepoLines(lines) == Reading([], Some(repo)) && PlainKey(key) && GoodValue(value)
    ensures OneLines(lines + FieldTexts(key, value))
    ensures RepoLines(lines + FieldTexts(key, value))
         == Reading([], Some(if value == "" then repo else SetField(repo, key, value)))
  {
    RepoLinesSnoc(lines, FieldTexts(key, value));
    if value != "" {
      FieldReads([], repo, key, value);
    }
  }

  lemma KeysArePlain()
    ensures PlainKey(LOCATION) && PlainKey(SYNC_TYPE) && PlainKey(SYNC_URI) && PlainKey(PRIORITY)
  {
  }

  lemma KeysDiffer()
    ensures LOCATION != SYNC_TYPE && LOCATION != SYNC_URI && LOCATION != PRIORITY
    ensures SYNC_TYPE != SYNC_URI && SYNC_TYPE != PRIORITY && SYNC_URI != PRIORITY
  {
    assert LOCATION[0] == 'l' && SYNC_TYPE[0] == 's' && SYNC_URI[0] == 's' && PRIORITY[0] == 'p';
    assert |SYNC_TYPE| == 9 && |SYNC_URI| == 8;
  }

  lemma SetFieldIs(repo: Repo, value: string)
    ensures SetField(repo, LOCATION, value) == repo.(location := value)
    ensures SetField(repo, SYNC_TYPE, value) == repo.(syncType := value)
    ensures SetField(repo, SYNC_URI, value) == repo.(syncUri := value)
    ensures SetField(repo, PRIORITY, value)
         == if ScanInt(value).Some? then repo.(priority := ScanInt(value).value) else repo
  {
    KeysDiffer();
  }

  lemma LocationReads(repo: Repo)
    requires GoodRepo(repo)
    ensures var lines := ["[" + repo.name + "]"] + FieldTexts(LOCATION, repo.location);
            RepoLines(lines) == Reading([], Some(Repo(repo.name, repo.location, "", "", 0))) && OneLines(lines)
  {
    var lines := ["[" + repo.name + "]"];
    var r := Repo(repo.name, "", "", "", 0);
    HeaderReads(repo.name);
    assert lines[..0] == [];
    KeysArePlain();
    OptionalReads(lines, r, LOCATION, repo.location);
    SetFieldIs(r, repo.location);
  }

  lemma SyncReads(lines: seq<string>, repo: Repo)
    requires GoodRepo(repo) && OneLines(lines)
    requires RepoLines(lines) == Reading([], Some(Repo(repo.name, repo.location, "", "", 0)))
    ensures var more := lines + FieldTexts(SYNC_TYPE, repo.syncType) + FieldTexts(SYNC_URI, repo.syncUri);
            RepoLines(more) == Reading([], Some(repo.(priority := 0))) && OneLines(more)
  {
    KeysArePlain();
    var r := Repo(repo.name, repo.location, "", "", 0);
    OptionalReads(lines, r, SYNC_TYPE, repo.syncType);
    SetFieldIs(r, repo.syncType);
    var next := r.(syncType := repo.syncType);
    OptionalReads(lines + FieldTexts(SYNC_TYPE, repo.syncType), next, SYNC_URI, repo.syncUri);
    SetFieldIs(next, repo.syncUri);
  }

  lemma RepoTextsRead(repo: Repo)
    requires GoodRepo(repo)
    ensures RepoLines(RepoTexts(repo)) == Reading([], Some(repo)) && OneLines(RepoTexts(repo))
  {
    var first := ["[" + repo.name + "]"] + FieldTexts(LOCATION, repo.location);
    LocationReads(repo);
    SyncReads(first, repo);
    var lines := first + FieldTexts(SYNC_TYPE, repo.syncType) + FieldTexts(SYNC_URI, repo.syncUri);
    var number := if repo.priority == 0 then "" else SignedDecimal(repo.priority);
    PriorityReads(repo.priority);
    KeysArePlain();
    OptionalReads(lines, repo.(priority := 0), PRIORITY, number);
    SetFieldIs(repo.(priority := 0), number);
    assert RepoTexts(repo) == lines + FieldTexts(PRIORITY, number);
  }

  /** A repository file reads back as exactly the repository that was printed, if and only if its name is one line
      without brackets at its ends, its fields are trimmed one-line texts and its priority is a 64-bit integer. */
  lemma RepoConfRoundTrip(repo: Repo)
    ensures Finished(RepoLines(Split(Join(RepoTexts(repo), "\n") + "\n", "\n"))) == [repo] <==> GoodRepo(repo)
  {
    var text := Join(RepoTexts(repo), "\n") + "\n";
    SplitIsOneLines(text);
    ReadReposAreGood(Split(text, "\n"));
    var read := RepoLines(Split(text, "\n"));
    assert Finished(read) == [repo] ==> GoodRepo(Finished(read)[0]);
    if GoodRepo(repo) {
      RepoTextsRead(repo);
      SplitLines(RepoTexts(repo));
      RepoLinesSnoc(RepoTexts(repo), [""]);
      EmptyLineSkipped();
    }
  }
}
