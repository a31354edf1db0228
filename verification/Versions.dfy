/** versionLess (internal/binpkg/store.go): an order on version strings that is only sometimes transitive. */
module Versions {
  import opened Text

  predicate IsVersionSeparator(c: char) {
    c == '.' || c == '-' || c == '_'
  }

  function Components(version: string): seq<string> {
    FieldsBy(version, IsVersionSeparator)
  }

  predicate Numeric(component: string) {
    ParseInt(component).Some?
  }

  /** Two components are told apart by number when both are numbers, by text otherwise. */
  predicate SameComponent(a: string, b: string) {
    if Numeric(a) && Numeric(b) then ParseInt(a) == ParseInt(b) else a == b
  }

  predicate ComponentLess(a: string, b: string) {
    if Numeric(a) && Numeric(b) then ParseInt(a).value < ParseInt(b).value else Less(a, b)
  }

  predicate ListLess(a: seq<string>, b: seq<string>) {
    if |a| == 0 || |b| == 0 then |a| < |b|
    else if !SameComponent(a[0], b[0]) then ComponentLess(a[0], b[0])
    else ListLess(a[1..], b[1..])
  }

  predicate VersionLess(a: string, b: string) {
    ListLess(Components(a), Components(b))
  }

  /** The loop of versionLess. */
  method CompareVersions(a: string, b: string) returns (less: bool)
    ensures less == VersionLess(a, b)
  {
    var left, right := Components(a), Components(b);
    var i := 0;
    while i < |left| && i < |right|
      invariant 0 <= i <= |left| && i <= |right|
      invariant VersionLess(a, b) == ListLess(left[i..], right[i..])
    {
      var x, y := ParseInt(left[i]), ParseInt(right[i]);
      if x.Some? && y.Some? {
        if x.value != y.value {
          return x.value < y.value;
        }
      } else if left[i] != right[i] {
        return Less(left[i], right[i]);
      }
      assert left[i..][1..] == left[i + 1..] && right[i..][1..] == right[i + 1..];
      i := i + 1;
    }
    return |left| < |right|;
  }

  // ----------------------------------------------------- laws of every version

  lemma ComponentAsymmetric(a: string, b: string)
    requires ComponentLess(a, b)
    ensures !ComponentLess(b, a) && !SameComponent(a, b)
  {
    LessIrreflexive(a);
    if Less(a, b) && Less(b, a) {
      LessTransitive(a, b, a);
    }
  }

  lemma {:induction false} ListIrreflexive(a: seq<string>)
    ensures !ListLess(a, a)
  {
    if |a| > 0 {
      ListIrreflexive(a[1..]);
    }
  }

  lemma {:induction false} ListAsymmetric(a: seq<string>, b: seq<string>)
    requires ListLess(a, b)
    ensures !ListLess(b, a)
    decreases |a|
  {
    if |a| > 0 && |b| > 0 {
      if SameComponent(a[0], b[0]) {
        ListAsymmetric(a[1..], b[1..]);
      } else {
        ComponentAsymmetric(a[0], b[0]);
      }
    }
  }

  /** No version is newer than itself, and no two versions are newer than each other. */
  lemma VersionLessIsAsymmetric(a: string, b: string)
    ensures !VersionLess(a, a)
    ensures !(VersionLess(a, b) && VersionLess(b, a))
  {
    ListIrreflexive(Components(a));
    if VersionLess(a, b) {
      ListAsymmetric(Components(a), Components(b));
    }
  }

  // -------------------------------------- what versions ordered neither way share

  lemma ComponentTotal(a: string, b: string)
    ensures SameComponent(a, b) || ComponentLess(a, b) || ComponentLess(b, a)
  {
    LessTotal(a, b);
  }

  lemma {:induction false} ListIncomparable(a: seq<string>, b: seq<string>)
    requires !ListLess(a, b) && !ListLess(b, a)
    ensures |a| == |b| && forall i :: 0 <= i < |a| ==> SameComponent(a[i], b[i])
    decreases |a|
  {
    if |a| > 0 && |b| > 0 {
      ComponentTotal(a[0], b[0]);
      ListIncomparable(a[1..], b[1..]);
      assert forall i :: 0 < i < |a| ==> a[i] == a[1..][i - 1] && b[i] == b[1..][i - 1];
    }
  }

  /** Versions that are not ordered have the same components, number for number. */
  lemma IncomparableVersionsAgree(a: string, b: string)
    requires !VersionLess(a, b) && !VersionLess(b, a)
    ensures var x, y := Components(a), Components(b);
            |x| == |y| && forall i :: 0 <= i < |x| ==> SameComponent(x[i], y[i])
  {
    ListIncomparable(Components(a), Components(b));
  }

  // ------------------------------------------------ when the order is transitive

  /** A text that sorts between two numbers which are not in that order as numbers. */
  predicate Trap(n: string, t: string, m: string) {
    && Numeric(n) && !Numeric(t) && Numeric(m)
    && Less(n, t) && Less(t, m) && ParseInt(n).value >= ParseInt(m).value
  }

  /** No trap, whichever of the three comes first. */
  predicate NoTrap(a: string, b: string, c: string) {
    !Trap(a, b, c) && !Trap(b, c, a) && !Trap(c, a, b)
  }

  lemma TextOrder(a: string, b: string, c: string)
    ensures Less(a, b) && Less(b, c) ==> Less(a, c)
    ensures Less(a, b) || a == b || Less(b, a)
    ensures Less(a, c) || a == c || Less(c, a)
    ensures Less(b, c) || b == c || Less(c, b)
  {
    LessTotal(a, b);
    LessTotal(a, c);
    LessTotal(b, c);
    if Less(a, b) && Less(b, c) {
      LessTransitive(a, b, c);
    }
  }

  /** Without a trap three components compare like three elements of one order. */
  lemma ComponentTransitive(a: string, b: string, c: string)
    requires NoTrap(a, b, c)
    ensures ComponentLess(a, b) && ComponentLess(b, c) ==> ComponentLess(a, c)
    ensures SameComponent(a, b) && ComponentLess(b, c) ==> ComponentLess(a, c)
    ensures ComponentLess(a, b) && SameComponent(b, c) ==> ComponentLess(a, c)
    ensures SameComponent(a, b) && SameComponent(b, c) ==> SameComponent(a, c)
  {
    TextOrder(a, b, c);
  }

  /** No trap at any position that all three have. */
  ghost predicate Untrapped(a: seq<string>, b: seq<string>, c: seq<string>) {
    forall i :: 0 <= i < |a| && i < |b| && i < |c| ==> NoTrap(a[i], b[i], c[i])
  }

  lemma TailsUntrapped(a: seq<string>, b: seq<string>, c: seq<string>)
    requires Untrapped(a, b, c) && |a| > 0 && |b| > 0 && |c| > 0
    ensures Untrapped(a[1..], b[1..], c[1..])
  {
    forall i | 0 <= i < |a| - 1 && i < |b| - 1 && i < |c| - 1 ensures NoTrap(a[1..][i], b[1..][i], c[1..][i]) {
      assert NoTrap(a[i + 1], b[i + 1], c[i + 1]);
    }
  }

  lemma {:induction false} ListTransitive(a: seq<string>, b: seq<string>, c: seq<string>)
    requires Untrapped(a, b, c) && ListLess(a, b) && ListLess(b, c)
    ensures ListLess(a, c)
    decreases |a|
  {
    if |a| > 0 {
      ComponentTransitive(a[0], b[0], c[0]);
      if SameComponent(a[0], b[0]) && SameComponent(b[0], c[0]) {
        TailsUntrapped(a, b, c);
        ListTransitive(a[1..], b[1..], c[1..]);
      } else if ComponentLess(a[0], c[0]) {
        ComponentAsymmetric(a[0], c[0]);
      }
    }
  }

  ghost predicate UntrappedVersions(a: string, b: string, c: string) {
    Untrapped(Components(a), Components(b), Components(c))
  }

  /** Versions without a trap are ordered transitively. */
  lemma VersionLessIsTransitive(a: string, b: string, c: string)
    requires UntrappedVersions(a, b, c) && VersionLess(a, b) && VersionLess(b, c)
    ensures VersionLess(a, c)
  {
    ListTransitive(Components(a), Components(b), Components(c));
  }

  // ------------------------------------------------------- exactly when it is

  /** The components that versions may have at each position. */
  type Choice = nat -> iset<string>

  ghost predicate Over(choice: Choice, version: string) {
    forall i :: 0 <= i < |Components(version)| ==> Components(version)[i] in choice(i)
  }

  /** Every position offers something, and only what a version can have there. */
  ghost predicate Offers(choice: Choice) {
    && (forall i: nat :: exists x :: x in choice(i))
    && (forall i: nat, x :: x in choice(i) ==> Word(x, IsVersionSeparator))
  }

  ghost predicate TrapFree(choice: Choice) {
    forall i: nat, n, t, m :: n in choice(i) && t in choice(i) && m in choice(i) ==> !Trap(n, t, m)
  }

  ghost predicate TransitiveOver(choice: Choice) {
    forall a, b, c :: Over(choice, a) && Over(choice, b) && Over(choice, c) && VersionLess(a, b) && VersionLess(b, c)
                      ==> VersionLess(a, c)
  }

  lemma TrapFreeVersions(choice: Choice, a: string, b: string, c: string)
    requires TrapFree(choice) && Over(choice, a) && Over(choice, b) && Over(choice, c)
    ensures UntrappedVersions(a, b, c)
  {
    var x, y, z := Components(a), Components(b), Components(c);
    forall i | 0 <= i < |x| && i < |y| && i < |z| ensures NoTrap(x[i], y[i], z[i]) {
      assert x[i] in choice(i) && y[i] in choice(i) && z[i] in choice(i);
    }
  }

  /** Some components for the positions before i. */
  ghost function Leading(choice: Choice, i: nat): (words: seq<string>)
    requires Offers(choice)
    ensures |words| == i && forall k :: 0 <= k < i ==> words[k] in choice(k)
  {
    if i == 0 then []
    else
      var x :| x in choice(i - 1);
      Leading(choice, i - 1) + [x]
  }

  /** A version with chosen components before position i and the given one there. */
  ghost function Ending(choice: Choice, i: nat, x: string): string
    requires Offers(choice)
  {
    Join(Leading(choice, i) + [x], ".")
  }

  lemma EndingComponents(choice: Choice, i: nat, x: string)
    requires Offers(choice) && x in choice(i)
    ensures Components(Ending(choice, i, x)) == Leading(choice, i) + [x] && Over(choice, Ending(choice, i, x))
  {
    var words := Leading(choice, i) + [x];
    forall k | 0 <= k < |words| ensures words[k] in choice(k) && Word(words[k], IsVersionSeparator) {
      assert words[k] in choice(k);
    }
    FieldsJoin(words, '.', IsVersionSeparator);
  }

  lemma {:induction false} SameLeading(words: seq<string>, a: seq<string>, b: seq<string>)
    ensures ListLess(words + a, words + b) == ListLess(a, b)
    decreases |words|
  {
    if words == [] {
      assert words + a == a && words + b == b;
    } else {
      SameLeading(words[1..], a, b);
      assert (words + a)[1..] == words[1..] + a && (words + b)[1..] == words[1..] + b;
    }
  }

  /** Versions that differ only at position i compare by what they have there. */
  lemma EndingsCompare(choice: Choice, i: nat, x: string, y: string)
    requires Offers(choice) && x in choice(i) && y in choice(i)
    ensures VersionLess(Ending(choice, i, x), Ending(choice, i, y)) == (!SameComponent(x, y) && ComponentLess(x, y))
  {
    EndingComponents(choice, i, x);
    EndingComponents(choice, i, y);
    SameLeading(Leading(choice, i), [x], [y]);
    assert [x][1..] == [] && [y][1..] == [];
  }

  /** A trap gives three versions, the first below the second below the third but not below the third. */
  lemma TrapBreaks(choice: Choice, i: nat, n: string, t: string, m: string)
    requires Offers(choice) && n in choice(i) && t in choice(i) && m in choice(i) && Trap(n, t, m)
    ensures var a, b, c := Ending(choice, i, n), Ending(choice, i, t), Ending(choice, i, m);
            && Over(choice, a) && Over(choice, b) && Over(choice, c)
            && VersionLess(a, b) && VersionLess(b, c) && !VersionLess(a, c)
  {
    EndingComponents(choice, i, n);
    EndingComponents(choice, i, t);
    EndingComponents(choice, i, m);
    EndingsCompare(choice, i, n, t);
    EndingsCompare(choice, i, t, m);
    EndingsCompare(choice, i, n, m);
  }

  /** Whatever components are allowed at each position, versions built from them are ordered transitively exactly when
      no
      position allows a trap. */
  lemma TransitiveExactly(choice: Choice)
    requires Offers(choice)
    ensures TransitiveOver(choice) <==> TrapFree(choice)
  {
    if TrapFree(choice) {
      forall a, b, c | Over(choice, a) && Over(choice, b) && Over(choice, c) && VersionLess(a, b) && VersionLess(b, c)
        ensures VersionLess(a, c)
      {
        TrapFreeVersions(choice, a, b, c);
        VersionLessIsTransitive(a, b, c);
      }
    } else {
      var i: nat, n, t, m :| n in choice(i) && t in choice(i) && m in choice(i) && Trap(n, t, m);
      TrapBreaks(choice, i, n, t, m);
    }
  }

  // ------------------------------------------------------- versions without traps

  /** At every position both have, both components are numbers or both are not. */
  ghost predicate AlignedVersions(a: string, b: string) {
    var x, y := Components(a), Components(b);
    forall i :: 0 <= i < |x| && i < |y| ==> Numeric(x[i]) == Numeric(y[i])
  }

  lemma AlignedIsUntrapped(a: string, b: string, c: string)
    requires AlignedVersions(a, b) && AlignedVersions(b, c)
    ensures UntrappedVersions(a, b, c)
  {
  }

  /** A number, or a text that starts after the digits, such as r1, rc2 or p3. */
  predicate Lettered(component: string) {
    Numeric(component) || (component != "" && component[0] > '9')
  }

  ghost predicate LetteredVersion(version: string) {
    forall i :: 0 <= i < |Components(version)| ==> Lettered(Components(version)[i])
  }

  lemma NumberStart(n: string)
    requires Numeric(n)
    ensures n != "" && n[0] <= '9'
  {
    var digits := if n[0] == '-' || n[0] == '+' then n[1..] else n;
    assert digits != "" && digits[0] in digits;
  }

  lemma LetteredNoTrap(n: string, t: string, m: string)
    requires Lettered(t)
    ensures !Trap(n, t, m)
  {
    if Numeric(m) {
      NumberStart(m);
    }
  }

  /** Versions whose texts start with letters are ordered transitively, revisions and suffixes included. */
  lemma LetteredIsTransitive(a: string, b: string, c: string)
    requires LetteredVersion(a) && LetteredVersion(b) && LetteredVersion(c)
    requires VersionLess(a, b) && VersionLess(b, c)
    ensures VersionLess(a, c)
  {
    var x, y, z := Components(a), Components(b), Components(c);
    forall i | 0 <= i < |x| && i < |y| && i < |z| ensures NoTrap(x[i], y[i], z[i]) {
      LetteredNoTrap(x[i], y[i], z[i]);
      LetteredNoTrap(y[i], z[i], x[i]);
      LetteredNoTrap(z[i], x[i], y[i]);
    }
    VersionLessIsTransitive(a, b, c);
  }

  /** Dotted numbers. */
  ghost predicate AllNumeric(version: string) {
    forall i :: 0 <= i < |Components(version)| ==> Numeric(Components(version)[i])
  }

  lemma AllNumericIsTransitive(a: string, b: string, c: string)
    requires AllNumeric(a) && AllNumeric(b) && AllNumeric(c) && VersionLess(a, b) && VersionLess(b, c)
    ensures VersionLess(a, c)
  {
    LetteredIsTransitive(a, b, c);
  }

  /** The lexicographic order on numbers that versionLess implements on dotted numbers. */
  predicate NumbersLess(a: seq<int>, b: seq<int>) {
    if |a| == 0 || |b| == 0 then |a| < |b|
    else if a[0] != b[0] then a[0] < b[0]
    else NumbersLess(a[1..], b[1..])
  }

  function Number(component: string): int
    requires Numeric(component)
  {
    ParseInt(component).value
  }

  function Numbers(components: seq<string>): (numbers: seq<int>)
    requires forall i :: 0 <= i < |components| ==> Numeric(components[i])
    ensures |numbers| == |components|
    ensures forall i :: 0 <= i < |numbers| ==> numbers[i] == Number(components[i])
  {
    seq(|components|, i requires 0 <= i < |components| && Numeric(components[i]) => Number(components[i]))
  }

  lemma {:induction false} NumericListLess(a: seq<string>, b: seq<string>)
    requires forall i :: 0 <= i < |a| ==> Numeric(a[i])
    requires forall i :: 0 <= i < |b| ==> Numeric(b[i])
    ensures ListLess(a, b) == NumbersLess(Numbers(a), Numbers(b))
    decreases |a|
  {
    if |a| > 0 && |b| > 0 {
      assert Numbers(a)[1..] == Numbers(a[1..]) && Numbers(b)[1..] == Numbers(b[1..]);
      NumericListLess(a[1..], b[1..]);
    }
  }

  lemma NumericVersionLess(a: string, b: string)
    requires AllNumeric(a) && AllNumeric(b)
    ensures VersionLess(a, b) == NumbersLess(Numbers(Components(a)), Numbers(Components(b)))
  {
    NumericListLess(Components(a), Components(b));
  }

  /** A trap, and the cycle it makes: 2 < 10 < 1a < 2. */
  lemma MixedVersionsCycle()
    ensures VersionLess("2", "10") && VersionLess("10", "1a") && VersionLess("1a", "2")
    ensures Trap("10", "1a", "2")
  {
    SmallNumbers();
    SingleComponent("2");
    SingleComponent("10");
    SingleComponent("1a");
    TextAfterNumber();
  }

  lemma SmallNumbers()
    ensures ParseInt("2") == Some(2) && ParseInt("10") == Some(10) && ParseInt("1a") == None
  {
    assert DigitsValue("") == 0;
    assert "2"[..0] == "" && "1"[..0] == "" && "10"[..1] == "1";
    assert DigitsValue("2") == 2;
    assert DigitsValue("1") == 1;
    assert DigitsValue("10") == 10;
    assert "1a"[1] == 'a';
    assert 'a' in "1a";
  }

  lemma TextAfterNumber()
    ensures Less("10", "1a") && Less("1a", "2")
  {
    assert "10"[1..] == "0" && "1a"[1..] == "a";
    assert Less("0", "a");
  }

  lemma SingleComponent(version: string)
    requires Word(version, IsVersionSeparator)
    ensures Components(version) == [version]
  {
    FieldsHead(version, "", IsVersionSeparator);
    assert version + "" == version;
    assert FieldsBy("", IsVersionSeparator) == [];
  }
}
