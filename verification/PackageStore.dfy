/** The package store (internal/binpkg/store.go): queries over the view, and promotion of verified
    files with rollback. */
module PackageStore {
  import opened Text
  import opened Ordering
  import opened PackagesIndex
  import opened Binhost
  import opened Versions
  import opened Promotion

  // ------------------------------------------------------------------- queries

  datatype Query = Query(name: string, version: string, arch: string, useFlags: seq<string>)

  /** useFlagsMatch: every requested flag is enabled in the package. */
  predicate FlagsMatch(have: seq<string>, want: seq<string>) {
    forall f :: f in want ==> f in have
  }

  predicate Matches(p: Package, q: Query) {
    (q.version == "" || p.version == q.version) && FlagsMatch(p.useFlags, q.useFlags)
  }

  ghost predicate Stored(view: View, p: Package) {
    exists key :: key in view && p in view[key]
  }

  /** Every package is filed under its own name and architecture. */
  ghost predicate Filed(view: View) {
    forall key, p :: key in view && p in view[key] ==> key == PackageKey(p.name, p.arch) && '|' !in p.arch
  }

  ghost predicate Candidate(view: View, q: Query, p: Package) {
    Stored(view, p) && p.name == q.name && (q.arch == "" || p.arch == q.arch)
  }

  /** Among the versions a query chooses between no text stands in for two numbers in the wrong order. */
  ghost predicate Comparable(view: View, q: Query) {
    forall a, b, c {:trigger UntrappedVersions(a.version, b.version, c.version)} ::
      Candidate(view, q, a) && Candidate(view, q, b) && Candidate(view, q, c)
      && Matches(a, q) && Matches(b, q) && Matches(c, q)
      ==> UntrappedVersions(a.version, b.version, c.version)
  }

  /** Moving a bar from the architecture to the name keeps the key. */
  lemma BarsCollide(name: string, x: string, arch: string)
    ensures PackageKey(name, x + "|" + arch) == PackageKey(name + "|" + x, arch)
  {
    assert name + "|" + (x + "|" + arch) == (name + "|" + x) + "|" + arch;
  }

  /** The first pair gives the second by moving a bar of its architecture into the name. */
  ghost predicate BarMoved(name: string, arch: string, name': string, arch': string) {
    exists x :: arch == x + "|" + arch' && name' == name + "|" + x
  }

  lemma LongerNameMovesBar(name: string, arch: string, name': string, arch': string)
    requires PackageKey(name, arch) == PackageKey(name', arch') && |name| < |name'|
    ensures BarMoved(name, arch, name', arch')
  {
    var key := PackageKey(name, arch);
    var n, m := |name|, |name'|;
    assert key[..n] == name && key[n] == '|' && key[n + 1..] == arch;
    assert PackageKey(name', arch')[..m] == name' && PackageKey(name', arch')[m + 1..] == arch';
    assert key[m] == '|';
    var x := key[n + 1..m];
    assert name' == name + "|" + x;
    assert arch == x + "|" + arch';
  }

  /** All the pairs that share one key: equal ones, and those that differ by moving a bar. */
  lemma KeysCollideExactly(name: string, arch: string, name': string, arch': string)
    ensures PackageKey(name, arch) == PackageKey(name', arch') <==>
              (name == name' && arch == arch') || BarMoved(name, arch, name', arch')
                  || BarMoved(name', arch', name, arch)
  {
    if BarMoved(name, arch, name', arch') {
      var x :| arch == x + "|" + arch' && name' == name + "|" + x;
      BarsCollide(name, x, arch');
    }
    if BarMoved(name', arch', name, arch) {
      var x :| arch' == x + "|" + arch && name == name' + "|" + x;
      BarsCollide(name', x, arch);
    }
    if PackageKey(name, arch) == PackageKey(name', arch') {
      if |name| < |name'| {
        LongerNameMovesBar(name, arch, name', arch');
      } else if |name'| < |name| {
        LongerNameMovesBar(name', arch', name, arch);
      } else {
        assert PackageKey(name, arch)[..|name|] == name && PackageKey(name', arch')[..|name|] == name';
        assert PackageKey(name, arch)[|name| + 1..] == arch && PackageKey(name', arch')[|name| + 1..] == arch';
      }
    }
  }

  lemma SplitAtBar(s: string) returns (left: string, right: string)
    requires '|' in s
    ensures s == left + "|" + right
  {
    var k :| 0 <= k < |s| && s[k] == '|';
    left, right := s[..k], s[k + 1..];
  }

  /** Another pair shares the key through the architecture exactly when the architecture has a bar, and through the name
      exactly when the name has one. */
  lemma BarsDecide(name: string, arch: string)
    ensures '|' in arch <==> exists name', arch' :: BarMoved(name, arch, name', arch')
    ensures '|' in name <==> exists name', arch' :: BarMoved(name', arch', name, arch)
  {
    if '|' in arch {
      var x, rest := SplitAtBar(arch);
      assert BarMoved(name, arch, name + "|" + x, rest);
    }
    if '|' in name {
      var left, x := SplitAtBar(name);
      assert BarMoved(left, x + "|" + arch, name, arch);
    }
    if name', arch' :| BarMoved(name, arch, name', arch') {
      var x :| arch == x + "|" + arch' && name' == name + "|" + x;
      assert arch[|x|] == '|';
    }
    if name', arch' :| BarMoved(name', arch', name, arch) {
      var x :| arch' == x + "|" + arch && name == name' + "|" + x;
      assert name[|name'|] == '|';
    }
  }

  /** The key of a bar-free architecture is unambiguous among them. */
  lemma KeyIsUnambiguous(name: string, arch: string, name': string, arch': string)
    requires '|' !in arch && '|' !in arch' && PackageKey(name, arch) == PackageKey(name', arch')
    ensures name == name' && arch == arch'
  {
    KeysCollideExactly(name, arch, name', arch');
    BarsDecide(name, arch);
    BarsDecide(name', arch');
  }

  lemma AddFiled(view: View, found: Option<Package>)
    requires Filed(view) && (found.Some? ==> '|' !in found.value.arch)
    ensures Filed(AddToView(view, found))
  {
  }

  lemma {:induction false} LoadedIsFiled(stanzas: seq<Stanza>, arch: string)
    requires '|' !in arch && LoadStanzas(stanzas, arch).Ok?
    ensures Filed(LoadStanzas(stanzas, arch).value)
  {
    if |stanzas| > 0 {
      var n := |stanzas| - 1;
      LoadedIsFiled(stanzas[..n], arch);
      var fields := PackagesFields(stanzas[n].document).value;
      AddFiled(LoadStanzas(stanzas[..n], arch).value, PackageFromEntry(LoadedEntry(stanzas[n], fields), arch));
    }
  }

  /** Whatever index is loaded, its packages are filed under their own keys. */
  lemma LoadViewIsFiled(document: string, arch: string)
    requires '|' !in arch && LoadView(document, arch).Ok?
    ensures Filed(LoadView(document, arch).value.0)
  {
    LoadedIsFiled(ParsePackagesStanzas(document).value, arch);
  }

  lemma {:induction false} DirectViewIsFiled(entries: seq<Entry>, arch: string)
    requires '|' !in arch
    ensures Filed(DirectView(entries, arch))
  {
    if |entries| > 0 {
      var n := |entries| - 1;
      DirectViewIsFiled(entries[..n], arch);
      AddFiled(DirectView(entries[..n], arch), PackageFromEntry(entries[n], arch));
    }
  }

  /** The versions of the matching packages have no trap, so they compare transitively. */
  ghost predicate AllUntrapped(all: seq<Package>, q: Query) {
    forall a, b, c {:trigger UntrappedVersions(a.version, b.version, c.version)} ::
      a in all && b in all && c in all && Matches(a, q) && Matches(b, q) && Matches(c, q)
      ==> UntrappedVersions(a.version, b.version, c.version)
  }

  ghost predicate NoneNewer(all: seq<Package>, q: Query, best: Package) {
    forall p :: p in all && Matches(p, q) ==> !VersionLess(best.version, p.version)
  }

  lemma NewerStaysMaximal(all: seq<Package>, q: Query, best: Package, p: Package)
    requires best in all && Matches(best, q) && Matches(p, q) && AllUntrapped(all + [p], q)
    requires NoneNewer(all, q, best) && VersionLess(best.version, p.version)
    ensures NoneNewer(all + [p], q, p)
  {
    var more := all + [p];
    assert p in more && best in more;
    VersionLessIsAsymmetric(p.version, p.version);
    forall x | x in more && Matches(x, q) ensures !VersionLess(p.version, x.version) {
      if x in all && VersionLess(p.version, x.version) {
        VersionLessIsTransitive(best.version, p.version, x.version);
      }
    }
  }

  /** One candidate more: it replaces the best exactly when it matches and the best is older. */
  function Better(q: Query, best: Option<Package>, p: Package): Option<Package> {
    if Matches(p, q) && (best.None? || VersionLess(best.value.version, p.version)) then Some(p) else best
  }

  function Selected(all: seq<Package>, q: Query): Option<Package> {
    if |all| == 0 then None else Better(q, Selected(all[..|all| - 1], q), all[|all| - 1])
  }

  /** What the selection is among the candidates seen. */
  ghost predicate BestOf(seen: seq<Package>, q: Query, best: Option<Package>) {
    && (best.Some? <==> exists p :: p in seen && Matches(p, q))
    && (best.Some? ==> best.value in seen && Matches(best.value, q))
    && (best.Some? && AllUntrapped(seen, q) ==> NoneNewer(seen, q, best.value))
  }

  lemma BestStep(seen: seq<Package>, q: Query, best: Option<Package>, p: Package)
    requires BestOf(seen, q, best)
    ensures BestOf(seen + [p], q, Better(q, best, p))
  {
    var more := seen + [p];
    assert forall x :: x in more <==> x in seen || x == p;
    VersionLessIsAsymmetric(p.version, p.version);
    if best.Some? && Matches(p, q) && VersionLess(best.value.version, p.version) && AllUntrapped(more, q) {
      NewerStaysMaximal(seen, q, best.value, p);
    }
  }

  lemma {:induction false} SelectedIsBest(all: seq<Package>, q: Query)
    ensures BestOf(all, q, Selected(all, q))
  {
    if |all| > 0 {
      var n := |all| - 1;
      SelectedIsBest(all[..n], q);
      BestStep(all[..n], q, Selected(all[..n], q), all[n]);
      assert all == all[..n] + [all[n]];
    }
  }

  /** The selection loop of Query. */
  method Newest(all: seq<Package>, q: Query) returns (best: Option<Package>)
    ensures best == Selected(all, q) && BestOf(all, q, best)
  {
    best := None;
    for i := 0 to |all|
      invariant best == Selected(all[..i], q)
    {
      var p := all[i];
      assert all[..i + 1][..i] == all[..i];
      if Matches(p, q) {
        var newer := true;
        if best.Some? {
          newer := CompareVersions(best.value.version, p.version);
        }
        if newer {
          best := Some(p);
        }
      }
    }
    assert all[..|all|] == all;
    SelectedIsBest(all, q);
  }

  // ------------------------------------------------ when the selection is the newest

  ghost predicate PackagesOver(choice: Choice, all: seq<Package>, q: Query) {
    forall p :: p in all && Matches(p, q) ==> Over(choice, p.version)
  }

  /** Whatever candidates there are, in whatever order, none that matches is newer than the selected one. */
  ghost predicate AlwaysNewest(choice: Choice, q: Query) {
    forall all :: PackagesOver(choice, all, q) && Selected(all, q).Some? ==> NoneNewer(all, q, Selected(all, q).value)
  }

  function Sample(q: Query, version: string): Package {
    Package(q.name, version, q.arch, q.useFlags, "", "", map[])
  }

  /** Two numbers and then the text between them: the text is selected, and the second number is newer. */
  lemma TrapMisleads(q: Query, a: string, b: string, c: string)
    requires q.version == "" && VersionLess(a, b) && VersionLess(b, c) && !VersionLess(a, c)
    ensures var all := [Sample(q, a), Sample(q, c), Sample(q, b)];
            Selected(all, q) == Some(Sample(q, b)) && !NoneNewer(all, q, Sample(q, b))
  {
    var x, y, z := Sample(q, a), Sample(q, c), Sample(q, b);
    var all := [x, y, z];
    assert all[..2] == [x, y] && all[..2][..1] == [x] && all[..2][..1][..0] == [];
    assert Selected([x], q) == Some(x);
    assert Selected([x, y], q) == Some(x);
    assert y in all && Matches(y, q);
  }

  /** A query for any version selects a maximal one from every list of candidates over the allowed components, in every
      order, exactly when no position allows a trap. */
  lemma NewestExactly(choice: Choice, q: Query)
    requires Offers(choice) && q.version == ""
    ensures AlwaysNewest(choice, q) <==> TrapFree(choice)
  {
    if TrapFree(choice) {
      forall all | PackagesOver(choice, all, q) && Selected(all, q).Some?
        ensures NoneNewer(all, q, Selected(all, q).value)
      {
        TrapFreePackages(choice, all, q);
        SelectedIsBest(all, q);
      }
    } else {
      var i: nat, n, t, m :| n in choice(i) && t in choice(i) && m in choice(i) && Trap(n, t, m);
      TrapBreaks(choice, i, n, t, m);
      SomeNotNewest(choice, q, Ending(choice, i, n), Ending(choice, i, t), Ending(choice, i, m));
    }
  }

  lemma SomeNotNewest(choice: Choice, q: Query, a: string, b: string, c: string)
    requires q.version == "" && Over(choice, a) && Over(choice, b) && Over(choice, c)
    requires VersionLess(a, b) && VersionLess(b, c) && !VersionLess(a, c)
    ensures !AlwaysNewest(choice, q)
  {
    TrapMisleads(q, a, b, c);
    var all := [Sample(q, a), Sample(q, c), Sample(q, b)];
    forall p | p in all && Matches(p, q) ensures Over(choice, p.version) {
      assert p == all[0] || p == all[1] || p == all[2];
    }
    assert PackagesOver(choice, all, q);
  }

  lemma TrapFreePackages(choice: Choice, all: seq<Package>, q: Query)
    requires TrapFree(choice) && PackagesOver(choice, all, q)
    ensures AllUntrapped(all, q)
  {
    forall a, b, c | a in all && b in all && c in all && Matches(a, q) && Matches(b, q) && Matches(c, q)
      ensures UntrappedVersions(a.version, b.version, c.version)
    {
      TrapFreeVersions(choice, a.version, b.version, c.version);
    }
  }

  predicate ByCpv(a: Entry, b: Entry) {
    Less(a.cpv, b.cpv)
  }

  /** The entries in CPV order; entries of equal CPV may come in any order. */
  ghost predicate Arranged(scanned: seq<Entry>, entries: seq<Entry>) {
    multiset(entries) == multiset(scanned) && InOrder(ByCpv, entries)
  }

  lemma ByCpvIsStrict()
    ensures StrictOrder(ByCpv)
  {
    LessIsStrict();
  }

  /** The sort of generateIndex. */
  method SortEntries(scanned: seq<Entry>) returns (entries: seq<Entry>)
    ensures Arranged(scanned, entries)
  {
    entries := Sort(ByCpv, scanned);
    ByCpvIsStrict();
    SortPermutes(ByCpv, scanned);
  }

  class Store {
    var packages: View
    var index: string
    const tree: PackageTree
    /** The scan of a package directory into index entries. */
    const scan: Files -> seq<Entry>

    constructor (tree: PackageTree, scan: Files -> seq<Entry>)
      ensures packages == map[] && index == "" && this.tree == tree && this.scan == scan
      ensures Filed(packages)
    {
      packages, index := map[], "";
      this.tree, this.scan := tree, scan;
    }

    /** candidatesLocked, ranging over the map in whatever order. */
    method Candidates(name: string, arch: string) returns (all: seq<Package>)
      ensures forall q: Query :: q.name == name && q.arch == arch && Filed(packages) && '|' !in arch ==>
                forall p :: p in all <==> Candidate(packages, q, p)
    {
      if arch != "" {
        var key := PackageKey(name, arch);
        all := if key in packages then packages[key] else [];
        if Filed(packages) && '|' !in arch {
          CandidatesOfKey(packages, name, arch);
        }
        return;
      }
      all := [];
      var left := packages.Keys;
      while left != {}
        invariant left <= packages.Keys
        invariant Filed(packages) ==>
            forall p :: p in all <==>
                          p.name == name && exists key :: key in packages && key !in left && p in packages[key]
        decreases left
      {
        var key :| key in left;
        var list := packages[key];
        if Filed(packages) {
          ListSharesName(packages, key);
        }
        if |list| > 0 && list[0].name == name {
          all := all + list;
        }
        left := left - {key};
      }
    }

    /** Query: the newest package that matches, found exactly when one exists. */
    method Find(q: Query) returns (best: Option<Package>)
      ensures Filed(packages) && '|' !in q.arch ==>
                && (best.Some? <==> exists p :: Candidate(packages, q, p) && Matches(p, q))
                && (best.Some? ==> Candidate(packages, q, best.value) && Matches(best.value, q))
      ensures Filed(packages) && '|' !in q.arch && best.Some? && Comparable(packages, q) ==>
                forall p :: Candidate(packages, q, p) && Matches(p, q) ==> !VersionLess(best.value.version, p.version)
    {
      var all := Candidates(q.name, q.arch);
      best := Newest(all, q);
      if Filed(packages) && '|' !in q.arch {
        assert forall p :: p in all <==> Candidate(packages, q, p);
        assert Comparable(packages, q) ==> AllUntrapped(all, q);
      }
    }

    /** Add: replace the first package of the same version, or append. */
    method Add(p: Package)
      modifies this`packages
      ensures packages == old(packages)[PackageKey(p.name, p.arch) :=
                            Replaced(if PackageKey(p.name, p.arch) in old(packages)
                                     then old(packages)[PackageKey(p.name, p.arch)] else [], p)]
      ensures old(Filed(packages)) && '|' !in p.arch ==> Filed(packages)
    {
      var key := PackageKey(p.name, p.arch);
      var list := if key in packages then packages[key] else [];
      var i := 0;
      while i < |list|
        invariant 0 <= i <= |list| && packages == old(packages)
        invariant forall k :: 0 <= k < i ==> list[k].version != p.version
      {
        if list[i].version == p.version {
          ReplacedAt(list, p, i);
          packages := packages[key := list[i := p]];
          return;
        }
        i := i + 1;
      }
      ReplacedAppends(list, p);
      packages := packages[key := list + [p]];
    }

    /** RegenerateIndex after a scan: the text and the view are written from the same entries. */
    method RegenerateIndex(arch: string, now: int, fails: bool) returns (ok: bool)
      modifies this
      ensures ok == !fails
      ensures !ok ==> packages == old(packages) && index == old(index)
      ensures ok ==> Regenerated(arch, now)
      ensures ok && '|' !in arch ==> Filed(packages)
    {
      if fails {
        return false;
      }
      var entries := SortEntries(scan(tree.files));
      index := PrintEntries(entries, arch, now);
      packages := BuildView(entries, arch);
      if '|' !in arch {
        DirectViewIsFiled(entries, arch);
      }
      return true;
    }

    /** The index text and the view describe the files in the directory. */
    ghost predicate Regenerated(arch: string, now: int)
      reads this, tree
    {
      exists entries :: Arranged(scan(tree.files), entries)
                        && packages == DirectView(entries, arch) && index == IndexOfEntries(entries, arch, now)
    }

    /** LoadPackagesIndex: the view is replaced only when the whole document is accepted. */
    method LoadPackagesIndex(document: string, arch: string) returns (r: Result<nat, IndexError>)
      modifies this
      ensures index == old(index)
      ensures match LoadView(document, arch)
              case Err(e) => r == Err(e) && packages == old(packages)
              case Ok((view, count)) => r == Ok(count) && packages == view
      ensures r.Ok? && '|' !in arch ==> Filed(packages)
    {
      var parsed := ParsePackagesStanzas(document);
      if parsed.Err? {
        return Err(parsed.error);
      }
      var rebuilt := LoadAll(parsed.value, arch);
      if rebuilt.Err? {
        return Err(rebuilt.error);
      }
      packages := rebuilt.value;
      if '|' !in arch {
        LoadedIsFiled(parsed.value, arch);
      }
      return Ok(|parsed.value|);
    }

    /** PromoteStaged. */
    method PromoteStaged(root: string, staging: Files, rels: seq<string>, arch: string, now: int, faults: Faults)
      returns (r: Result<seq<string>, PromoteError>)
      modifies this, tree
      ensures root == "" || rels == [] ==> r == Err(NothingToPromote)
      ensures root == "" || rels == [] || CleanRels(staging, rels).Err? ==> r.Err? && tree.files == old(tree.files)
      ensures root != "" && rels != [] && CleanRels(staging, rels).Ok? ==>
                var clean := CleanRels(staging, rels).value;
                && StagedSet(staging, clean)
                && (r.Ok? <==> Promotes(old(tree.files), staging, clean, faults))
                && (r.Ok? ==> r.value == clean)
                && tree.files == AfterPromote(old(tree.files), staging, clean, faults)
      ensures r.Err? ==> packages == old(packages) && index == old(index)
      ensures r.Ok? ==> Regenerated(arch, now)
      ensures (r.Err? ==> old(Filed(packages))) && '|' !in arch ==> Filed(packages)
    {
      if root == "" || rels == [] {
        return Err(NothingToPromote);
      }
      var checked := ValidateRels(staging, rels);
      if checked.Err? {
        return Err(checked.error);
      }
      var clean := checked.value;
      CleanRelsAreStaged(staging, rels);
      ghost var base := tree.files;
      var moved, failed := tree.CopyStaged(staging, clean, faults);
      if failed {
        tree.Rollback(moved, base, staging, clean, faults);
        return Err(StepFailed(clean[|moved|]));
      }
      assert clean[..|clean|] == clean;
      var ok := RegenerateIndex(arch, now, faults.scan);
      if !ok {
        tree.Rollback(moved, base, staging, clean, faults);
        return Err(RegenerateFailed);
      }
      return Ok(clean);
    }
  }

  // ---------------------------------------------------------- supporting lemmas

  lemma CandidatesOfKey(view: View, name: string, arch: string)
    requires Filed(view) && '|' !in arch
    ensures var key := PackageKey(name, arch);
            forall p :: (key in view && p in view[key]) <==> (Stored(view, p) && p.name == name && p.arch == arch)
  {
    var key := PackageKey(name, arch);
    forall p | key in view && p in view[key] ensures Stored(view, p) && p.name == name && p.arch == arch {
      KeyIsUnambiguous(name, arch, p.name, p.arch);
    }
  }

  lemma ListSharesName(view: View, key: string)
    requires Filed(view) && key in view
    ensures forall p :: p in view[key] ==> p.name == view[key][0].name
  {
    forall p | p in view[key] ensures p.name == view[key][0].name {
      var first := view[key][0];
      assert first in view[key];
      KeyIsUnambiguous(first.name, first.arch, p.name, p.arch);
    }
  }

  /** The list after Add: the first entry of that version is replaced, or the package is appended. */
  function Replaced(list: seq<Package>, p: Package): seq<Package> {
    if |list| == 0 then [p]
    else if list[0].version == p.version then [p] + list[1..]
    else [list[0]] + Replaced(list[1..], p)
  }

  lemma {:induction false} ReplacedAt(list: seq<Package>, p: Package, i: nat)
    requires i < |list| && list[i].version == p.version && forall k :: 0 <= k < i ==> list[k].version != p.version
    ensures Replaced(list, p) == list[i := p]
    decreases |list|
  {
    if i > 0 {
      ReplacedAt(list[1..], p, i - 1);
      assert list[i := p] == [list[0]] + list[1..][i - 1 := p];
    } else {
      assert list[0 := p] == [p] + list[1..];
    }
  }

  lemma {:induction false} ReplacedAppends(list: seq<Package>, p: Package)
    requires forall k :: 0 <= k < |list| ==> list[k].version != p.version
    ensures Replaced(list, p) == list + [p]
    decreases |list|
  {
    if |list| > 0 {
      ReplacedAppends(list[1..], p);
      assert list == [list[0]] + list[1..];
    }
  }
}
