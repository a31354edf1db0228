/** The repos.conf directory (internal/builder/config_transfer.go): one file for each repository, written where
    filepath.Join puts it, and the reading of all files in name order. */
module RepoFiles {
  import opened Text
  import opened Ordering
  import opened SlashPath
  import opened ConfigTransfer

  // ------------------------------------------------------------------- file tree

  /** The directories and the file contents by clean path. */
  datatype Tree = Tree(dirs: set<string>, files: map<string, string>)

  function Under(dir: string, rest: string): string {
    if dir == "" then rest else dir + "/" + rest
  }

  /** filepath.Join of two elements, the second not empty. */
  function JoinPath(dir: string, rest: string): string {
    CleanPath(Under(dir, rest))
  }

  function Base(dir: string): string {
    JoinPath(dir, "repos.conf")
  }

  /** Where the file of a repository goes. */
  function Target(dir: string, name: string): string {
    JoinPath(dir, "repos.conf/" + (name + ".conf"))
  }

  function LastSlash(path: string): (i: nat)
    ensures i <= |path|
    ensures i > 0 ==> path[i - 1] == '/' && forall k :: i <= k < |path| ==> path[k] != '/'
    ensures i == 0 ==> '/' !in path
  {
    if path == "" then 0
    else if path[|path| - 1] == '/' then |path|
    else LastSlash(path[..|path| - 1])
  }

  function Parent(path: string): string {
    var i := LastSlash(path);
    if i == 0 then "." else if i == 1 then "/" else path[..i - 1]
  }

  /** os.WriteFile finds the directory, no directory in the way, and no NUL in the path. */
  predicate Writable(tree: Tree, path: string) {
    Parent(path) in tree.dirs && path !in tree.dirs && '\0' !in path
  }

  function RepoText(repo: Repo): string {
    Join(RepoTexts(repo), "\n") + "\n"
  }

  /** From a name to the path of its file. */
  type Placing = string -> string

  function Place(dir: string): Placing {
    name => Target(dir, name)
  }

  /** How far the writing came, and what it left. */
  datatype Outcome = Outcome(ok: bool, tree: Tree)

  function WriteNext(r: Outcome, place: Placing, repo: Repo): Outcome {
    if !r.ok || !Writable(r.tree, place(repo.name)) then r.(ok := false)
    else r.(tree := r.tree.(files := r.tree.files[place(repo.name) := RepoText(repo)]))
  }

  function Written(tree: Tree, place: Placing, repos: seq<Repo>): Outcome {
    if |repos| == 0 then Outcome(true, tree)
    else WriteNext(Written(tree, place, repos[..|repos| - 1]), place, repos[|repos| - 1])
  }

  lemma {:induction false} FailureStays(tree: Tree, place: Placing, repos: seq<Repo>, i: nat)
    requires i <= |repos| && !Written(tree, place, repos[..i]).ok
    ensures Written(tree, place, repos) == Written(tree, place, repos[..i])
    decreases |repos|
  {
    if i == |repos| {
      assert repos[..i] == repos;
    } else {
      assert repos[..|repos| - 1][..i] == repos[..i];
      FailureStays(tree, place, repos[..|repos| - 1], i);
    }
  }

  /** writeReposConf: stops at the first write that fails. */
  method WriteReposConf(tree: Tree, dir: string, repos: seq<Repo>) returns (ok: bool, after: Tree)
    ensures Outcome(ok, after) == Written(tree, Place(dir), repos)
  {
    after := tree;
    for i := 0 to |repos|
      invariant Written(tree, Place(dir), repos[..i]) == Outcome(true, after)
    {
      assert repos[..i + 1][..i] == repos[..i];
      var path := Target(dir, repos[i].name);
      if !Writable(after, path) {
        FailureStays(tree, Place(dir), repos, i + 1);
        return false, after;
      }
      after := after.(files := after.files[path := RepoText(repos[i])]);
    }
    assert repos[..|repos|] == repos;
    return true, after;
  }

  // --------------------------------------------------------------------- reading

  predicate Inside(base: string, path: string) {
    |path| > |base| && path[..|base|] == base && path[|base|] == '/' && '/' !in path[|base| + 1..]
  }

  /** The names of the files directly in a directory. */
  function Entries(tree: Tree, base: string): (names: set<string>)
    ensures forall n :: n in names <==> '/' !in n && base + "/" + n in tree.files
  {
    var names := set path | path in tree.files && Inside(base, path) :: path[|base| + 1..];
    assert forall n :: n in names ==> '/' !in n && base + "/" + n in tree.files by {
      forall n | n in names ensures '/' !in n && base + "/" + n in tree.files {
        var path :| path in tree.files && Inside(base, path) && path[|base| + 1..] == n;
        assert path == base + "/" + n;
      }
    }
    assert forall n :: '/' !in n && base + "/" + n in tree.files ==> n in names by {
      forall n | '/' !in n && base + "/" + n in tree.files ensures n in names {
        assert (base + "/" + n)[|base| + 1..] == n && Inside(base, base + "/" + n);
      }
    }
    names
  }

  /** A file the directory reader opens. */
  predicate Visible(name: string) {
    !("." <= name) && |name| >= 5 && name[|name| - 5..] == ".conf"
  }

  function ParseText(text: string): seq<Repo> {
    Finished(RepoLines(Split(text, "\n")))
  }

  /** The repositories one file of the directory gives. */
  function Yield(tree: Tree, base: string, name: string): seq<Repo> {
    if base + "/" + name in tree.files && Visible(name) then ParseText(tree.files[base + "/" + name]) else []
  }

  function ReadFiles(tree: Tree, base: string, names: seq<string>): seq<Repo> {
    if |names| == 0 then []
    else ReadFiles(tree, base, names[..|names| - 1]) + Yield(tree, base, names[|names| - 1])
  }

  /** A directory is read in name order, a file by itself, anything else gives nothing. */
  ghost function ReadRepos(tree: Tree, base: string): seq<Repo> {
    if base in tree.dirs then ReadFiles(tree, base, Listing(Less, Entries(tree, base)))
    else if base in tree.files then ParseText(tree.files[base])
    else []
  }

  /** readReposConf, into an empty configuration. */
  method ReadReposConf(tree: Tree, base: string) returns (repos: seq<Repo>)
    ensures repos == ReadRepos(tree, base)
  {
    repos := [];
    if base !in tree.dirs {
      if base in tree.files {
        repos := ParseRepoConf(tree.files[base]);
      }
      return;
    }
    var entries := Entries(tree, base);
    LessIsStrict();
    LessIsTotalOn(entries);
    var names := CollectSorted(Less, entries);
    for i := 0 to |names|
      invariant repos == ReadFiles(tree, base, names[..i])
    {
      assert names[..i + 1][..i] == names[..i];
      if base + "/" + names[i] in tree.files && Visible(names[i]) {
        var read := ParseRepoConf(tree.files[base + "/" + names[i]]);
        repos := repos + read;
      } else {
        repos := repos + [];
      }
    }
    assert names[..|names|] == names;
  }

  // ----------------------------------------------------------------- written files

  ghost predicate AllGood(repos: seq<Repo>) {
    forall k :: 0 <= k < |repos| ==> GoodRepo(repos[k])
  }

  /** No two repositories share a file. */
  ghost predicate DistinctFiles(place: Placing, repos: seq<Repo>) {
    forall i, j :: 0 <= i < j < |repos| ==> place(repos[i].name) != place(repos[j].name)
  }

  /** A directory with nothing in it. */
  ghost predicate Empty(tree: Tree, base: string) {
    base in tree.dirs && forall n :: '/' !in n ==> base + "/" + n !in tree.files && base + "/" + n !in tree.dirs
  }

  /** A path directly in the directory that the reader will open. */
  predicate Shown(base: string, path: string) {
    Inside(base, path) && Visible(path[|base| + 1..])
  }

  lemma InsideIs(base: string, name: string)
    requires '/' !in name
    ensures Inside(base, base + "/" + name) && (base + "/" + name)[|base| + 1..] == name
  {
  }

  lemma InsideSplits(base: string, path: string)
    requires Inside(base, path)
    ensures path == base + "/" + path[|base| + 1..] && '/' !in path[|base| + 1..]
  {
  }

  lemma {:induction false} WritingKeepsDirs(tree: Tree, place: Placing, repos: seq<Repo>)
    ensures Written(tree, place, repos).tree.dirs == tree.dirs
  {
    if |repos| > 0 {
      WritingKeepsDirs(tree, place, repos[..|repos| - 1]);
    }
  }

  /** A new file is the text of a repository placed there. */
  lemma {:induction false} WrittenFrom(tree: Tree, place: Placing, repos: seq<Repo>, path: string) returns (k: nat)
    requires path in Written(tree, place, repos).tree.files && path !in tree.files
    ensures k < |repos| && path == place(repos[k].name)
    ensures Written(tree, place, repos).tree.files[path] == RepoText(repos[k])
  {
    var n := |repos| - 1;
    var before := Written(tree, place, repos[..n]);
    if before.ok && Writable(before.tree, place(repos[n].name)) && path == place(repos[n].name) {
      k := n;
    } else {
      k := WrittenFrom(tree, place, repos[..n], path);
    }
  }

  /** Where every repository of a list goes. */
  ghost predicate AllShown(base: string, place: Placing, repos: seq<Repo>) {
    forall k :: 0 <= k < |repos| ==> Shown(base, place(repos[k].name)) && '\0' !in place(repos[k].name)
  }

  lemma ShownIsWritable(tree: Tree, base: string, path: string)
    requires Empty(tree, base) && Shown(base, path) && '\0' !in path
    requires base != "" && base != "/"
    ensures Writable(tree, path)
  {
    InsideSplits(base, path);
    var i := LastSlash(path);
    assert path[|base|] == '/';
    assert i == |base| + 1 by {
      assert forall k :: |base| + 1 <= k < |path| ==> path[k] == path[|base| + 1..][k - |base| - 1];
    }
    assert path[..i - 1] == base;
  }

  lemma WritableByDirs(tree: Tree, more: Tree, path: string)
    requires Writable(tree, path) && more.dirs == tree.dirs
    ensures Writable(more, path)
  {
  }

  /** Every such list is written. */
  lemma {:induction false} ShownAreWritten(tree: Tree, base: string, place: Placing, repos: seq<Repo>)
    requires Empty(tree, base) && base != "" && base != "/" && AllShown(base, place, repos)
    ensures Written(tree, place, repos).ok
  {
    if |repos| > 0 {
      var n := |repos| - 1;
      assert AllShown(base, place, repos[..n]);
      ShownAreWritten(tree, base, place, repos[..n]);
      WritingKeepsDirs(tree, place, repos[..n]);
      ShownIsWritable(tree, base, place(repos[n].name));
      WritableByDirs(tree, Written(tree, place, repos[..n]).tree, place(repos[n].name));
    }
  }

  lemma LaterKeeps(r: Outcome, place: Placing, repo: Repo, path: string)
    requires path in r.tree.files && path != place(repo.name)
    ensures path in WriteNext(r, place, repo).tree.files
    ensures WriteNext(r, place, repo).tree.files[path] == r.tree.files[path]
  {
  }

  /** A repository that shares its file with no other keeps it. */
  lemma {:induction false} WrittenOwn(tree: Tree, place: Placing, repos: seq<Repo>, k: nat)
    requires Written(tree, place, repos).ok && DistinctFiles(place, repos) && k < |repos|
    ensures place(repos[k].name) in Written(tree, place, repos).tree.files
    ensures Written(tree, place, repos).tree.files[place(repos[k].name)] == RepoText(repos[k])
  {
    var n := |repos| - 1;
    if k < n {
      var before := Written(tree, place, repos[..n]);
      WrittenOwn(tree, place, repos[..n], k);
      assert place(repos[k].name) != place(repos[n].name);
      LaterKeeps(before, place, repos[n], place(repos[k].name));
    }
  }

  // ------------------------------------------------------------------- what is read

  lemma TextIsGood(text: string)
    ensures AllGood(ParseText(text))
  {
    SplitIsOneLines(text);
    ReadReposAreGood(Split(text, "\n"));
  }

  /** Whatever the files hold, the repositories read are good. */
  lemma {:induction false} ReadIsGood(tree: Tree, base: string, names: seq<string>)
    ensures AllGood(ReadFiles(tree, base, names))
  {
    if |names| > 0 {
      var n := |names| - 1;
      ReadIsGood(tree, base, names[..n]);
      if base + "/" + names[n] in tree.files {
        TextIsGood(tree.files[base + "/" + names[n]]);
      }
    }
  }

  /** After writing good repositories into an empty directory, each of its files gives the repository placed there. */
  ghost predicate Yields(tree: Tree, base: string, place: Placing, repos: seq<Repo>, name: string) {
    exists k :: 0 <= k < |repos| && base + "/" + name == place(repos[k].name)
                && Yield(tree, base, name) == if Visible(name) then [repos[k]] else []
  }

  lemma GoodYield(before: Tree, tree: Tree, base: string, place: Placing, repos: seq<Repo>, name: string)
    requires Empty(before, base) && tree == Written(before, place, repos).tree && AllGood(repos)
    requires name in Entries(tree, base)
    ensures Yields(tree, base, place, repos, name)
  {
    var k := WrittenFrom(before, place, repos, base + "/" + name);
    RepoConfRoundTrip(repos[k]);
  }

  /** Each repository read comes from its own file, one of the names. */
  ghost predicate FromFiles(base: string, place: Placing, read: seq<Repo>, names: seq<string>) {
    && DistinctFiles(place, read)
    && forall k :: 0 <= k < |read| ==> Shown(base, place(read[k].name)) && place(read[k].name)[|base| + 1..] in names
  }

  lemma ReadNext(tree: Tree, base: string, names: seq<string>, n: nat)
    requires |names| == n + 1
    ensures ReadFiles(tree, base, names) == ReadFiles(tree, base, names[..n]) + Yield(tree, base, names[n])
    ensures Distinct(names) ==> Distinct(names[..n]) && names[n] !in names[..n]
  {
  }

  lemma FromFilesNext(base: string, place: Placing, front: seq<Repo>, names: seq<string>, repo: Repo, name: string)
    requires FromFiles(base, place, front, names) && name !in names && '/' !in name
    requires base + "/" + name == place(repo.name)
    ensures FromFiles(base, place, front + if Visible(name) then [repo] else [], names + [name])
  {
    InsideIs(base, name);
    forall i | 0 <= i < |front| ensures place(front[i].name) != place(repo.name) {
      assert place(front[i].name)[|base| + 1..] in names;
    }
  }

  lemma {:induction false} ReadFromFiles(
    tree: Tree, base: string, place: Placing, repos: seq<Repo>, names: seq<string>)
    requires Distinct(names)
    requires forall k :: 0 <= k < |names| ==> '/' !in names[k] && Yields(tree, base, place, repos, names[k])
    ensures FromFiles(base, place, ReadFiles(tree, base, names), names)
    ensures forall x :: x in ReadFiles(tree, base, names) ==> x in repos
  {
    if |names| > 0 {
      var n := |names| - 1;
      ReadNext(tree, base, names, n);
      ReadFromFiles(tree, base, place, repos, names[..n]);
      assert Yields(tree, base, place, repos, names[n]);
      var k :| 0 <= k < |repos| && base + "/" + names[n] == place(repos[k].name)
               && Yield(tree, base, names[n]) == if Visible(names[n]) then [repos[k]] else [];
      FromFilesNext(base, place, ReadFiles(tree, base, names[..n]), names[..n], repos[k], names[n]);
      assert names == names[..n] + [names[n]];
    }
  }

  lemma {:induction false} YieldIsRead(tree: Tree, base: string, names: seq<string>, at: nat, x: Repo)
    requires at < |names| && x in Yield(tree, base, names[at])
    ensures x in ReadFiles(tree, base, names)
  {
    var n := |names| - 1;
    if at < n {
      YieldIsRead(tree, base, names[..n], at, x);
    }
  }

  lemma ListedEntries(tree: Tree, base: string, names: seq<string>)
    requires names == Listing(Less, Entries(tree, base))
    ensures Distinct(names) && Elements(names) == Entries(tree, base)
    ensures forall k :: 0 <= k < |names| ==> names[k] in Entries(tree, base)
  {
    LessIsStrict();
    LessIsTotalOn(Entries(tree, base));
    ListingOrdered(Less, Entries(tree, base));
    OrderedDistinct(Less, names);
    ListingElements(Less, Entries(tree, base));
    forall k | 0 <= k < |names| ensures names[k] in Entries(tree, base) {
      assert names[k] in Elements(names);
    }
  }

  // -------------------------------------------------------------------- round trip

  lemma {:induction false} CountAtMostOne(place: Placing, repos: seq<Repo>, x: Repo)
    requires DistinctFiles(place, repos)
    ensures multiset(repos)[x] <= 1 && (multiset(repos)[x] == 1 <==> x in repos)
  {
    var n := |repos| - 1;
    if n >= 0 {
      CountAtMostOne(place, repos[..n], x);
      assert repos == repos[..n] + [repos[n]];
    }
  }

  lemma SameRepos(place: Placing, a: seq<Repo>, b: seq<Repo>)
    requires DistinctFiles(place, a) && DistinctFiles(place, b) && forall x :: x in a <==> x in b
    ensures multiset(a) == multiset(b)
  {
    forall x ensures multiset(a)[x] == multiset(b)[x] {
      CountAtMostOne(place, a, x);
      CountAtMostOne(place, b, x);
    }
  }

  lemma TwiceCounts(repos: seq<Repo>, i: nat, j: nat)
    requires i < j < |repos| && repos[i] == repos[j]
    ensures multiset(repos)[repos[i]] >= 2
  {
    assert repos == repos[..j] + [repos[j]] + repos[j + 1..];
    assert repos[i] in repos[..j];
  }

  /** Every repository is good, goes to a visible file directly in the directory, and shares it with no other. */
  ghost predicate GoodRepos(base: string, place: Placing, repos: seq<Repo>) {
    AllGood(repos) && AllShown(base, place, repos) && DistinctFiles(place, repos)
  }

  /** The writing succeeds, and reading the directory gives the repositories back up to order. */
  ghost predicate ComesBack(before: Tree, base: string, place: Placing, repos: seq<Repo>) {
    var r := Written(before, place, repos);
    r.ok && multiset(ReadRepos(r.tree, base)) == multiset(repos)
  }

  /** What good repositories leave is read file by file. */
  lemma GoodFilesRead(before: Tree, base: string, place: Placing, repos: seq<Repo>)
    requires Empty(before, base) && AllGood(repos)
    ensures var tree := Written(before, place, repos).tree; var names := Listing(Less, Entries(tree, base));
            && FromFiles(base, place, ReadFiles(tree, base, names), names)
            && forall x :: x in ReadFiles(tree, base, names) ==> x in repos
  {
    var tree := Written(before, place, repos).tree;
    var names := Listing(Less, Entries(tree, base));
    ListedEntries(tree, base, names);
    forall k | 0 <= k < |names| ensures '/' !in names[k] && Yields(tree, base, place, repos, names[k]) {
      GoodYield(before, tree, base, place, repos, names[k]);
    }
    ReadFromFiles(tree, base, place, repos, names);
  }

  lemma OwnFileRead(before: Tree, base: string, place: Placing, repos: seq<Repo>, k: nat)
    requires Empty(before, base) && base != "" && base != "/" && GoodRepos(base, place, repos) && k < |repos|
    ensures var tree := Written(before, place, repos).tree;
            repos[k] in ReadFiles(tree, base, Listing(Less, Entries(tree, base)))
  {
    var tree := Written(before, place, repos).tree;
    var names := Listing(Less, Entries(tree, base));
    ShownAreWritten(before, base, place, repos);
    WrittenOwn(before, place, repos, k);
    var path := place(repos[k].name);
    var name := path[|base| + 1..];
    InsideSplits(base, path);
    ListedEntries(tree, base, names);
    assert name in Elements(names);
    var at :| 0 <= at < |names| && names[at] == name;
    RepoConfRoundTrip(repos[k]);
    assert Yield(tree, base, name) == [repos[k]];
    YieldIsRead(tree, base, names, at, repos[k]);
  }

  lemma GoodComeBack(before: Tree, base: string, place: Placing, repos: seq<Repo>)
    requires Empty(before, base) && base != "" && base != "/" && GoodRepos(base, place, repos)
    ensures ComesBack(before, base, place, repos)
  {
    var tree := Written(before, place, repos).tree;
    var read := ReadFiles(tree, base, Listing(Less, Entries(tree, base)));
    ShownAreWritten(before, base, place, repos);
    WritingKeepsDirs(before, place, repos);
    GoodFilesRead(before, base, place, repos);
    forall x | x in repos ensures x in read {
      var k :| 0 <= k < |repos| && repos[k] == x;
      OwnFileRead(before, base, place, repos, k);
    }
    SameRepos(place, read, repos);
  }

  lemma SameFileOnce(base: string, place: Placing, repos: seq<Repo>, read: seq<Repo>, names: seq<string>)
    requires FromFiles(base, place, read, names) && multiset(read) == multiset(repos)
    ensures DistinctFiles(place, repos)
  {
    forall k | 0 <= k < |repos| ensures repos[k] in read {
      assert repos[k] in multiset(repos);
    }
    forall i, j | 0 <= i < j < |repos| ensures place(repos[i].name) != place(repos[j].name) {
      if place(repos[i].name) == place(repos[j].name) {
        assert repos[i] == repos[j];
        CountAtMostOne(place, read, repos[i]);
        TwiceCounts(repos, i, j);
      }
    }
  }

  lemma {:induction false} WrittenHasNoNul(tree: Tree, place: Placing, repos: seq<Repo>, k: nat)
    requires Written(tree, place, repos).ok && k < |repos|
    ensures '\0' !in place(repos[k].name)
  {
    var n := |repos| - 1;
    if k < n {
      WrittenHasNoNul(tree, place, repos[..n], k);
    }
  }

  lemma ComeBackAreGood(before: Tree, base: string, place: Placing, repos: seq<Repo>)
    requires Empty(before, base) && ComesBack(before, base, place, repos)
    ensures GoodRepos(base, place, repos)
  {
    var tree := Written(before, place, repos).tree;
    var names := Listing(Less, Entries(tree, base));
    var read := ReadFiles(tree, base, names);
    WritingKeepsDirs(before, place, repos);
    ReadIsGood(tree, base, names);
    forall k | 0 <= k < |repos| ensures repos[k] in read && '\0' !in place(repos[k].name) {
      assert repos[k] in multiset(repos);
      WrittenHasNoNul(before, place, repos, k);
    }
    GoodFilesRead(before, base, place, repos);
    SameFileOnce(base, place, repos, read, names);
  }

  // ------------------------------------------------------------ where names lead

  lemma {:induction false} JoinConcat(a: seq<string>, b: seq<string>, sep: string)
    requires |a| >= 1 && |b| >= 1
    ensures Join(a + b, sep) == Join(a, sep) + sep + Join(b, sep)
    decreases |a|
  {
    if |a| == 1 {
      assert (a + b)[1..] == b;
    } else {
      JoinConcat(a[1..], b, sep);
      assert (a + b)[1..] == a[1..] + b;
      assert a[0] + sep + (Join(a[1..], sep) + sep + Join(b, sep)) == a[0] + sep + Join(a[1..], sep) + sep + Join(b,
             sep);
    }
  }

  lemma SplitConcat(a: string, b: string)
    ensures Split(a + "/" + b, "/") == Split(a, "/") + Split(b, "/")
  {
    var x, y := Split(a, "/"), Split(b, "/");
    JoinSplit(a, "/");
    JoinSplit(b, "/");
    ComponentsHaveNoSlash(a);
    ComponentsHaveNoSlash(b);
    JoinConcat(x, y, "/");
    SplitJoinChar(x + y, '/');
  }

  /** The clean-up of a longer list starts from what the shorter one kept. */
  function KeptFurther(kept: seq<string>, more: seq<string>, rooted: bool): seq<string> {
    if |more| == 0 then kept
    else PushComponent(KeptFurther(kept, more[..|more| - 1], rooted), more[|more| - 1], rooted)
  }

  lemma {:induction false} KeptConcat(a: seq<string>, b: seq<string>, rooted: bool)
    ensures KeptComponents(a + b, rooted) == KeptFurther(KeptComponents(a, rooted), b, rooted)
    decreases |b|
  {
    if |b| == 0 {
      assert a + b == a;
    } else {
      var n := |b| - 1;
      assert (a + b)[..|a + b| - 1] == a + b[..n];
      KeptConcat(a, b[..n], rooted);
    }
  }

  lemma UnderSplits(dir: string, a: string, b: string)
    ensures Under(dir, a + "/" + b) == Under(dir, a) + "/" + b
    ensures a != "" ==> Rooted(Under(dir, a + "/" + b)) == Rooted(Under(dir, a))
  {
    assert dir + "/" + (a + "/" + b) == dir + "/" + a + "/" + b;
  }

  /** The components kept of the directory repos.conf: those of its parent, and itself. */
  function BaseKept(dir: string): seq<string> {
    KeptComponents(Split(Under(dir, "repos.conf"), "/"), Rooted(Under(dir, "repos.conf")))
  }

  lemma ReposConfIsName()
    ensures Split("repos.conf", "/") == ["repos.conf"] && Name("repos.conf") && !Rooted("repos.conf")
  {
    ContainsChar("repos.conf", '/');
    SplitWhole("repos.conf", "/");
    assert |"repos.conf"| == 10;
  }

  lemma BaseIsKept(dir: string)
    ensures |BaseKept(dir)| >= 1 && BaseKept(dir)[|BaseKept(dir)| - 1] == "repos.conf"
  {
    ReposConfIsName();
    var rooted := Rooted(Under(dir, "repos.conf"));
    if dir == "" {
      NamesAreKept(["repos.conf"], rooted);
    } else {
      SplitConcat(dir, "repos.conf");
      var parts := Split(dir, "/") + ["repos.conf"];
      assert parts[..|parts| - 1] == Split(dir, "/");
    }
  }

  /** Where a name leads: the clean-up continues from the directory through the components of the file name. */
  lemma TargetIs(dir: string, name: string)
    ensures var rooted := Rooted(Under(dir, "repos.conf"));
            var text := Join(KeptFurther(BaseKept(dir), Split(name + ".conf", "/"), rooted), "/");
            Target(dir, name) == if rooted then "/" + text else if text == "" then "." else text
  {
    var file := name + ".conf";
    assert "repos.conf/" + file == "repos.conf" + "/" + file;
    UnderSplits(dir, "repos.conf", file);
    SplitConcat(Under(dir, "repos.conf"), file);
    KeptConcat(Split(Under(dir, "repos.conf"), "/"), Split(file, "/"), Rooted(Under(dir, "repos.conf")));
  }

  lemma {:induction false} JoinHasLast(pieces: seq<string>, last: string)
    requires |pieces| >= 1 && pieces[|pieces| - 1] == last
    ensures |Join(pieces, "/")| >= |last|
    decreases |pieces|
  {
    if |pieces| > 1 {
      JoinHasLast(pieces[1..], last);
    }
  }

  lemma CleanText(path: string, text: string)
    requires text == Join(KeptComponents(Split(path, "/"), Rooted(path)), "/") && text != ""
    ensures CleanPath(path) == if Rooted(path) then "/" + text else text
  {
  }

  lemma BaseLong(dir: string)
    ensures |Join(BaseKept(dir), "/")| >= 2
  {
    BaseIsKept(dir);
    JoinHasLast(BaseKept(dir), BaseKept(dir)[|BaseKept(dir)| - 1]);
  }

  lemma BaseText(dir: string)
    ensures var text := Join(BaseKept(dir), "/");
            |text| >= 2 && Base(dir) == if Rooted(Under(dir, "repos.conf")) then "/" + text else text
  {
    BaseLong(dir);
    CleanText(Under(dir, "repos.conf"), Join(BaseKept(dir), "/"));
  }

  lemma FileIsName(file: string)
    requires '/' !in file && |file| >= 3
    ensures Split(file, "/") == [file] && Name(file)
  {
    ContainsChar(file, '/');
    SplitWhole(file, "/");
  }

  lemma {:induction false} KeptNames(kept: seq<string>, names: seq<string>, rooted: bool)
    requires Names(names)
    ensures KeptFurther(kept, names, rooted) == kept + names
  {
    if |names| > 0 {
      var n := |names| - 1;
      KeptNames(kept, names[..n], rooted);
      assert Name(names[n]);
      assert kept + names == kept + names[..n] + [names[n]];
    }
  }

  lemma RootedText(rooted: bool, text: string, rest: string)
    ensures (if rooted then "/" + (text + "/" + rest) else text + "/" + rest)
         == (if rooted then "/" + text else text) + "/" + rest
  {
  }

  lemma KeptText(kept: seq<string>, names: seq<string>)
    requires |kept| >= 1 && |names| >= 1
    ensures Join(kept + names, "/") == Join(kept, "/") + "/" + Join(names, "/") && Join(kept + names, "/") != ""
  {
    JoinConcat(kept, names, "/");
  }

  /** Plain components lead to the same path below the directory. */
  lemma NamesTarget(dir: string, name: string)
    requires Names(Split(name + ".conf", "/"))
    ensures Target(dir, name) == Base(dir) + "/" + (name + ".conf")
  {
    var names, kept := Split(name + ".conf", "/"), BaseKept(dir);
    var rooted := Rooted(Under(dir, "repos.conf"));
    TargetIs(dir, name);
    BaseIsKept(dir);
    BaseText(dir);
    KeptNames(kept, names, rooted);
    KeptText(kept, names);
    JoinSplit(name + ".conf", "/");
    RootedText(rooted, Join(kept, "/"), name + ".conf");
  }

  /** A name without a slash leads to its own file in the directory. */
  lemma PlainTarget(dir: string, name: string)
    requires '/' !in name
    ensures Target(dir, name) == Base(dir) + "/" + (name + ".conf")
  {
    FileIsName(name + ".conf");
    NamesTarget(dir, name);
  }

  lemma {:induction false} KeptInTwo(kept: seq<string>, a: seq<string>, b: seq<string>, rooted: bool)
    ensures KeptFurther(kept, a + b, rooted) == KeptFurther(KeptFurther(kept, a, rooted), b, rooted)
    decreases |b|
  {
    if |b| == 0 {
      assert a + b == a;
    } else {
      var n := |b| - 1;
      assert (a + b)[..|a + b| - 1] == a + b[..n];
      KeptInTwo(kept, a, b[..n], rooted);
    }
  }

  /** A slash in front of a name changes nothing. */
  lemma LeadingSlashIsLost(dir: string, name: string)
    ensures Target(dir, "/" + name) == Target(dir, name)
  {
    var file := name + ".conf";
    assert ("/" + name) + ".conf" == "" + "/" + file;
    SplitConcat("", file);
    assert Split("", "/") == [""];
    TargetIs(dir, "/" + name);
    TargetIs(dir, name);
    var rooted := Rooted(Under(dir, "repos.conf"));
    KeptInTwo(BaseKept(dir), [""], Split(file, "/"), rooted);
    assert [""][..0] == [];
  }

  /** A name in two parts leads into a directory below. */
  lemma NestedTarget(dir: string, a: string, b: string)
    requires Name(a) && '/' !in a && '/' !in b
    ensures Target(dir, a + "/" + b) == Base(dir) + "/" + (a + "/" + (b + ".conf"))
  {
    var file := b + ".conf";
    assert (a + "/" + b) + ".conf" == a + "/" + file;
    SplitConcat(a, file);
    ContainsChar(a, '/');
    SplitWhole(a, "/");
    FileIsName(file);
    NamesTarget(dir, a + "/" + b);
  }

  lemma ParentIs(dir: string, file: string)
    requires |dir| >= 1 && dir != "/" && '/' !in file
    ensures Parent(dir + "/" + file) == dir
  {
    var path := dir + "/" + file;
    assert path[|dir|] == '/' && forall k :: |dir| < k < |path| ==> path[k] == file[k - |dir| - 1];
    assert LastSlash(path) == |dir| + 1;
    assert path[..|dir|] == dir;
  }

  lemma RefusedAtOnce(before: Tree, place: Placing, repo: Repo)
    requires !Writable(before, place(repo.name))
    ensures Written(before, place, [repo]) == Outcome(false, before)
  {
    assert [repo][..0] == [];
    assert Written(before, place, []) == Outcome(true, before);
  }

  lemma NothingBelow(tree: Tree, base: string, a: string, file: string)
    requires Empty(tree, base) && base != "" && '/' !in a && '/' !in file
    ensures !Writable(tree, base + "/" + (a + "/" + file))
  {
    ParentIs(base + "/" + a, file);
    assert base + "/" + (a + "/" + file) == (base + "/" + a) + "/" + file;
  }

  /** Writing such a name into an empty directory fails. */
  lemma NestedIsRefused(before: Tree, dir: string, a: string, b: string, repo: Repo)
    requires Empty(before, Base(dir)) && Name(a) && '/' !in a && '/' !in b && repo.name == a + "/" + b
    ensures Written(before, Place(dir), [repo]) == Outcome(false, before)
  {
    NestedTarget(dir, a, b);
    BaseText(dir);
    NothingBelow(before, Base(dir), a, b + ".conf");
    RefusedAtOnce(before, Place(dir), repo);
  }

  // ---------------------------------------------------------------- the round trip

  /** Writing a list of repositories into an empty repos.conf succeeds and reads back as the same repositories, up to
      order, exactly when every repository is good, every name leads to a visible file directly in the directory, and no
      two lead to the same file. */
  lemma ReposConfRoundTrip(before: Tree, dir: string, repos: seq<Repo>)
    requires Empty(before, Base(dir))
    ensures ComesBack(before, Base(dir), Place(dir), repos) <==> GoodRepos(Base(dir), Place(dir), repos)
  {
    BaseText(dir);
    if GoodRepos(Base(dir), Place(dir), repos) {
      GoodComeBack(before, Base(dir), Place(dir), repos);
    }
    if ComesBack(before, Base(dir), Place(dir), repos) {
      ComeBackAreGood(before, Base(dir), Place(dir), repos);
    }
  }

  predicate Listed(name: string) {
    name != "" && name[0] != '.'
  }

  lemma DotFirst(file: string)
    requires file != ""
    ensures "." <= file <==> file[0] == '.'
  {
  }

  lemma ConfIsVisible(name: string)
    ensures Visible(name + ".conf") <==> Listed(name)
  {
    var file := name + ".conf";
    assert file[|name|..] == ".conf";
    DotFirst(file);
    assert name != "" ==> file[0] == name[0];
  }

  lemma PlainIsShown(dir: string, name: string)
    requires '/' !in name && '\0' !in Base(dir)
    ensures Shown(Base(dir), Place(dir)(name)) && '\0' !in Place(dir)(name) <==> Listed(name) && '\0' !in name
  {
    PlainTarget(dir, name);
    InsideIs(Base(dir), name + ".conf");
    ConfIsVisible(name);
  }

  lemma PlainsDiffer(dir: string, a: string, b: string)
    requires '/' !in a && '/' !in b
    ensures Place(dir)(a) == Place(dir)(b) <==> a == b
  {
    PlainTarget(dir, a);
    PlainTarget(dir, b);
    InsideIs(Base(dir), a + ".conf");
    InsideIs(Base(dir), b + ".conf");
    if a + ".conf" == b + ".conf" {
      assert (a + ".conf")[..|a|] == a && (b + ".conf")[..|b|] == b;
    }
  }

  /** For names without slashes that is: good repositories under distinct names, none empty, none starting with a dot.
      */
  lemma PlainNamesRoundTrip(before: Tree, dir: string, repos: seq<Repo>)
    requires Empty(before, Base(dir)) && '\0' !in Base(dir)
    requires forall k :: 0 <= k < |repos| ==> '/' !in repos[k].name
    ensures ComesBack(before, Base(dir), Place(dir), repos) <==>
              && AllGood(repos)
              && (forall k :: 0 <= k < |repos| ==> Listed(repos[k].name) && '\0' !in repos[k].name)
              && (forall i, j :: 0 <= i < j < |repos| ==> repos[i].name != repos[j].name)
  {
    var base, place := Base(dir), Place(dir);
    ReposConfRoundTrip(before, dir, repos);
    forall k | 0 <= k < |repos|
      ensures Shown(base, place(repos[k].name)) && '\0' !in place(repos[k].name)
              <==> Listed(repos[k].name) && '\0' !in repos[k].name
    {
      PlainIsShown(dir, repos[k].name);
    }
    forall i, j | 0 <= i < j < |repos|
      ensures place(repos[i].name) == place(repos[j].name) <==> repos[i].name == repos[j].name
    {
      PlainsDiffer(dir, repos[i].name, repos[j].name);
    }
  }
}
