/** Go's path.Clean and the confinement test the index parser builds on it. */
module SlashPath {
  import opened Text

  /** strings.ReplaceAll(p, "\\", "/"). */
  function ForwardSlashes(p: string): (r: string)
    ensures |r| == |p|
    ensures forall i :: 0 <= i < |p| ==> r[i] == if p[i] == '\\' then '/' else p[i]
  {
    seq(|p|, i requires 0 <= i < |p| => if p[i] == '\\' then '/' else p[i])
  }

  /** One step of the lexical clean-up: the components kept so far, then the next one. */
  function PushComponent(kept: seq<string>, next: string, rooted: bool): seq<string> {
    if next == "" || next == "." then kept
    else if next != ".." then kept + [next]
    else if |kept| > 0 && kept[|kept| - 1] != ".." then kept[..|kept| - 1]
    else if rooted then kept
    else kept + [next]
  }

  function KeptComponents(components: seq<string>, rooted: bool): seq<string> {
    if |components| == 0 then []
    else PushComponent(KeptComponents(components[..|components| - 1], rooted), components[|components| - 1], rooted)
  }

  function Rooted(p: string): bool {
    p != "" && p[0] == '/'
  }

  /** path.Clean. */
  function CleanPath(p: string): string {
    var text := Join(KeptComponents(Split(p, "/"), Rooted(p)), "/");
    if Rooted(p) then "/" + text else if text == "" then "." else text
  }

  /** The test in parsePackagesStanzas: the path is its own clean form and stays below the root. */
  predicate IsRelativeFile(p: string) {
    var clean := CleanPath(ForwardSlashes(p));
    && p != ""
    && clean == p
    && clean != "." && clean != ".."
    && !("../" <= clean)
    && !("/" <= clean)
  }

  predicate Name(component: string) {
    component != "" && component != "." && component != ".."
  }

  predicate Names(components: seq<string>) {
    forall k :: 0 <= k < |components| ==> Name(components[k])
  }

  lemma {:induction false} NamesAreKept(components: seq<string>, rooted: bool)
    requires Names(components)
    ensures KeptComponents(components, rooted) == components
  {
    if |components| > 0 {
      var n := |components| - 1;
      NamesAreKept(components[..n], rooted);
      assert Name(components[n]);
      assert components == components[..n] + [components[n]];
    }
  }

  /** What an unrooted clean-up keeps: parents first, then names. */
  ghost predicate ParentsThenNames(kept: seq<string>) {
    && (forall k :: 0 <= k < |kept| ==> kept[k] != "" && kept[k] != "." && '/' !in kept[k])
    && (forall k :: 0 < k < |kept| && kept[k] == ".." ==> kept[k - 1] == "..")
  }

  lemma {:induction false} KeptShape(components: seq<string>)
    requires forall k :: 0 <= k < |components| ==> '/' !in components[k]
    ensures ParentsThenNames(KeptComponents(components, false))
  {
    if |components| > 0 {
      KeptShape(components[..|components| - 1]);
    }
  }

  lemma {:induction false} FirstParent(kept: seq<string>, k: nat)
    requires ParentsThenNames(kept) && k < |kept| && kept[k] == ".."
    ensures kept[0] == ".."
  {
    if k > 0 {
      FirstParent(kept, k - 1);
    }
  }

  lemma ComponentsHaveNoSlash(p: string)
    ensures forall k :: 0 <= k < |Split(p, "/")| ==> '/' !in Split(p, "/")[k]
  {
    SplitPieces(p, "/");
    var parts := Split(p, "/");
    forall k | 0 <= k < |parts| ensures '/' !in parts[k] {
      assert !Contains(parts[k], "/");
      ContainsChar(parts[k], '/');
    }
  }

  lemma {:induction false} JoinWithout(pieces: seq<string>, c: char)
    requires c != '/' && forall k :: 0 <= k < |pieces| ==> c !in pieces[k]
    ensures c !in Join(pieces, "/")
    decreases |pieces|
  {
    if |pieces| > 1 {
      JoinWithout(pieces[1..], c);
    }
  }

  lemma {:induction false} KeptFrom(components: seq<string>, c: char)
    requires forall k :: 0 <= k < |components| ==> c !in components[k]
    ensures forall k :: 0 <= k < |KeptComponents(components, false)| ==> c !in KeptComponents(components, false)[k]
  {
    if |components| > 0 {
      KeptFrom(components[..|components| - 1], c);
    }
  }

  lemma {:induction false} SplitWithout(p: string, c: char)
    requires c !in p
    ensures forall k :: 0 <= k < |Split(p, "/")| ==> c !in Split(p, "/")[k]
    decreases |p|
  {
    var i := IndexOf(p, "/");
    if i < |p| {
      SplitWithout(p[i + 1..], c);
    }
  }

  /** The whole of the path test in one sentence: a list of plain names separated by slashes. */
  lemma RelativeFileIsNames(p: string)
    ensures IsRelativeFile(p) <==> p != "" && '\\' !in p && Names(Split(p, "/"))
  {
    if p != "" && '\\' !in p && Names(Split(p, "/")) {
      NamesAreRelative(p);
    }
    if IsRelativeFile(p) {
      RelativeIsNames(p);
    }
  }

  lemma NotParent(p: string, i: nat)
    requires i == IndexOf(p, "/") && Name(p[..i])
    ensures p != "." && p != ".." && !("../" <= p)
  {
    assert |p| >= 3 && p[2] == '/' ==> OccursAt(p, "/", 2);
    assert |p| <= 2 && i < |p| ==> p[i] == p[i..i + 1][0];
    assert i >= 2 ==> |p[..i]| == i && p[..i][0] == p[0] && p[..i][1] == p[1];
    assert i == 2 ==> p[..i] == [p[0], p[1]];
    assert i == |p| ==> p[..i] == p;
  }

  lemma NamesAreRelative(p: string)
    requires p != "" && '\\' !in p && Names(Split(p, "/"))
    ensures IsRelativeFile(p)
  {
    var parts := Split(p, "/");
    assert ForwardSlashes(p) == p;
    JoinSplit(p, "/");
    assert Name(parts[0]);
    var i := IndexOf(p, "/");
    assert parts[0] == p[..i];
    assert !Rooted(p);
    NamesAreKept(parts, false);
    assert CleanPath(p) == p;
    NotParent(p, i);
  }

  lemma ParentPrefix(kept: seq<string>)
    ensures |kept| > 0 && kept[0] == ".." ==> Join(kept, "/") == ".." || "../" <= Join(kept, "/")
  {
    if |kept| > 1 && kept[0] == ".." {
      assert Join(kept, "/") == "../" + Join(kept[1..], "/");
    }
  }

  lemma RelativeIsNames(p: string)
    requires IsRelativeFile(p)
    ensures '\\' !in p && Names(Split(p, "/"))
  {
    var q := ForwardSlashes(p);
    var parts := Split(q, "/");
    assert '\\' !in q;
    assert !Rooted(q);
    var kept := KeptComponents(parts, false);
    SplitWithout(q, '\\');
    KeptFrom(parts, '\\');
    JoinWithout(kept, '\\');
    assert p == Join(kept, "/");
    assert q == p;
    ComponentsHaveNoSlash(q);
    KeptShape(parts);
    SplitJoinChar(kept, '/');
    forall k | 0 <= k < |kept| ensures Name(kept[k]) {
      ParentPrefix(kept);
      if kept[k] == ".." {
        FirstParent(kept, k);
      }
    }
  }
}
