/** Promotion of staged files into the package directory, with rollback (internal/binpkg/store.go). */
module Promotion {
  import opened Text
  import opened Ordering
  import opened SlashPath

  datatype Node = Regular(content: string) | Other

  type Files = map<string, Node>

  /** Which file-system steps fail, by destination. */
  datatype Faults = Faults(
    mkdir: set<string>, inspect: set<string>, compare: set<string>, copy: set<string>, remove: set<string>,
    scan: bool)

  datatype PromoteError =
    | NothingToPromote
    | InvalidPath(rel: string)
    | DuplicatePath(rel: string)
    | MissingStaged(rel: string)
    | NotRegular(rel: string)
    | StepFailed(rel: string)
    | RegenerateFailed

  function AddRel(staging: Files, clean: seq<string>, rel: string): Result<seq<string>, PromoteError> {
    var c := CleanPath(rel);
    if c == "." || Rooted(c) || c == ".." || "../" <= c then Err(InvalidPath(rel))
    else if c in clean then Err(DuplicatePath(rel))
    else if c !in staging then Err(MissingStaged(rel))
    else if !staging[c].Regular? then Err(NotRegular(rel))
    else Ok(clean + [c])
  }

  function CleanRels(staging: Files, rels: seq<string>): Result<seq<string>, PromoteError> {
    if |rels| == 0 then Ok([])
    else
      match CleanRels(staging, rels[..|rels| - 1])
      case Err(e) => Err(e)
      case Ok(clean) => AddRel(staging, clean, rels[|rels| - 1])
  }

  ghost predicate StagedSet(staging: Files, rels: seq<string>) {
    && Distinct(rels)
    && (forall k :: 0 <= k < |rels| ==> rels[k] in staging && staging[rels[k]].Regular?)
  }

  lemma {:induction false} CleanRelsAreStaged(staging: Files, rels: seq<string>)
    requires CleanRels(staging, rels).Ok?
    ensures StagedSet(staging, CleanRels(staging, rels).value)
  {
    if |rels| > 0 {
      CleanRelsAreStaged(staging, rels[..|rels| - 1]);
    }
  }

  /** The step for this destination does not succeed. */
  predicate Blocked(files: Files, staging: Files, rel: string, faults: Faults)
    requires rel in staging
  {
    || rel in faults.mkdir
    || rel in faults.inspect
    || (if rel in files then rel in faults.compare || files[rel] != staging[rel] else rel in faults.copy)
  }

  function FirstBlocked(files: Files, staging: Files, rels: seq<string>, faults: Faults): (k: nat)
    requires forall i :: 0 <= i < |rels| ==> rels[i] in staging
    ensures k <= |rels|
    ensures forall i :: 0 <= i < k ==> !Blocked(files, staging, rels[i], faults)
    ensures k < |rels| ==> Blocked(files, staging, rels[k], faults)
  {
    if |rels| == 0 then 0
    else
      var k := FirstBlocked(files, staging, rels[..|rels| - 1], faults);
      if k < |rels| - 1 || Blocked(files, staging, rels[|rels| - 1], faults) then k else |rels|
  }

  function Fresh(files: Files, rels: seq<string>): set<string> {
    set r | r in rels && r !in files
  }

  function Copies(staging: Files, names: set<string>): Files {
    map p | p in names && p in staging :: staging[p]
  }

  predicate Promotes(files: Files, staging: Files, rels: seq<string>, faults: Faults)
    requires forall i :: 0 <= i < |rels| ==> rels[i] in staging
  {
    FirstBlocked(files, staging, rels, faults) == |rels| && !faults.scan
  }

  /** Files created before the failing step whose removal failed too. */
  function Stranded(files: Files, staging: Files, rels: seq<string>, faults: Faults): set<string>
    requires forall i :: 0 <= i < |rels| ==> rels[i] in staging
  {
    Fresh(files, rels[..FirstBlocked(files, staging, rels, faults)]) * faults.remove
  }

  function AfterPromote(files: Files, staging: Files, rels: seq<string>, faults: Faults): Files
    requires forall i :: 0 <= i < |rels| ==> rels[i] in staging
  {
    if Promotes(files, staging, rels, faults) then files + Copies(staging, Fresh(files, rels))
    else files + Copies(staging, Stranded(files, staging, rels, faults))
  }

  /** On failure the file map is exactly as before if and only if every rollback removal worked. */
  lemma PromoteIsAllOrNothing(files: Files, staging: Files, rels: seq<string>, faults: Faults)
    requires StagedSet(staging, rels) && !Promotes(files, staging, rels, faults)
    ensures AfterPromote(files, staging, rels, faults) == files <==> Stranded(files, staging, rels, faults) == {}
    ensures faults.remove == {} ==> AfterPromote(files, staging, rels, faults) == files
  {
    var stranded := Stranded(files, staging, rels, faults);
    var after := AfterPromote(files, staging, rels, faults);
    if stranded != {} {
      var p :| p in stranded;
      assert p in Copies(staging, stranded) && p in after && p !in files;
    }
  }

  /** One failed copy after one successful one, with the removal failing as well, leaves a file behind. */
  lemma RollbackCanStrand()
    ensures var staging := map["a" := Regular("1"), "b" := Regular("2")];
            var faults := Faults({}, {}, {}, {"b"}, {"a"}, false);
            AfterPromote(map[], staging, ["a", "b"], faults) == map["a" := Regular("1")]
  {
    var staging: Files := map["a" := Regular("1"), "b" := Regular("2")];
    var faults := Faults({}, {}, {}, {"b"}, {"a"}, false);
    var rels := ["a", "b"];
    assert Blocked(map[], staging, rels[1], faults) && !Blocked(map[], staging, rels[0], faults);
    assert FirstBlocked(map[], staging, rels, faults) == 1;
    assert rels[..1] == ["a"];
    assert Stranded(map[], staging, rels, faults) == {"a"};
  }

  /** Whatever happens, a published path keeps its content; on success every staged file is published. */
  lemma PromoteKeepsPublished(files: Files, staging: Files, rels: seq<string>, faults: Faults)
    requires StagedSet(staging, rels)
    ensures var after := AfterPromote(files, staging, rels, faults);
            && (forall p :: p in files ==> p in after && after[p] == files[p])
            && (forall p :: p in after ==> p in files || (p in rels && after[p] == staging[p]))
            && (Promotes(files, staging, rels, faults) ==>
                  forall k :: 0 <= k < |rels| ==> rels[k] in after && after[rels[k]] == staging[rels[k]])
  {
    var after := AfterPromote(files, staging, rels, faults);
    var k := FirstBlocked(files, staging, rels, faults);
    assert forall r :: r in rels[..k] ==> r in rels;
    if Promotes(files, staging, rels, faults) {
      forall i | 0 <= i < |rels| ensures rels[i] in after && after[rels[i]] == staging[rels[i]] {
        assert !Blocked(files, staging, rels[i], faults);
      }
    }
  }

  /** Repeating a promotion that succeeded is accepted and changes nothing. */
  lemma PromoteIsIdempotent(files: Files, staging: Files, rels: seq<string>, faults: Faults, again: Faults)
    requires StagedSet(staging, rels) && Promotes(files, staging, rels, faults)
    requires again.mkdir == {} && again.inspect == {} && again.compare == {} && !again.scan
    ensures var after := AfterPromote(files, staging, rels, faults);
            Promotes(after, staging, rels, again) && AfterPromote(after, staging, rels, again) == after
  {
    var after := AfterPromote(files, staging, rels, faults);
    PromoteKeepsPublished(files, staging, rels, faults);
    forall i | 0 <= i < |rels| ensures !Blocked(after, staging, rels[i], again) {
    }
    assert FirstBlocked(after, staging, rels, again) == |rels|;
    assert Fresh(after, rels) == {};
  }

  datatype Moved = Moved(rel: string, created: bool)

  lemma {:induction false} CleanStops(staging: Files, rels: seq<string>, i: nat)
    requires i <= |rels| && CleanRels(staging, rels[..i]).Err?
    ensures CleanRels(staging, rels) == CleanRels(staging, rels[..i])
    decreases |rels|
  {
    if i == |rels| {
      assert rels[..i] == rels;
    } else {
      assert rels[..|rels| - 1][..i] == rels[..i];
      CleanStops(staging, rels[..|rels| - 1], i);
    }
  }

  /** The validation loop at the head of PromoteStaged. */
  method ValidateRels(staging: Files, rels: seq<string>) returns (r: Result<seq<string>, PromoteError>)
    ensures r == CleanRels(staging, rels)
  {
    var clean: seq<string> := [];
    for i := 0 to |rels|
      invariant CleanRels(staging, rels[..i]) == Ok(clean)
    {
      assert rels[..i + 1][..i] == rels[..i];
      var next := AddRel(staging, clean, rels[i]);
      if next.Err? {
        CleanStops(staging, rels, i + 1);
        return Err(next.error);
      }
      clean := next.value;
    }
    assert rels[..|rels|] == rels;
    return Ok(clean);
  }

  /** The package directory. */
  class PackageTree {
    var files: Files

    constructor (files: Files)
      ensures this.files == files
    {
      this.files := files;
    }

    /** What the loop of CopyStaged has done after moving the list `moved`. */
    ghost predicate Midway(base: Files, staging: Files, clean: seq<string>, moved: seq<Moved>)
      reads this
    {
      && |moved| <= |clean|
      && (forall k :: 0 <= k < |moved| ==> moved[k].rel == clean[k] && moved[k].created == (clean[k] !in base))
      && files == base + Copies(staging, Fresh(base, clean[..|moved|]))
    }

    /** The rollback closure: remove what was created, newest first, ignoring failures. */
    method Rollback(moved: seq<Moved>, ghost base: Files, ghost staging: Files, ghost clean: seq<string>,
        faults: Faults)
      requires Distinct(clean) && Midway(base, staging, clean, moved)
      modifies this
      ensures files == base + Copies(staging, Fresh(base, clean[..|moved|]) * faults.remove)
    {
      var i := |moved|;
      RollbackEnds(base, clean, |moved|, faults.remove);
      while i > 0
        invariant 0 <= i <= |moved|
        invariant files == base + Copies(staging, Kept(base, clean, i, |moved|, faults.remove))
      {
        i := i - 1;
        RollbackStep(base, staging, clean, i, |moved|, faults.remove);
        if moved[i].created && moved[i].rel !in faults.remove {
          files := files - {moved[i].rel};
        }
      }
    }

    /** The copy loop of PromoteStaged. */
    method CopyStaged(staging: Files, clean: seq<string>, faults: Faults) returns (moved: seq<Moved>, failed: bool)
      requires StagedSet(staging, clean)
      modifies this
      ensures Midway(old(files), staging, clean, moved)
      ensures |moved| == FirstBlocked(old(files), staging, clean, faults)
      ensures failed <==> |moved| < |clean|
    {
      ghost var base := files;
      moved := [];
      assert files == base + Copies(staging, Fresh(base, clean[..0]));
      for i := 0 to |clean|
        invariant i <= FirstBlocked(base, staging, clean, faults) && |moved| == i
        invariant Midway(base, staging, clean, moved)
      {
        var rel := clean[i];
        CopyStep(base, staging, clean, i);
        if rel in faults.mkdir || rel in faults.inspect
          || (if rel in files then rel in faults.compare || files[rel] != staging[rel] else rel in faults.copy) {
          assert Blocked(base, staging, clean[i], faults);
          return moved, true;
        }
        assert !Blocked(base, staging, clean[i], faults);
        var created := rel !in files;
        if created {
          files := files[rel := staging[rel]];
        }
        moved := moved + [Moved(rel, created)];
      }
      failed := false;
    }
  }

  /** The next destination looks as it did at the start, and copying it extends what has been copied. */
  lemma CopyStep(base: Files, staging: Files, clean: seq<string>, i: nat)
    requires StagedSet(staging, clean) && i < |clean|
    ensures var now := base + Copies(staging, Fresh(base, clean[..i]));
            var next := base + Copies(staging, Fresh(base, clean[..i + 1]));
            && (clean[i] in now <==> clean[i] in base)
            && (clean[i] in base ==> now[clean[i]] == base[clean[i]] && next == now)
            && (clean[i] !in base ==> next == now[clean[i] := staging[clean[i]]])
  {
    FreshSplits(base, clean, i);
    if clean[i] !in base {
      AddCopy(base, staging, Fresh(base, clean[..i]), clean[i]);
    }
  }

  /** What is still there once the rollback has come down to index i. */
  ghost function Kept(base: Files, clean: seq<string>, i: nat, n: nat, remove: set<string>): set<string>
    requires i <= n <= |clean|
  {
    Fresh(base, clean[..i]) + Fresh(base, clean[..n]) * remove
  }

  lemma RollbackEnds(base: Files, clean: seq<string>, n: nat, remove: set<string>)
    requires n <= |clean|
    ensures Kept(base, clean, n, n, remove) == Fresh(base, clean[..n])
    ensures Kept(base, clean, 0, n, remove) == Fresh(base, clean[..n]) * remove
  {
    assert Fresh(base, clean[..0]) == {};
  }

  lemma RollbackStep(base: Files, staging: Files, clean: seq<string>, i: nat, n: nat, remove: set<string>)
    requires i < n <= |clean| && Distinct(clean)
    ensures var before := base + Copies(staging, Kept(base, clean, i + 1, n, remove));
            var after := base + Copies(staging, Kept(base, clean, i, n, remove));
            after == if clean[i] !in base && clean[i] !in remove then before - {clean[i]} else before
  {
    FreshSplits(base, clean, i);
    var kept := Kept(base, clean, i, n, remove);
    if clean[i] in base {
    } else if clean[i] in remove {
      FreshMember(base, clean, i, n);
      assert Kept(base, clean, i + 1, n, remove) == kept;
    } else {
      assert Kept(base, clean, i + 1, n, remove) == kept + {clean[i]};
      RemoveCopy(base, staging, kept, clean[i]);
    }
  }

  lemma FreshSplits(base: Files, clean: seq<string>, i: nat)
    requires i < |clean| && Distinct(clean)
    ensures Fresh(base, clean[..i + 1]) == Fresh(base, clean[..i]) + if clean[i] in base then {} else {clean[i]}
    ensures clean[i] !in Fresh(base, clean[..i])
  {
    assert clean[..i + 1] == clean[..i] + [clean[i]];
  }

  lemma FreshMember(base: Files, clean: seq<string>, i: nat, n: nat)
    requires i < n <= |clean| && clean[i] !in base
    ensures clean[i] in Fresh(base, clean[..n])
  {
    assert clean[..n][i] == clean[i];
  }

  lemma RemoveCopy(base: Files, staging: Files, names: set<string>, rel: string)
    requires rel !in names && rel !in base
    ensures base + Copies(staging, names + {rel}) - {rel} == base + Copies(staging, names)
  {
  }

  lemma AddCopy(base: Files, staging: Files, names: set<string>, rel: string)
    requires rel in staging
    ensures (base + Copies(staging, names))[rel := staging[rel]] == base + Copies(staging, names + {rel})
  {
  }
}
