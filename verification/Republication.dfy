/** When an attempt that has been published is published again (internal/builder/manager.go). The manifest does not
    record its predecessor and equal uploads are accepted, so a replay can take the channel back to a generation it
    has left. */
module Republication {
  import opened Text
  import opened Publication

  // --------------------------------------------------------- runs from any state

  ghost function RunFrom(merge: Merger, s: State, moves: seq<Move>): State {
    if |moves| == 0 then s else Act(merge, RunFrom(merge, s, moves[..|moves| - 1]), moves[|moves| - 1])
  }

  lemma {:induction false} RunThen(merge: Merger, moves: seq<Move>, more: seq<Move>)
    ensures Run(merge, moves + more) == RunFrom(merge, Run(merge, moves), more)
    decreases |more|
  {
    if more == [] {
      assert moves + more == moves;
    } else {
      var n := |more| - 1;
      RunThen(merge, moves, more[..n]);
      assert (moves + more)[..|moves + more| - 1] == moves + more[..n];
    }
  }

  lemma {:induction false} FromConcat(merge: Merger, s: State, a: seq<Move>, b: seq<Move>)
    ensures RunFrom(merge, s, a + b) == RunFrom(merge, RunFrom(merge, s, a), b)
    decreases |b|
  {
    if b == [] {
      assert a + b == a;
    } else {
      var n := |b| - 1;
      FromConcat(merge, s, a, b[..n]);
      assert (a + b)[..|a + b| - 1] == a + b[..n];
    }
  }

  lemma One(merge: Merger, s: State, move: Move)
    ensures RunFrom(merge, s, [move]) == Act(merge, s, move)
  {
    assert [move][..0] == [];
    assert RunFrom(merge, s, []) == s;
  }

  lemma {:induction false} FromKeeps(merge: Merger, s: State, moves: seq<Move>)
    requires Inv(merge, s)
    ensures Inv(merge, RunFrom(merge, s, moves))
  {
    if |moves| > 0 {
      FromKeeps(merge, s, moves[..|moves| - 1]);
      ActKeeps(merge, RunFrom(merge, s, moves[..|moves| - 1]), moves[|moves| - 1]);
    }
  }

  // ------------------------------------------------------- one publisher on its own

  /** What a publisher reads when it starts. */
  ghost function LastRead(s: State): Option<Previous> {
    if s.history == [] then None
    else
      var c := s.history[|s.history| - 1];
      Some(Previous(c.pointer, c.manifest, c.index))
  }

  /** Every upload of the job finds its key free or holding the same bytes. */
  ghost predicate Room(objects: map<Key, Object>, job: Job, index: string, manifest: Manifest) {
    && (forall k :: 0 <= k < |job.files| ==> !Taken(objects, job, k))
    && (forall k :: 0 <= k < |job.files| ==> job.files[k].path != MANIFEST)
    && (forall k :: 0 <= k < |job.files| && job.files[k].path == PACKAGES ==> job.files[k].bytes == index)
    && (Key(job.attempt, PACKAGES) in objects ==> objects[Key(job.attempt, PACKAGES)] == File(index))
    && (Key(job.attempt, MANIFEST) in objects ==> objects[Key(job.attempt, MANIFEST)] == Document(manifest))
  }

  ghost predicate CanPublish(merge: Merger, s: State, job: Job, index: string) {
    && LegalJob(job) && (job.signed ==> TrimSpace(job.signingKey) != "")
    && (s.pointer.Some? ==> s.pointer.value.generation != job.attempt)
    && merge(IndexBefore(s.history, |s.history|), job.index, job.created) == Some(index)
    && Room(s.objects, job, index, ManifestOf(job, LastRead(s), index))
  }

  /** Only the publisher and its own generation's objects have changed. */
  ghost predicate Ours(s: State, t: State, p: nat, job: Job) {
    && t.pointer == s.pointer && t.history == s.history
    && (forall q :: q != p ==> At(t, q) == At(s, q))
    && Extends(s.objects, t.objects)
    && (forall k :: k in t.objects && k !in s.objects ==> k.generation == job.attempt)
  }

  ghost predicate NoBegins(moves: seq<Move>) {
    forall k :: 0 <= k < |moves| ==> !moves[k].event.Begin?
  }

  /** The three reads. */
  lemma ReadAlone(merge: Merger, s: State, p: nat, job: Job, index: string) returns (moves: seq<Move>)
    requires Inv(merge, s) && At(s, p) == Starting(job) && CanPublish(merge, s, job, index)
    ensures RunFrom(merge, s, moves) == s.(publishers := s.publishers[p := Uploading(job, LastRead(s), index, 0)])
    ensures NoBegins(moves)
  {
    var read := Move(p, ReadChannel, false);
    One(merge, s, read);
    if s.history == [] {
      moves := [read];
    } else {
      var c := s.history[|s.history| - 1];
      assert Backed(c, s.objects);
      var s1 := s.(publishers := s.publishers[p := Reading(job, c.pointer)]);
      var s2 := s.(publishers := s.publishers[p := Checking(job, c.pointer, c.manifest)]);
      ReadsOn(merge, s, p, job, c, index, s1, s2);
      moves := [read] + [Move(p, ReadManifest, false)] + [Move(p, ReadPackages, false)];
      One(merge, s1, Move(p, ReadManifest, false));
      FromConcat(merge, s, [read], [Move(p, ReadManifest, false)]);
      One(merge, s2, Move(p, ReadPackages, false));
      FromConcat(merge, s, [read] + [Move(p, ReadManifest, false)], [Move(p, ReadPackages, false)]);
    }
  }

  lemma ReadsOn(merge: Merger, s: State, p: nat, job: Job, c: Committed, index: string, s1: State, s2: State)
    requires s.history != [] && c == s.history[|s.history| - 1] && Backed(c, s.objects) && s.pointer == Some(c.pointer)
    requires At(s, p) == Starting(job) && CanPublish(merge, s, job, index)
    requires s1 == s.(publishers := s.publishers[p := Reading(job, c.pointer)])
    requires s2 == s.(publishers := s.publishers[p := Checking(job, c.pointer, c.manifest)])
    ensures Act(merge, s, Move(p, ReadChannel, false)) == s1
    ensures Act(merge, s1, Move(p, ReadManifest, false)) == s2
    ensures Act(merge, s2, Move(p, ReadPackages, false))
         == s.(publishers := s.publishers[p := Uploading(job, LastRead(s), index, 0)])
  {
    assert s1.publishers[p := Checking(job, c.pointer, c.manifest)] == s2.publishers;
    assert s2.publishers[p := Uploading(job, LastRead(s), index, 0)] == s.publishers[p := Uploading(job, LastRead(s),
           index, 0)];
  }

  lemma RoomForFile(objects: map<Key, Object>, job: Job, index: string, manifest: Manifest, done: nat)
    requires Room(objects, job, index, manifest) && LegalJob(job) && done < |job.files|
    ensures Room(objects[Key(job.attempt, job.files[done].path) := File(job.files[done].bytes)], job, index, manifest)
  {
    var more := objects[Key(job.attempt, job.files[done].path) := File(job.files[done].bytes)];
    forall k | 0 <= k < |job.files| ensures !Taken(more, job, k) {
      assert !Taken(objects, job, k);
    }
    assert job.files[done].path == PACKAGES ==> job.files[done].bytes == index;
  }

  lemma RoomForPackages(objects: map<Key, Object>, job: Job, index: string, manifest: Manifest)
    requires Room(objects, job, index, manifest)
    ensures Room(objects[Key(job.attempt, PACKAGES) := File(index)], job, index, manifest)
  {
    var more := objects[Key(job.attempt, PACKAGES) := File(index)];
    forall k | 0 <= k < |job.files| ensures !Taken(more, job, k) {
      assert !Taken(objects, job, k);
    }
    assert |PACKAGES| != |MANIFEST|;
  }

  /** The uploads of the files, from the done-th on. */
  lemma {:induction false} UploadAlone(
    merge: Merger, s: State, p: nat, job: Job, previous: Option<Previous>, index: string, manifest: Manifest, done: nat)
    returns (moves: seq<Move>)
    requires done <= |job.files| && LegalJob(job)
    requires At(s, p) == Uploading(job, previous, index, done) && Room(s.objects, job, index, manifest)
    ensures var t := RunFrom(merge, s, moves);
            && At(t, p) == Uploading(job, previous, index, |job.files|)
            && Ours(s, t, p, job) && Room(t.objects, job, index, manifest)
    ensures NoBegins(moves)
    decreases |job.files| - done
  {
    if done == |job.files| {
      moves := [];
    } else {
      var move := Move(p, UploadArtifact, false);
      var s1 := Act(merge, s, move);
      One(merge, s, move);
      FileGoesUp(merge, s, p, job, previous, index, manifest, done);
      var rest := UploadAlone(merge, s1, p, job, previous, index, manifest, done + 1);
      FromConcat(merge, s, [move], rest);
      moves := [move] + rest;
    }
  }

  lemma FileGoesUp(
    merge: Merger, s: State, p: nat, job: Job, previous: Option<Previous>, index: string, manifest: Manifest, done: nat)
    requires done < |job.files| && LegalJob(job)
    requires At(s, p) == Uploading(job, previous, index, done) && Room(s.objects, job, index, manifest)
    ensures var t := Act(merge, s, Move(p, UploadArtifact, false));
            && At(t, p) == Uploading(job, previous, index, done + 1)
            && Ours(s, t, p, job) && Room(t.objects, job, index, manifest)
  {
    assert !Taken(s.objects, job, done);
    RoomForFile(s.objects, job, index, manifest, done);
  }

  lemma PackagesGoUp(
    merge: Merger, s: State, p: nat, job: Job, previous: Option<Previous>, index: string, manifest: Manifest)
    requires At(s, p) == Uploading(job, previous, index, |job.files|) && Room(s.objects, job, index, manifest)
    ensures var t := Act(merge, s, Move(p, UploadPackages, false));
            && At(t, p) == Describing(job, previous, index)
            && Ours(s, t, p, job) && Room(t.objects, job, index, manifest)
  {
    RoomForPackages(s.objects, job, index, manifest);
  }

  lemma ManifestGoesUp(merge: Merger, s: State, p: nat, job: Job, previous: Option<Previous>, index: string)
    requires At(s, p) == Describing(job, previous, index) && (job.signed ==> TrimSpace(job.signingKey) != "")
    requires Room(s.objects, job, index, ManifestOf(job, previous, index))
    ensures var t := Act(merge, s, Move(p, UploadManifest, false));
            At(t, p) == Committing(job, previous, index) && Ours(s, t, p, job)
  {
  }

  lemma OursTrans(s: State, t: State, u: State, p: nat, job: Job)
    requires Ours(s, t, p, job) && Ours(t, u, p, job)
    ensures Ours(s, u, p, job)
  {
  }

  /** The reads and the uploads of the files. */
  lemma UploadsAlone(merge: Merger, s: State, p: nat, job: Job, index: string) returns (moves: seq<Move>, t: State)
    requires Inv(merge, s) && At(s, p) == Starting(job) && CanPublish(merge, s, job, index)
    ensures RunFrom(merge, s, moves) == t && NoBegins(moves) && Ours(s, t, p, job)
    ensures At(t, p) == Uploading(job, LastRead(s), index, |job.files|)
    ensures Room(t.objects, job, index, ManifestOf(job, LastRead(s), index))
  {
    var manifest := ManifestOf(job, LastRead(s), index);
    var a := ReadAlone(merge, s, p, job, index);
    var s1 := RunFrom(merge, s, a);
    var b := UploadAlone(merge, s1, p, job, LastRead(s), index, manifest, 0);
    t := RunFrom(merge, s1, b);
    FromConcat(merge, s, a, b);
    assert Ours(s, s1, p, job);
    OursTrans(s, s1, t, p, job);
    moves := a + b;
  }

  /** What a publisher leaves that commits on top of what it read. */
  ghost predicate Commits(s: State, t: State, p: nat, job: Job, index: string, selectedAt: int) {
    && t.history == s.history + [Committed(PointerOf(job, LastRead(s), index, selectedAt), job,
                                           ManifestOf(job, LastRead(s), index), index)]
    && At(t, p).Idle? && (forall q :: q != p ==> At(t, q) == At(s, q))
    && (forall k :: k in t.objects && k !in s.objects ==> k.generation == job.attempt)
  }

  /** A publisher that has begun and then runs alone commits, if it can publish. */
  lemma PublishesAlone(merge: Merger, s: State, p: nat, job: Job, index: string, selectedAt: int)
    returns (moves: seq<Move>)
    requires Inv(merge, s) && At(s, p) == Starting(job) && CanPublish(merge, s, job, index)
    ensures Commits(s, RunFrom(merge, s, moves), p, job, index, selectedAt) && NoBegins(moves)
  {
    var a, s2 := UploadsAlone(merge, s, p, job, index);
    var b, s3 := Describes(merge, s, s2, p, job, LastRead(s), index);
    FromConcat(merge, s, a, b);
    var commit := Move(p, Commit(selectedAt), false);
    One(merge, s3, commit);
    FromConcat(merge, s, a + b, [commit]);
    moves := a + b + [commit];
    Swaps(merge, s, s3, p, job, index, selectedAt);
  }

  lemma Describes(merge: Merger, s: State, s2: State, p: nat, job: Job, previous: Option<Previous>, index: string)
    returns (moves: seq<Move>, t: State)
    requires Ours(s, s2, p, job) && At(s2, p) == Uploading(job, previous, index, |job.files|)
    requires Room(s2.objects, job, index, ManifestOf(job, previous, index))
    requires job.signed ==> TrimSpace(job.signingKey) != ""
    ensures RunFrom(merge, s2, moves) == t && At(t, p) == Committing(job, previous, index) && Ours(s, t, p, job)
    ensures NoBegins(moves)
  {
    var packages, describe := Move(p, UploadPackages, false), Move(p, UploadManifest, false);
    One(merge, s2, packages);
    PackagesGoUp(merge, s2, p, job, previous, index, ManifestOf(job, previous, index));
    var s3 := Act(merge, s2, packages);
    OursTrans(s, s2, s3, p, job);
    One(merge, s3, describe);
    ManifestGoesUp(merge, s3, p, job, previous, index);
    t := Act(merge, s3, describe);
    OursTrans(s, s3, t, p, job);
    moves := [packages] + [describe];
    FromConcat(merge, s2, [packages], [describe]);
  }

  lemma Swaps(merge: Merger, s: State, s3: State, p: nat, job: Job, index: string, selectedAt: int)
    requires Inv(merge, s) && Ours(s, s3, p, job) && At(s3, p) == Committing(job, LastRead(s), index)
    ensures Commits(s, Act(merge, s3, Move(p, Commit(selectedAt), false)), p, job, index, selectedAt)
  {
  }

  // --------------------------------------------------------- committing once more

  /** Commit i can be made again on top of the last one. */
  ghost predicate Recommits(merge: Merger, h: seq<Committed>, i: nat)
    requires i < |h|
  {
    RecommitsOver(merge, h[|h| - 1], h[i])
  }

  /** Merging commit x's job into commit c gives back the index and the artifacts of x. */
  ghost predicate RecommitsOver(merge: Merger, c: Committed, x: Committed) {
    && c.job.attempt != x.job.attempt
    && merge(c.index, x.job.index, x.job.created) == Some(x.index)
    && ArtifactMap(c.manifest.artifacts) + ArtifactMap(Added(x.job)) == ArtifactMap(x.manifest.artifacts)
  }

  /** A committed job's objects are all in place. */
  lemma CommittedHasRoom(merge: Merger, s: State, i: nat)
    requires Inv(merge, s) && i < |s.history|
    ensures Room(s.objects, s.history[i].job, s.history[i].index, s.history[i].manifest)
  {
    var c := s.history[i];
    assert Backed(c, s.objects) && Linked(merge, s.history, i);
    ArtifactMapValues(c.manifest.artifacts);
    assert |PACKAGES| != |MANIFEST|;
    forall k | 0 <= k < |c.job.files|
      ensures Key(c.job.attempt, c.job.files[k].path) in s.objects
      ensures s.objects[Key(c.job.attempt, c.job.files[k].path)] == File(c.job.files[k].bytes)
    {
      var a := Added(c.job)[k];
      ArtifactMapLookup(Added(c.job), k);
      assert ArtifactMap(c.manifest.artifacts)[a.path] == a;
      assert a in c.manifest.artifacts;
    }
  }

  /** The manifest written again is the manifest written before. */
  lemma SameManifest(merge: Merger, s: State, i: nat)
    requires Inv(merge, s) && i < |s.history| && Recommits(merge, s.history, i)
    ensures ManifestOf(s.history[i].job, LastRead(s), s.history[i].index) == s.history[i].manifest
  {
    assert Backed(s.history[i], s.objects) && Linked(merge, s.history, i);
  }

  lemma RecommitFits(merge: Merger, s: State, i: nat)
    requires Inv(merge, s) && i < |s.history| && Recommits(merge, s.history, i)
    ensures CanPublish(merge, s, s.history[i].job, s.history[i].index)
  {
    assert Linked(merge, s.history, i) && Backed(s.history[|s.history| - 1], s.objects);
    CommittedHasRoom(merge, s, i);
    SameManifest(merge, s, i);
  }

  lemma SameRoom(merge: Merger, s: State, t: State, job: Job, index: string)
    requires CanPublish(merge, s, job, index) && t == s.(publishers := t.publishers)
    ensures CanPublish(merge, t, job, index)
  {
    assert LastRead(t) == LastRead(s);
  }

  lemma RecommitFrom(merge: Merger, s: State, i: nat, p: nat, selectedAt: int) returns (more: seq<Move>)
    requires Inv(merge, s) && i < |s.history| && Recommits(merge, s.history, i)
    ensures var t := RunFrom(merge, s, more).history;
            |t| == |s.history| + 1 && t[|s.history|].job == s.history[i].job
  {
    var job, index := s.history[i].job, s.history[i].index;
    assert Linked(merge, s.history, i);
    var start := [Move(p, Crash, false), Move(p, Begin(job), false)];
    var s1 := s.(publishers := s.publishers[p := Idle][p := Starting(job)]);
    RecommitFits(merge, s, i);
    SameRoom(merge, s, s1, job, index);
    Begins(merge, s, p, job);
    FromKeeps(merge, s, start);
    var rest := PublishesAlone(merge, s1, p, job, index, selectedAt);
    more := start + rest;
    FromConcat(merge, s, start, rest);
  }

  lemma Begins(merge: Merger, s: State, p: nat, job: Job)
    requires LegalJob(job)
    ensures RunFrom(merge, s, [Move(p, Crash, false), Move(p, Begin(job), false)])
         == s.(publishers := s.publishers[p := Idle][p := Starting(job)])
  {
    var crash, start := Move(p, Crash, false), Move(p, Begin(job), false);
    One(merge, s, crash);
    One(merge, Act(merge, s, crash), start);
    FromConcat(merge, s, [crash], [start]);
    assert [crash] + [start] == [crash, start];
  }

  /** The next commit can be the i-th job's again. */
  ghost predicate MayRecommit(merge: Merger, moves: seq<Move>, i: nat)
    requires i < |Run(merge, moves).history|
  {
    exists more :: CommitsNext(merge, moves, more, Run(merge, moves).history[i].job)
  }

  ghost predicate CommitsNext(merge: Merger, moves: seq<Move>, more: seq<Move>, job: Job) {
    var h, t := Run(merge, moves).history, Run(merge, moves + more).history;
    |t| > |h| && t[|h|].job == job
  }

  /** An attempt already committed can be committed again, by some continuation of the run, exactly when merging it into
      the last commit gives back the index and the artifacts it had. */
  lemma RecommitsExactly(merge: Merger, moves: seq<Move>, i: nat)
    requires i < |Run(merge, moves).history|
    ensures MayRecommit(merge, moves, i) <==> Recommits(merge, Run(merge, moves).history, i)
  {
    var h := Run(merge, moves).history;
    if Recommits(merge, h, i) {
      RunKeeps(merge, moves);
      var more := RecommitFrom(merge, Run(merge, moves), i, 0, 0);
      RunThen(merge, moves, more);
      assert CommitsNext(merge, moves, more, h[i].job);
    }
    if MayRecommit(merge, moves, i) {
      var more :| CommitsNext(merge, moves, more, h[i].job);
      RunGrows(merge, moves, more);
      RunKeeps(merge, moves + more);
      RecommitForces(merge, Run(merge, moves + more), h, i);
    }
  }

  lemma RecommitForces(merge: Merger, t: State, h: seq<Committed>, i: nat)
    requires Inv(merge, t) && h <= t.history && i < |h| < |t.history| && t.history[|h|].job == h[i].job
    ensures Recommits(merge, h, i)
  {
    assert Linked(merge, t.history, |h|);
    assert Backed(t.history[|h|], t.objects) && Backed(t.history[|h| - 1], t.objects)
           && Backed(t.history[i], t.objects);
    assert t.history[i] == h[i] && t.history[|h| - 1] == h[|h| - 1];
  }

  // -------------------------------------------------------------- a run that returns

  ghost predicate PlainFiles(job: Job) {
    forall k :: 0 <= k < |job.files| ==> job.files[k].path != PACKAGES && job.files[k].path != MANIFEST
  }

  /** Two jobs over the same paths whose indexes undo each other. */
  ghost predicate Rivals(merge: Merger, a: Job, b: Job, ia: string, ib: string) {
    && LegalJob(a) && LegalJob(b) && PlainFiles(a) && PlainFiles(b) && a.attempt != b.attempt
    && (a.signed ==> TrimSpace(a.signingKey) != "") && (b.signed ==> TrimSpace(b.signingKey) != "")
    && ArtifactMap(Added(a)).Keys == ArtifactMap(Added(b)).Keys
    && merge("", a.index, a.created) == Some(ia)
    && merge(ia, b.index, b.created) == Some(ib)
    && merge(ib, a.index, a.created) == Some(ia)
  }

  function Opening(a: Job, b: Job): seq<Move> {
    [Move(0, Begin(a), false), Move(1, Begin(b), false), Move(2, Begin(a), false)]
  }

  lemma OpeningState(merge: Merger, a: Job, b: Job)
    requires LegalJob(a) && LegalJob(b)
    ensures var s := Run(merge, Opening(a, b));
            && s.objects == map[] && s.pointer == None && s.history == []
            && At(s, 0) == Starting(a) && At(s, 1) == Starting(b) && At(s, 2) == Starting(a)
  {
    var m := Opening(a, b);
    var s1 := INITIAL.(publishers := map[0 := Starting(a)]);
    var s2 := INITIAL.(publishers := map[0 := Starting(a), 1 := Starting(b)]);
    assert m[..2][..1] == m[..1] && m[..1][..0] == [];
    assert Run(merge, []) == INITIAL;
    assert Run(merge, m[..1]) == s1;
    assert Run(merge, m[..2]) == s2;
  }

  lemma SecondFits(merge: Merger, s: State, s1: State, a: Job, b: Job, ib: string)
    requires Inv(merge, s1) && |s1.history| == 1 && s1.history[0].pointer.generation == a.attempt != b.attempt
    requires LegalJob(b) && PlainFiles(b) && (b.signed ==> TrimSpace(b.signingKey) != "")
    requires merge(s1.history[0].index, b.index, b.created) == Some(ib)
    requires s.objects == map[] && forall k :: k in s1.objects && k !in s.objects ==> k.generation == a.attempt
    ensures CanPublish(merge, s1, b, ib)
  {
  }

  /** The state after commits of a and b, with the third publisher still at its start. */
  ghost predicate TwoDone(merge: Merger, s: State, a: Job, b: Job, ia: string, ib: string) {
    && Inv(merge, s) && At(s, 2) == Starting(a)
    && |s.history| == 2 && s.history[0].job == a && s.history[0].index == ia
    && s.history[1].job == b && s.history[1].index == ib
  }

  lemma FirstCommit(merge: Merger, a: Job, b: Job, ia: string, ib: string) returns (moves: seq<Move>, s1: State)
    requires Rivals(merge, a, b, ia, ib)
    ensures RunFrom(merge, Run(merge, Opening(a, b)), moves) == s1 && NoBegins(moves) && Inv(merge, s1)
    ensures |s1.history| == 1 && s1.history[0].job == a && s1.history[0].index == ia
    ensures At(s1, 1) == Starting(b) && At(s1, 2) == Starting(a) && CanPublish(merge, s1, b, ib)
  {
    var s := Run(merge, Opening(a, b));
    OpeningState(merge, a, b);
    RunKeeps(merge, Opening(a, b));
    moves := PublishesAlone(merge, s, 0, a, ia, 0);
    s1 := RunFrom(merge, s, moves);
    FromKeeps(merge, s, moves);
    LinkOf(merge, s1, 0);
    SecondFits(merge, s, s1, a, b, ib);
  }

  /** The first two publishers commit in turn. */
  lemma TwoCommits(merge: Merger, a: Job, b: Job, ia: string, ib: string) returns (moves: seq<Move>, s2: State)
    requires Rivals(merge, a, b, ia, ib)
    ensures RunFrom(merge, Run(merge, Opening(a, b)), moves) == s2 && NoBegins(moves)
    ensures TwoDone(merge, s2, a, b, ia, ib)
  {
    var first, s1 := FirstCommit(merge, a, b, ia, ib);
    var second := PublishesAlone(merge, s1, 1, b, ib, 0);
    s2 := RunFrom(merge, s1, second);
    FromKeeps(merge, s1, second);
    FromConcat(merge, Run(merge, Opening(a, b)), first, second);
    moves := first + second;
  }

  lemma LinkOf(merge: Merger, s: State, i: nat)
    requires Inv(merge, s) && i < |s.history|
    ensures ArtifactMap(s.history[i].manifest.artifacts)
         == PathsBefore(s.history, i) + ArtifactMap(Added(s.history[i].job))
    ensures s.history[i].pointer.generation == s.history[i].job.attempt
    ensures s.history[i].pointer.previous == if i == 0 then None else Some(s.history[i - 1].pointer.generation)
  {
    assert Linked(merge, s.history, i);
    assert Backed(s.history[i], s.objects);
  }

  lemma Overridden(a: map<string, Artifact>, b: map<string, Artifact>)
    requires a.Keys == b.Keys
    ensures map[] + a + b + a == a
  {
    assert (map[] + a + b + a).Keys == a.Keys;
  }

  lemma RivalsReturn(merge: Merger, s: State, a: Job, b: Job, ia: string, ib: string)
    requires Rivals(merge, a, b, ia, ib) && TwoDone(merge, s, a, b, ia, ib)
    ensures Recommits(merge, s.history, 0)
  {
    LinkOf(merge, s, 0);
    LinkOf(merge, s, 1);
    var ma, mb := ArtifactMap(Added(a)), ArtifactMap(Added(b));
    Overridden(ma, mb);
    assert map[] + ma == ma;
  }

  /** All three publishers begin before anything is committed. The first commits a, the second commits b, and the
      third, replaying a, takes the channel back: by generation ID the chain of predecessors is a cycle. */
  lemma GenerationsCanCycle(merge: Merger, a: Job, b: Job, ia: string, ib: string) returns (moves: seq<Move>)
    requires Rivals(merge, a, b, ia, ib)
    ensures Opening(a, b) <= moves && NoBegins(moves[3..]) && Run(merge, Opening(a, b)).history == []
    ensures var h := Run(merge, moves).history;
            && |h| == 3
            && h[0].pointer.generation == a.attempt && h[0].pointer.previous == None
            && h[1].pointer.generation == b.attempt && h[1].pointer.previous == Some(a.attempt)
            && h[2].pointer.generation == a.attempt && h[2].pointer.previous == Some(b.attempt)
            && h[2].manifest == h[0].manifest && h[2].index == h[0].index
  {
    OpeningState(merge, a, b);
    var rest := CycleRun(merge, a, b, ia, ib);
    moves := Opening(a, b) + rest;
    assert moves[3..] == rest;
    RunThen(merge, Opening(a, b), rest);
    RunKeeps(merge, moves);
    CycleLinks(merge, Run(merge, moves), a, b);
  }

  lemma CycleRun(merge: Merger, a: Job, b: Job, ia: string, ib: string) returns (moves: seq<Move>)
    requires Rivals(merge, a, b, ia, ib)
    ensures NoBegins(moves)
    ensures var h := RunFrom(merge, Run(merge, Opening(a, b)), moves).history;
            |h| == 3 && h[0].job == a && h[1].job == b && h[2].job == a
  {
    var two, s2 := TwoCommits(merge, a, b, ia, ib);
    RivalsReturn(merge, s2, a, b, ia, ib);
    RecommitFits(merge, s2, 0);
    var third := PublishesAlone(merge, s2, 2, a, ia, 0);
    FromConcat(merge, Run(merge, Opening(a, b)), two, third);
    moves := two + third;
  }

  lemma CycleLinks(merge: Merger, t: State, a: Job, b: Job)
    requires Inv(merge, t) && |t.history| == 3
    requires t.history[0].job == a && t.history[1].job == b && t.history[2].job == a
    ensures var h := t.history;
            && h[0].pointer.generation == a.attempt && h[0].pointer.previous == None
            && h[1].pointer.generation == b.attempt && h[1].pointer.previous == Some(a.attempt)
            && h[2].pointer.generation == a.attempt && h[2].pointer.previous == Some(b.attempt)
            && h[2].manifest == h[0].manifest && h[2].index == h[0].index
  {
    LinkOf(merge, t, 0);
    LinkOf(merge, t, 1);
    LinkOf(merge, t, 2);
    assert Backed(t.history[0], t.objects) && Backed(t.history[2], t.objects);
  }

  // --------------------------------------------------------- when IDs do not repeat

  ghost predicate DistinctGenerations(history: seq<Committed>) {
    forall i, j :: 0 <= i < j < |history| ==> history[i].job.attempt != history[j].job.attempt
  }

  ghost predicate Uncommitted(history: seq<Committed>, n: nat, attempt: string)
    requires n <= |history|
  {
    forall k :: 0 <= k < n ==> history[k].job.attempt != attempt
  }

  /** The pointer was read before the attempt was committed. */
  ghost predicate ReadBefore(history: seq<Committed>, pointer: Pointer, attempt: string) {
    exists r :: 0 <= r < |history| && history[r].pointer == pointer && Uncommitted(history, r + 1, attempt)
  }

  ghost predicate Clear(history: seq<Committed>, x: Publisher) {
    match x
    case Idle => true
    case Starting(_) => true
    case Reading(job, pointer) => ReadBefore(history, pointer, job.attempt)
    case Checking(job, pointer, _) => ReadBefore(history, pointer, job.attempt)
    case Uploading(job, previous, _, _) => previous.Some? ==> ReadBefore(history, previous.value.pointer, job.attempt)
    case Describing(job, previous, _) => previous.Some? ==> ReadBefore(history, previous.value.pointer, job.attempt)
    case Committing(job, previous, _) => previous.Some? ==> ReadBefore(history, previous.value.pointer, job.attempt)
  }

  ghost predicate AllClear(s: State) {
    forall p :: Clear(s.history, At(s, p))
  }

  /** The move, if it reads the channel for a new publication, reads it for an attempt not committed so far. */
  ghost predicate ReadsUncommitted(s: State, move: Move) {
    At(s, move.publisher).Starting? && move.event.ReadChannel?
    ==> Uncommitted(s.history, |s.history|, At(s, move.publisher).job.attempt)
  }

  lemma ClearGrows(history: seq<Committed>, longer: seq<Committed>, x: Publisher)
    requires Clear(history, x) && history <= longer
    ensures Clear(longer, x)
  {
    if (x.Reading? || x.Checking?) {
      ReadBeforeGrows(history, longer, x.pointer, x.job.attempt);
    } else if (x.Uploading? || x.Describing? || x.Committing?) && x.previous.Some? {
      ReadBeforeGrows(history, longer, x.previous.value.pointer, x.job.attempt);
    }
  }

  lemma ReadBeforeGrows(history: seq<Committed>, longer: seq<Committed>, pointer: Pointer, attempt: string)
    requires ReadBefore(history, pointer, attempt) && history <= longer
    ensures ReadBefore(longer, pointer, attempt)
  {
    var r :| 0 <= r < |history| && history[r].pointer == pointer && Uncommitted(history, r + 1, attempt);
    assert longer[r].pointer == pointer && Uncommitted(longer, r + 1, attempt);
  }

  /** The swap succeeds only on the last pointer, which under distinct generations was read last of all. */
  lemma SwapIsNew(merge: Merger, s: State, p: nat, job: Job, previous: Option<Previous>, index: string, selectedAt: int)
    requires Inv(merge, s) && DistinctGenerations(s.history) && Clear(s.history, Committing(job, previous, index))
    ensures DistinctGenerations(Swapped(s, p, job, previous, index, selectedAt).history)
  {
    if previous.Some? && s.pointer == Some(previous.value.pointer) {
      var last := |s.history| - 1;
      var r :| 0 <= r < |s.history| && s.history[r].pointer == previous.value.pointer
               && Uncommitted(s.history, r + 1, job.attempt);
      assert Backed(s.history[r], s.objects) && Backed(s.history[last], s.objects);
      assert r == last;
    }
  }

  /** What a publisher has read does not change after its first read. */
  lemma ReadStays(merge: Merger, s: State, p: nat, event: Event)
    requires Clear(s.history, At(s, p)) && !At(s, p).Starting?
    ensures Clear(s.history, At(Effect(merge, s, p, event), p))
  {
  }

  lemma FirstReadIsClear(merge: Merger, s: State, p: nat, event: Event)
    requires Inv(merge, s) && At(s, p).Starting? && ReadsUncommitted(s, Move(p, event, false))
    ensures Clear(s.history, At(Effect(merge, s, p, event), p))
  {
    if event.ReadChannel? && s.pointer.Some? {
      assert s.history[|s.history| - 1].pointer == s.pointer.value;
      assert ReadBefore(s.history, s.pointer.value, At(s, p).job.attempt);
    }
  }

  lemma OthersStay(merge: Merger, s: State, move: Move, q: nat)
    requires q != move.publisher
    ensures At(Act(merge, s, move), q) == At(s, q)
  {
    assert At(Effect(merge, s, move.publisher, move.event), q) == At(s, q);
  }

  lemma OwnPosition(merge: Merger, s: State, move: Move)
    ensures var x := At(Act(merge, s, move), move.publisher);
            x.Idle? || (!move.event.Crash? && x == At(Effect(merge, s, move.publisher, move.event), move.publisher))
  {
  }

  lemma ActAllClear(merge: Merger, s: State, move: Move)
    requires Inv(merge, s) && AllClear(s) && ReadsUncommitted(s, move)
    ensures AllClear(Act(merge, s, move))
  {
    var p, t := move.publisher, Act(merge, s, move);
    ActGrows(merge, s, move);
    OwnPosition(merge, s, move);
    assert Clear(s.history, At(s, p));
    if At(s, p).Starting? {
      FirstReadIsClear(merge, s, p, move.event);
    } else {
      ReadStays(merge, s, p, move.event);
    }
    forall q ensures Clear(t.history, At(t, q)) {
      if q != p {
        OthersStay(merge, s, move, q);
        assert Clear(s.history, At(s, q));
        ClearGrows(s.history, t.history, At(s, q));
      } else if !At(t, q).Idle? {
        ClearGrows(s.history, t.history, At(t, q));
      }
    }
  }

  lemma ActDistinct(merge: Merger, s: State, move: Move)
    requires Inv(merge, s) && AllClear(s) && DistinctGenerations(s.history)
    ensures DistinctGenerations(Act(merge, s, move).history)
  {
    var x := At(s, move.publisher);
    assert Clear(s.history, x);
    if x.Committing? && move.event.Commit? {
      SwapIsNew(merge, s, move.publisher, x.job, x.previous, x.index, move.event.selectedAt);
    }
  }

  /** Every publisher reads the channel for an attempt that has not been committed by then. */
  ghost predicate ReadsAreNew(merge: Merger, moves: seq<Move>) {
    forall k :: 0 <= k < |moves| ==> ReadsUncommitted(Run(merge, moves[..k]), moves[k])
  }

  lemma {:induction false} RunClear(merge: Merger, moves: seq<Move>)
    requires ReadsAreNew(merge, moves)
    ensures AllClear(Run(merge, moves)) && DistinctGenerations(Run(merge, moves).history)
  {
    if |moves| > 0 {
      var n := |moves| - 1;
      assert forall k :: 0 <= k < n ==> moves[..n][..k] == moves[..k];
      RunClear(merge, moves[..n]);
      RunKeeps(merge, moves[..n]);
      ActAllClear(merge, Run(merge, moves[..n]), moves[n]);
      ActDistinct(merge, Run(merge, moves[..n]), moves[n]);
    }
  }

  /** If every publisher reads the channel for an attempt not committed by then, no generation ID occurs twice. */
  lemma GenerationsStayDistinct(merge: Merger, moves: seq<Move>, i: nat, j: nat)
    requires ReadsAreNew(merge, moves) && i < j < |Run(merge, moves).history|
    ensures Run(merge, moves).history[i].pointer.generation != Run(merge, moves).history[j].pointer.generation
  {
    RunClear(merge, moves);
    RunKeeps(merge, moves);
    LinkOf(merge, Run(merge, moves), i);
    LinkOf(merge, Run(merge, moves), j);
  }

  // ---------------------------------------------------------- attempts begun anew

  /** The attempt is neither committed nor in the hands of a publisher. */
  ghost predicate Unused(s: State, attempt: string) {
    && Uncommitted(s.history, |s.history|, attempt)
    && forall p :: !At(s, p).Idle? ==> At(s, p).job.attempt != attempt
  }

  /** No attempt is begun after its commit, nor while a publisher still works on it. */
  ghost predicate BeginsAreNew(merge: Merger, moves: seq<Move>) {
    forall k :: 0 <= k < |moves| && moves[k].event.Begin? ==> Unused(Run(merge, moves[..k]), moves[k].event.job.attempt)
  }

  /** Each attempt is with one publisher or in a commit. */
  ghost predicate Sole(s: State) {
    && (forall p, q :: p != q && !At(s, p).Idle? && !At(s, q).Idle? ==> At(s, p).job.attempt != At(s, q).job.attempt)
    && (forall p :: !At(s, p).Idle? ==> Uncommitted(s.history, |s.history|, At(s, p).job.attempt))
  }

  lemma SameJob(merge: Merger, s: State, move: Move)
    ensures var t := Act(merge, s, move); var x, y := At(s, move.publisher), At(t, move.publisher);
            && (y.Idle? || (x.Idle? && move.event.Begin? && y.job == move.event.job) || (!x.Idle? && y.job == x.job))
            && (t.history == s.history
                || (!x.Idle? && y.Idle? && |t.history| == |s.history| + 1 && s.history <= t.history
                    && t.history[|s.history|].job == x.job))
  {
  }

  lemma ActSole(merge: Merger, s: State, move: Move)
    requires Sole(s) && (move.event.Begin? ==> Unused(s, move.event.job.attempt))
    ensures Sole(Act(merge, s, move))
  {
    var p, t := move.publisher, Act(merge, s, move);
    SameJob(merge, s, move);
    forall q | q != p ensures At(t, q) == At(s, q) {
      OthersStay(merge, s, move, q);
    }
    SoleStep(s, t, move);
  }

  lemma SoleStep(s: State, t: State, move: Move)
    requires Sole(s) && (move.event.Begin? ==> Unused(s, move.event.job.attempt))
    requires forall q :: q != move.publisher ==> At(t, q) == At(s, q)
    requires var x, y := At(s, move.publisher), At(t, move.publisher);
             && (y.Idle? || (x.Idle? && move.event.Begin? && y.job == move.event.job) || (!x.Idle? && y.job == x.job))
             && (t.history == s.history
                 || (!x.Idle? && y.Idle? && |t.history| == |s.history| + 1 && s.history <= t.history
                     && t.history[|s.history|].job == x.job))
    ensures Sole(t)
  {
  }

  lemma {:induction false} RunSole(merge: Merger, moves: seq<Move>)
    requires BeginsAreNew(merge, moves)
    ensures Sole(Run(merge, moves))
  {
    if |moves| > 0 {
      var n := |moves| - 1;
      assert forall k :: 0 <= k < n ==> moves[..n][..k] == moves[..k];
      RunSole(merge, moves[..n]);
      ActSole(merge, Run(merge, moves[..n]), moves[n]);
    }
  }

  /** If no attempt is begun after its commit or while a publisher still works on it, generation IDs are unique. In the
      run of GenerationsCanCycle nothing is begun after a commit, so the second half of the condition is needed. */
  lemma BegunAnewStaysDistinct(merge: Merger, moves: seq<Move>, i: nat, j: nat)
    requires BeginsAreNew(merge, moves) && i < j < |Run(merge, moves).history|
    ensures Run(merge, moves).history[i].pointer.generation != Run(merge, moves).history[j].pointer.generation
  {
    forall k | 0 <= k < |moves| ensures ReadsUncommitted(Run(merge, moves[..k]), moves[k]) {
      forall n | 0 <= n < k && moves[..k][n].event.Begin?
        ensures Unused(Run(merge, moves[..k][..n]), moves[..k][n].event.job.attempt)
      {
        assert moves[..k][..n] == moves[..n];
      }
      RunSole(merge, moves[..k]);
    }
    GenerationsStayDistinct(merge, moves, i, j);
  }
}
