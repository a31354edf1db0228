/** Publication of immutable generations behind one compare-and-swap channel pointer
    (internal/builder/manager.go), as a machine over any number of publishers. */
module Publication {
  import opened Text
  import opened Ordering

  // ------------------------------------------------------------------- objects

  /** The storage key of one object of one generation of the channel. */
  datatype Key = Key(generation: string, name: string)

  /** SHA-256, taken to be injective: a digest determines the object. */
  datatype Digest = Sha256(content: Object)

  datatype Object = File(bytes: string) | Document(manifest: Manifest)

  datatype Artifact = Artifact(path: string, digest: Digest, key: Key)

  datatype Manifest = Manifest(
    generation: string, signingKey: string, packages: Digest, artifacts: seq<Artifact>, created: int)

  datatype Pointer = Pointer(
    generation: string, manifestKey: Key, manifest: Digest, packages: Digest, previous: Option<string>, selectedAt: int)

  const PACKAGES := "Packages"
  const MANIFEST := "manifest.json"

  datatype Staged = Staged(path: string, bytes: string)

  /** One verified attempt. The generation ID is an injective hash of the attempt ID, so the two are identified. */
  datatype Job = Job(
    attempt: string, created: int, signed: bool, signingKey: string, files: seq<Staged>, index: string)

  /** loadPreviousPublication's result. */
  datatype Previous = Previous(pointer: Pointer, manifest: Manifest, packages: string)

  type Merger = (string, string, int) -> Option<string>

  ghost predicate LegalJob(job: Job) {
    forall i, j :: 0 <= i < j < |job.files| ==> job.files[i].path != job.files[j].path
  }

  // ------------------------------------------------------------- artifact maps

  function ArtifactMap(list: seq<Artifact>): map<string, Artifact> {
    if |list| == 0 then map[]
    else ArtifactMap(list[..|list| - 1])[list[|list| - 1].path := list[|list| - 1]]
  }

  lemma {:induction false} ArtifactMapValues(list: seq<Artifact>)
    ensures forall p :: p in ArtifactMap(list) ==> ArtifactMap(list)[p] in list && ArtifactMap(list)[p].path == p
    ensures forall k :: 0 <= k < |list| ==> list[k].path in ArtifactMap(list)
  {
    var n := |list| - 1;
    if n >= 0 {
      ArtifactMapValues(list[..n]);
      forall k | 0 <= k < |list| ensures list[k].path in ArtifactMap(list) {
        assert k < n ==> list[..n][k] == list[k];
      }
    }
  }

  lemma {:induction false} ArtifactMapLookup(list: seq<Artifact>, k: nat)
    requires k < |list| && forall i :: k < i < |list| ==> list[i].path != list[k].path
    ensures list[k].path in ArtifactMap(list) && ArtifactMap(list)[list[k].path] == list[k]
  {
    var n := |list| - 1;
    if k < n {
      ArtifactMapLookup(list[..n], k);
    }
  }

  ghost predicate OwnPaths(m: map<string, Artifact>) {
    forall p :: p in m ==> m[p].path == p
  }

  /** The artifacts of a map, sorted by path. */
  ghost function ListOf(m: map<string, Artifact>): (list: seq<Artifact>)
    ensures |list| == |Listing(Less, m.Keys)|
    ensures forall k :: 0 <= k < |list| ==> Listing(Less, m.Keys)[k] in m && list[k] == m[Listing(Less, m.Keys)[k]]
  {
    ListedKeys(m);
    var paths := Listing(Less, m.Keys);
    seq(|paths|, k requires 0 <= k < |paths| => m[paths[k]])
  }

  lemma ListedKeys(m: map<string, Artifact>)
    ensures Elements(Listing(Less, m.Keys)) == m.Keys
    ensures forall k :: 0 <= k < |Listing(Less, m.Keys)| ==> Listing(Less, m.Keys)[k] in m
    ensures Distinct(Listing(Less, m.Keys)) && Ordered(Less, Listing(Less, m.Keys))
  {
    var paths := Listing(Less, m.Keys);
    ListingElements(Less, m.Keys);
    forall k | 0 <= k < |paths| ensures paths[k] in m {
      assert paths[k] in Elements(paths);
    }
    LessIsStrict();
    LessIsTotalOn(m.Keys);
    ListingOrdered(Less, m.Keys);
    OrderedDistinct(Less, paths);
  }

  lemma ListOfPaths(m: map<string, Artifact>)
    requires OwnPaths(m)
    ensures forall k :: 0 <= k < |ListOf(m)| ==> ListOf(m)[k].path == Listing(Less, m.Keys)[k]
    ensures forall i, j :: 0 <= i < j < |ListOf(m)| ==> ListOf(m)[i].path != ListOf(m)[j].path
  {
    ListedKeys(m);
  }

  /** Writing a map as a sorted list loses nothing. */
  lemma ListOfReadsBack(m: map<string, Artifact>)
    requires OwnPaths(m)
    ensures ArtifactMap(ListOf(m)) == m
  {
    ListOfPaths(m);
    var list := ListOf(m);
    var paths := Listing(Less, m.Keys);
    ArtifactMapValues(list);
    ListingElements(Less, m.Keys);
    forall p | p in m ensures p in ArtifactMap(list) && ArtifactMap(list)[p] == m[p] {
      assert p in Elements(paths);
      var k :| 0 <= k < |paths| && paths[k] == p;
      ArtifactMapLookup(list, k);
    }
    forall p | p in ArtifactMap(list) ensures p in m {
      var k :| 0 <= k < |list| && list[k] == ArtifactMap(list)[p];
    }
  }

  /** The artifacts a job adds, with their object keys. */
  function Added(job: Job): (list: seq<Artifact>)
    ensures |list| == |job.files|
    ensures forall k :: 0 <= k < |list| ==>
              list[k] == Artifact(job.files[k].path, Sha256(File(job.files[k].bytes)), Key(job.attempt,
                  job.files[k].path))
  {
    seq(|job.files|, k requires 0 <= k < |job.files| =>
      Artifact(job.files[k].path, Sha256(File(job.files[k].bytes)), Key(job.attempt, job.files[k].path)))
  }

  function Inherited(previous: Option<Previous>): map<string, Artifact> {
    if previous.None? then map[] else ArtifactMap(previous.value.manifest.artifacts)
  }

  function Merged(previous: Option<Previous>, job: Job): map<string, Artifact> {
    Inherited(previous) + ArtifactMap(Added(job))
  }

  lemma MergedKeyed(previous: Option<Previous>, job: Job)
    ensures OwnPaths(Merged(previous, job))
  {
    ArtifactMapValues(Added(job));
    if previous.Some? {
      ArtifactMapValues(previous.value.manifest.artifacts);
    }
  }

  function SigningKey(job: Job): string {
    if job.signed then TrimSpace(job.signingKey) else "unsigned"
  }

  ghost function ManifestOf(job: Job, previous: Option<Previous>, index: string): Manifest {
    Manifest(job.attempt, SigningKey(job), Sha256(File(index)), ListOf(Merged(previous, job)), job.created)
  }

  ghost function PointerOf(job: Job, previous: Option<Previous>, index: string, selectedAt: int): Pointer {
    Pointer(job.attempt, Key(job.attempt, MANIFEST), Sha256(Document(ManifestOf(job, previous, index))),
            Sha256(File(index)), if previous.None? then None else Some(previous.value.pointer.generation), selectedAt)
  }

  // ------------------------------------------------------------------- machine

  /** Where one publisher stands in publishObjectGeneration. */
  datatype Publisher =
    | Idle
    | Starting(job: Job)
    | Reading(job: Job, pointer: Pointer)
    | Checking(job: Job, pointer: Pointer, manifest: Manifest)
    | Uploading(job: Job, previous: Option<Previous>, index: string, done: nat)
    | Describing(job: Job, previous: Option<Previous>, index: string)
    | Committing(job: Job, previous: Option<Previous>, index: string)

  datatype Event =
    | Begin(job: Job) | ReadChannel | ReadManifest | ReadPackages
    | UploadArtifact | UploadPackages | UploadManifest | Commit(selectedAt: int) | Crash

  /** One step of one publisher. When the reply is lost the step takes effect but the publisher gives up. */
  datatype Move = Move(publisher: nat, event: Event, lost: bool)

  datatype Committed = Committed(pointer: Pointer, job: Job, manifest: Manifest, index: string)

  datatype State = State(
    objects: map<Key, Object>, pointer: Option<Pointer>, publishers: map<nat, Publisher>, history: seq<Committed>)

  const INITIAL := State(map[], None, map[], [])

  function At(s: State, p: nat): Publisher {
    if p in s.publishers then s.publishers[p] else Idle
  }

  /** Objects are created once; writing the same bytes again is accepted, different bytes are not. */
  function Upload(objects: map<Key, Object>, key: Key, stored: Object): Option<map<Key, Object>> {
    if key !in objects then Some(objects[key := stored])
    else if objects[key] == stored then Some(objects)
    else None
  }

  /** After loading: return at once if the channel already names this attempt, otherwise merge the indexes. */
  ghost function Prepare(merge: Merger, job: Job, previous: Option<Previous>): Publisher {
    if previous.Some? && previous.value.pointer.generation == job.attempt then Idle
    else
      var older := if previous.None? then "" else previous.value.packages;
      match merge(older, job.index, job.created)
      case None => Idle
      case Some(index) => Uploading(job, previous, index, 0)
  }

  ghost function LoadManifest(s: State, job: Job, pointer: Pointer): Publisher {
    if pointer.manifestKey !in s.objects then Idle
    else
      var stored := s.objects[pointer.manifestKey];
      if Sha256(stored) != pointer.manifest || !stored.Document? then Idle
      else if stored.manifest.generation != pointer.generation || stored.manifest.packages != pointer.packages then Idle
      else Checking(job, pointer, stored.manifest)
  }

  ghost function LoadPackages(merge: Merger, s: State, job: Job, pointer: Pointer, manifest: Manifest): Publisher {
    var key := Key(pointer.generation, PACKAGES);
    if key !in s.objects then Idle
    else
      var stored := s.objects[key];
      if Sha256(stored) != pointer.packages || !stored.File? then Idle
      else Prepare(merge, job, Some(Previous(pointer, manifest, stored.bytes)))
  }

  /** The publisher's next position after an upload, and the objects it leaves. */
  ghost function Uploaded(s: State, p: nat, key: Key, stored: Object, next: Publisher): State {
    match Upload(s.objects, key, stored)
    case None => s.(publishers := s.publishers[p := Idle])
    case Some(objects) => s.(objects := objects, publishers := s.publishers[p := next])
  }

  ghost function Swapped(s: State, p: nat, job: Job, previous: Option<Previous>, index: string,
      selectedAt: int): State {
    var read := if previous.None? then None else Some(previous.value.pointer);
    if s.pointer != read then s.(publishers := s.publishers[p := Idle])
    else
      var pointer := PointerOf(job, previous, index, selectedAt);
      s.(pointer := Some(pointer), publishers := s.publishers[p := Idle],
         history := s.history + [Committed(pointer, job, ManifestOf(job, previous, index), index)])
  }

  /** The effect of an event when the reply arrives; an event that does not fit leaves the state alone. */
  ghost function Effect(merge: Merger, s: State, p: nat, event: Event): State {
    match At(s, p)
    case Idle => if event.Begin? && LegalJob(event.job) then s.(publishers := s.publishers[p := Starting(event.job)])
        else s
    case Starting(job) =>
      if !event.ReadChannel? then s
      else if s.pointer.None? then s.(publishers := s.publishers[p := Prepare(merge, job, None)])
      else s.(publishers := s.publishers[p := Reading(job, s.pointer.value)])
    case Reading(job, pointer) =>
      if !event.ReadManifest? then s else s.(publishers := s.publishers[p := LoadManifest(s, job, pointer)])
    case Checking(job, pointer, manifest) =>
      if !event.ReadPackages? then s
      else s.(publishers := s.publishers[p := LoadPackages(merge, s, job, pointer, manifest)])
    case Uploading(job, previous, index, done) =>
      if event.UploadArtifact? && done < |job.files| then
        Uploaded(s, p, Key(job.attempt, job.files[done].path), File(job.files[done].bytes),
                 Uploading(job, previous, index, done + 1))
      else if event.UploadPackages? && done >= |job.files| then
        Uploaded(s, p, Key(job.attempt, PACKAGES), File(index), Describing(job, previous, index))
      else s
    case Describing(job, previous, index) =>
      if !event.UploadManifest? then s
      else if job.signed && TrimSpace(job.signingKey) == "" then s.(publishers := s.publishers[p := Idle])
      else Uploaded(s, p, Key(job.attempt, MANIFEST), Document(ManifestOf(job, previous, index)),
                    Committing(job, previous, index))
    case Committing(job, previous, index) =>
      if !event.Commit? then s else Swapped(s, p, job, previous, index, event.selectedAt)
  }

  ghost function Act(merge: Merger, s: State, move: Move): State {
    var after := if move.event.Crash? then s else Effect(merge, s, move.publisher, move.event);
    if move.event.Crash? || move.lost then after.(publishers := after.publishers[move.publisher := Idle]) else after
  }

  ghost function Run(merge: Merger, moves: seq<Move>): State {
    if |moves| == 0 then INITIAL else Act(merge, Run(merge, moves[..|moves| - 1]), moves[|moves| - 1])
  }

  // ----------------------------------------------------------------- invariant

  /** The objects a committed pointer promises are there. */
  ghost predicate Backed(c: Committed, objects: map<Key, Object>) {
    && c.pointer.generation == c.job.attempt == c.manifest.generation
    && c.pointer.manifestKey == Key(c.job.attempt, MANIFEST)
    && c.pointer.manifestKey in objects && objects[c.pointer.manifestKey] == Document(c.manifest)
    && c.pointer.manifest == Sha256(Document(c.manifest))
    && Key(c.job.attempt, PACKAGES) in objects && objects[Key(c.job.attempt, PACKAGES)] == File(c.index)
    && c.pointer.packages == Sha256(File(c.index)) == c.manifest.packages
    && ArtifactsBacked(c.manifest.artifacts, objects)
  }

  ghost predicate ArtifactsBacked(list: seq<Artifact>, objects: map<Key, Object>) {
    forall a :: a in list ==> a.key in objects && a.digest == Sha256(objects[a.key])
  }

  ghost predicate Extends(objects: map<Key, Object>, more: map<Key, Object>) {
    forall k :: k in objects ==> k in more && more[k] == objects[k]
  }

  ghost function PathsBefore(history: seq<Committed>, i: nat): map<string, Artifact>
    requires i <= |history|
  {
    if i == 0 then map[] else ArtifactMap(history[i - 1].manifest.artifacts)
  }

  ghost function IndexBefore(history: seq<Committed>, i: nat): string
    requires i <= |history|
  {
    if i == 0 then "" else history[i - 1].index
  }

  /** Commit i extends commit i - 1 and nothing else. */
  ghost predicate Linked(merge: Merger, history: seq<Committed>, i: nat)
    requires i < |history|
  {
    var c := history[i];
    && c.pointer.previous == (if i == 0 then None else Some(history[i - 1].pointer.generation))
    && (i > 0 ==> c.pointer.generation != history[i - 1].pointer.generation)
    && ArtifactMap(c.manifest.artifacts) == PathsBefore(history, i) + ArtifactMap(Added(c.job))
    && c.manifest.artifacts == ListOf(ArtifactMap(c.manifest.artifacts)) && c.manifest.created == c.job.created
    && merge(IndexBefore(history, i), c.job.index, c.job.created) == Some(c.index)
    && LegalJob(c.job)
    && c.manifest.signingKey == SigningKey(c.job) && (c.job.signed ==> c.manifest.signingKey != "")
  }

  ghost predicate Known(history: seq<Committed>, previous: Previous) {
    exists i :: 0 <= i < |history| && Recorded(history[i], previous)
  }

  ghost predicate Recorded(c: Committed, previous: Previous) {
    c.pointer == previous.pointer && c.manifest == previous.manifest && c.index == previous.packages
  }

  ghost predicate Prepared(merge: Merger, history: seq<Committed>, job: Job, previous: Option<Previous>,
      index: string) {
    && LegalJob(job)
    && (previous.Some? ==> Known(history, previous.value) && previous.value.pointer.generation != job.attempt)
    && merge(if previous.None? then "" else previous.value.packages, job.index, job.created) == Some(index)
  }

  ghost predicate FilesUp(objects: map<Key, Object>, job: Job, n: nat) {
    && n <= |job.files|
    && forall k :: 0 <= k < n ==>
         Key(job.attempt, job.files[k].path) in objects
         && objects[Key(job.attempt, job.files[k].path)] == File(job.files[k].bytes)
  }

  ghost predicate PackagesUp(objects: map<Key, Object>, job: Job, index: string) {
    Key(job.attempt, PACKAGES) in objects && objects[Key(job.attempt, PACKAGES)] == File(index)
  }

  ghost predicate PointerKnown(history: seq<Committed>, pointer: Pointer) {
    exists i :: 0 <= i < |history| && history[i].pointer == pointer
  }

  ghost predicate ManifestKnown(history: seq<Committed>, pointer: Pointer, manifest: Manifest) {
    exists i :: 0 <= i < |history| && history[i].pointer == pointer && history[i].manifest == manifest
  }

  /** What a publisher holds agrees with the history and the objects. */
  ghost predicate Grounded(merge: Merger, objects: map<Key, Object>, history: seq<Committed>, x: Publisher) {
    match x
    case Idle => true
    case Starting(job) => LegalJob(job)
    case Reading(job, pointer) => LegalJob(job) && PointerKnown(history, pointer)
    case Checking(job, pointer, manifest) => LegalJob(job) && ManifestKnown(history, pointer, manifest)
    case Uploading(job, previous, index, done) =>
      Prepared(merge, history, job, previous, index) && FilesUp(objects, job, done)
    case Describing(job, previous, index) =>
      Prepared(merge, history, job, previous, index) && FilesUp(objects, job, |job.files|)
      && PackagesUp(objects, job, index)
    case Committing(job, previous, index) =>
      Prepared(merge, history, job, previous, index) && FilesUp(objects, job, |job.files|)
      && PackagesUp(objects, job, index)
      && Key(job.attempt, MANIFEST) in objects
      && objects[Key(job.attempt, MANIFEST)] == Document(ManifestOf(job, previous, index))
      && (job.signed ==> SigningKey(job) != "")
  }

  ghost predicate AllBacked(history: seq<Committed>, objects: map<Key, Object>) {
    forall i :: 0 <= i < |history| ==> Backed(history[i], objects)
  }

  ghost predicate AllLinked(merge: Merger, history: seq<Committed>) {
    forall i :: 0 <= i < |history| ==> Linked(merge, history, i)
  }

  ghost predicate AllGrounded(merge: Merger, s: State) {
    forall p :: p in s.publishers ==> Grounded(merge, s.objects, s.history, s.publishers[p])
  }

  ghost predicate Inv(merge: Merger, s: State) {
    && s.pointer == (if s.history == [] then None else Some(s.history[|s.history| - 1].pointer))
    && AllBacked(s.history, s.objects)
    && AllLinked(merge, s.history)
    && AllGrounded(merge, s)
  }

  // ---------------------------------------------------------------- the proofs

  lemma BackedGrows(history: seq<Committed>, objects: map<Key, Object>, more: map<Key, Object>)
    requires AllBacked(history, objects) && Extends(objects, more)
    ensures AllBacked(history, more)
  {
    forall i | 0 <= i < |history| ensures Backed(history[i], more) {
      assert Backed(history[i], objects);
    }
  }

  lemma GroundedGrows(merge: Merger, objects: map<Key, Object>, history: seq<Committed>,
                      more: map<Key, Object>, longer: seq<Committed>, x: Publisher)
    requires Grounded(merge, objects, history, x) && Extends(objects, more) && history <= longer
    ensures Grounded(merge, more, longer, x)
  {
    match x
    case Reading(job, pointer) =>
      var i :| 0 <= i < |history| && history[i].pointer == pointer;
      assert longer[i].pointer == pointer;
    case Checking(job, pointer, manifest) =>
      var i :| 0 <= i < |history| && history[i].pointer == pointer && history[i].manifest == manifest;
      assert longer[i].pointer == pointer;
    case Uploading(job, previous, index, done) => PreparedGrows(merge, history, longer, job, previous, index);
    case Describing(job, previous, index) => PreparedGrows(merge, history, longer, job, previous, index);
    case Committing(job, previous, index) => PreparedGrows(merge, history, longer, job, previous, index);
    case _ =>
  }

  lemma PreparedGrows(merge: Merger, history: seq<Committed>, longer: seq<Committed>,
                      job: Job, previous: Option<Previous>, index: string)
    requires Prepared(merge, history, job, previous, index) && history <= longer
    ensures Prepared(merge, longer, job, previous, index)
  {
    if previous.Some? {
      var i :| 0 <= i < |history| && Recorded(history[i], previous.value);
      assert Recorded(longer[i], previous.value);
    }
  }

  /** A step that only moves one publisher, or also adds objects. */
  lemma StepKeeps(merge: Merger, s: State, t: State, p: nat, x: Publisher)
    requires Inv(merge, s) && Extends(s.objects, t.objects)
    requires t == s.(objects := t.objects, publishers := s.publishers[p := x])
    requires Grounded(merge, t.objects, t.history, x)
    ensures Inv(merge, t)
  {
    BackedGrows(s.history, s.objects, t.objects);
    forall q | q in t.publishers ensures Grounded(merge, t.objects, t.history, t.publishers[q]) {
      if q != p {
        GroundedGrows(merge, s.objects, s.history, t.objects, t.history, s.publishers[q]);
      }
    }
  }

  lemma AtGrounded(merge: Merger, s: State, p: nat)
    requires Inv(merge, s)
    ensures Grounded(merge, s.objects, s.history, At(s, p))
  {
  }

  /** The digest checks of loadPreviousPublication recover exactly what was committed. */
  lemma LoadedManifestIsCommitted(merge: Merger, s: State, job: Job, pointer: Pointer)
    requires Inv(merge, s) && LegalJob(job) && PointerKnown(s.history, pointer)
    ensures Grounded(merge, s.objects, s.history, LoadManifest(s, job, pointer))
  {
    var i :| 0 <= i < |s.history| && s.history[i].pointer == pointer;
    assert Backed(s.history[i], s.objects);
    assert s.history[i].pointer == pointer && s.history[i].manifest == s.objects[pointer.manifestKey].manifest;
  }

  lemma LoadedPackagesAreCommitted(merge: Merger, s: State, job: Job, pointer: Pointer, manifest: Manifest)
    requires Inv(merge, s) && LegalJob(job) && ManifestKnown(s.history, pointer, manifest)
    ensures Grounded(merge, s.objects, s.history, LoadPackages(merge, s, job, pointer, manifest))
  {
    var i :| 0 <= i < |s.history| && s.history[i].pointer == pointer && s.history[i].manifest == manifest;
    assert Backed(s.history[i], s.objects);
    var loaded := Previous(pointer, manifest, s.history[i].index);
    assert Recorded(s.history[i], loaded);
    assert Known(s.history, loaded);
  }

  lemma UploadKeeps(merge: Merger, s: State, p: nat, key: Key, stored: Object, next: Publisher)
    requires Inv(merge, s)
    requires forall objects :: Extends(s.objects, objects) && key in objects && objects[key] == stored
                               ==> Grounded(merge, objects, s.history, next)
    ensures Inv(merge, Uploaded(s, p, key, stored, next))
  {
    match Upload(s.objects, key, stored)
    case None => StepKeeps(merge, s, s.(publishers := s.publishers[p := Idle]), p, Idle);
    case Some(objects) =>
      assert Extends(s.objects, objects);
      StepKeeps(merge, s, Uploaded(s, p, key, stored, next), p, next);
  }

  lemma UploadArtifactKeeps(merge: Merger, s: State, p: nat, job: Job, previous: Option<Previous>, index: string,
      done: nat)
    requires Inv(merge, s) && Grounded(merge, s.objects, s.history, Uploading(job, previous, index, done))
    requires done < |job.files|
    ensures Inv(merge, Uploaded(s, p, Key(job.attempt, job.files[done].path), File(job.files[done].bytes),
                                Uploading(job, previous, index, done + 1)))
  {
    var next := Uploading(job, previous, index, done + 1);
    UploadKeeps(merge, s, p, Key(job.attempt, job.files[done].path), File(job.files[done].bytes), next);
  }

  lemma UploadPackagesKeeps(merge: Merger, s: State, p: nat, job: Job, previous: Option<Previous>, index: string)
    requires Inv(merge, s) && Grounded(merge, s.objects, s.history, Uploading(job, previous, index, |job.files|))
    ensures Inv(merge, Uploaded(s, p, Key(job.attempt, PACKAGES), File(index), Describing(job, previous, index)))
  {
    UploadKeeps(merge, s, p, Key(job.attempt, PACKAGES), File(index), Describing(job, previous, index));
  }

  lemma UploadManifestKeeps(merge: Merger, s: State, p: nat, job: Job, previous: Option<Previous>, index: string)
    requires Inv(merge, s) && Grounded(merge, s.objects, s.history, Describing(job, previous, index))
    requires job.signed ==> TrimSpace(job.signingKey) != ""
    ensures Inv(merge, Uploaded(s, p, Key(job.attempt, MANIFEST), Document(ManifestOf(job, previous, index)),
                                Committing(job, previous, index)))
  {
    UploadKeeps(merge, s, p, Key(job.attempt, MANIFEST), Document(ManifestOf(job, previous, index)),
                Committing(job, previous, index));
  }

  /** Every artifact of the new manifest is stored: inherited ones by the predecessor, new ones by this job. */
  lemma MergedArtifactsBacked(objects: map<Key, Object>, job: Job, previous: Option<Previous>)
    requires FilesUp(objects, job, |job.files|)
    requires previous.Some? ==> ArtifactsBacked(previous.value.manifest.artifacts, objects)
    ensures ArtifactsBacked(ListOf(Merged(previous, job)), objects)
  {
    var m := Merged(previous, job);
    var list := ListOf(m);
    ArtifactMapValues(Added(job));
    if previous.Some? {
      ArtifactMapValues(previous.value.manifest.artifacts);
    }
    forall a | a in list ensures a.key in objects && a.digest == Sha256(objects[a.key]) {
      var k :| 0 <= k < |list| && list[k] == a;
      var path := Listing(Less, m.Keys)[k];
      if path in ArtifactMap(Added(job)) {
        var n :| 0 <= n < |job.files| && Added(job)[n] == a;
      }
    }
  }

  /** The swap succeeds only on the content read, so the last commit is the one the publisher built on. */
  lemma ReadIsLast(merge: Merger, s: State, previous: Previous)
    requires Inv(merge, s) && Known(s.history, previous) && s.pointer == Some(previous.pointer)
    ensures |s.history| > 0 && Recorded(s.history[|s.history| - 1], previous)
  {
    var i :| 0 <= i < |s.history| && Recorded(s.history[i], previous);
    assert Backed(s.history[i], s.objects) && Backed(s.history[|s.history| - 1], s.objects);
  }

  lemma CommitKeeps(merge: Merger, s: State, p: nat, job: Job, previous: Option<Previous>, index: string,
      selectedAt: int)
    requires Inv(merge, s) && Grounded(merge, s.objects, s.history, Committing(job, previous, index))
    ensures Inv(merge, Swapped(s, p, job, previous, index, selectedAt))
  {
    var read := if previous.None? then None else Some(previous.value.pointer);
    var t := Swapped(s, p, job, previous, index, selectedAt);
    if s.pointer != read {
      StepKeeps(merge, s, t, p, Idle);
      return;
    }
    if previous.Some? {
      ReadIsLast(merge, s, previous.value);
      assert Backed(s.history[|s.history| - 1], s.objects);
    }
    MergedArtifactsBacked(s.objects, job, previous);
    NewLinkHolds(merge, s, job, previous, index, selectedAt);
    forall q | q in t.publishers ensures Grounded(merge, t.objects, t.history, t.publishers[q]) {
      if q != p {
        GroundedGrows(merge, s.objects, s.history, t.objects, t.history, s.publishers[q]);
      }
    }
  }

  lemma NewLinkHolds(merge: Merger, s: State, job: Job, previous: Option<Previous>, index: string, selectedAt: int)
    requires Inv(merge, s) && Grounded(merge, s.objects, s.history, Committing(job, previous, index))
    requires s.pointer == if previous.None? then None else Some(previous.value.pointer)
    requires previous.Some? ==> |s.history| > 0 && Recorded(s.history[|s.history| - 1], previous.value)
    ensures AllLinked(merge, s.history + [Committed(PointerOf(job, previous, index, selectedAt), job,
                                                    ManifestOf(job, previous, index), index)])
  {
    var n := |s.history|;
    var longer := s.history + [Committed(PointerOf(job, previous, index, selectedAt), job,
                                         ManifestOf(job, previous, index), index)];
    MergedKeyed(previous, job);
    ListOfReadsBack(Merged(previous, job));
    forall i | 0 <= i < |longer| ensures Linked(merge, longer, i) {
      if i < n {
        assert Linked(merge, s.history, i);
      }
    }
  }

  /** The three reads of loadPreviousPublication. */
  lemma ReadKeeps(merge: Merger, s: State, p: nat, event: Event)
    requires Inv(merge, s) && (At(s, p).Starting? || At(s, p).Reading? || At(s, p).Checking?)
    ensures Inv(merge, Effect(merge, s, p, event))
  {
    AtGrounded(merge, s, p);
    var t := Effect(merge, s, p, event);
    match At(s, p)
    case Starting(job) =>
      if event.ReadChannel? {
        if s.pointer.Some? {
          assert s.history[|s.history| - 1].pointer == s.pointer.value;
        }
        StepKeeps(merge, s, t, p, if s.pointer.Some? then Reading(job, s.pointer.value) else Prepare(merge, job, None));
      }
    case Reading(job, pointer) =>
      if event.ReadManifest? {
        LoadedManifestIsCommitted(merge, s, job, pointer);
        StepKeeps(merge, s, t, p, LoadManifest(s, job, pointer));
      }
    case Checking(job, pointer, manifest) =>
      if event.ReadPackages? {
        LoadedPackagesAreCommitted(merge, s, job, pointer, manifest);
        StepKeeps(merge, s, t, p, LoadPackages(merge, s, job, pointer, manifest));
      }
  }

  lemma EffectKeeps(merge: Merger, s: State, p: nat, event: Event)
    requires Inv(merge, s)
    ensures Inv(merge, Effect(merge, s, p, event))
  {
    AtGrounded(merge, s, p);
    var t := Effect(merge, s, p, event);
    match At(s, p)
    case Idle =>
      if event.Begin? && LegalJob(event.job) {
        StepKeeps(merge, s, t, p, Starting(event.job));
      }
    case Uploading(job, previous, index, done) =>
      if event.UploadArtifact? && done < |job.files| {
        UploadArtifactKeeps(merge, s, p, job, previous, index, done);
      } else if event.UploadPackages? && done >= |job.files| {
        UploadPackagesKeeps(merge, s, p, job, previous, index);
      }
    case Describing(job, previous, index) =>
      if event.UploadManifest? {
        if job.signed && TrimSpace(job.signingKey) == "" {
          StepKeeps(merge, s, t, p, Idle);
        } else {
          UploadManifestKeeps(merge, s, p, job, previous, index);
        }
      }
    case Committing(job, previous, index) =>
      if event.Commit? {
        CommitKeeps(merge, s, p, job, previous, index, event.selectedAt);
      }
    case _ => ReadKeeps(merge, s, p, event);
  }

  lemma ActKeeps(merge: Merger, s: State, move: Move)
    requires Inv(merge, s)
    ensures Inv(merge, Act(merge, s, move))
  {
    var after := if move.event.Crash? then s else Effect(merge, s, move.publisher, move.event);
    if !move.event.Crash? {
      EffectKeeps(merge, s, move.publisher, move.event);
    }
    if move.event.Crash? || move.lost {
      StepKeeps(merge, after, Act(merge, s, move), move.publisher, Idle);
    }
  }

  lemma {:induction false} RunKeeps(merge: Merger, moves: seq<Move>)
    ensures Inv(merge, Run(merge, moves))
  {
    if |moves| > 0 {
      var n := |moves| - 1;
      RunKeeps(merge, moves[..n]);
      ActKeeps(merge, Run(merge, moves[..n]), moves[n]);
    }
  }

  // ------------------------------------------------------------------ theorems

  /** In every reachable state the channel pointer names a manifest, a Packages object and artifacts that are
      stored and hash to what it records, under one generation ID. */
  lemma ChannelIsBacked(merge: Merger, moves: seq<Move>)
    ensures var s := Run(merge, moves);
            s.pointer.Some? ==>
              && s.history != []
              && s.pointer.value == s.history[|s.history| - 1].pointer
              && Backed(s.history[|s.history| - 1], s.objects)
  {
    RunKeeps(merge, moves);
  }

  /** What a reader can find out about a pointer from the object store alone. */
  ghost predicate Readable(pointer: Pointer, objects: map<Key, Object>) {
    && pointer.manifestKey in objects
    && objects[pointer.manifestKey].Document?
    && Sha256(objects[pointer.manifestKey]) == pointer.manifest
    && objects[pointer.manifestKey].manifest.generation == pointer.generation
    && objects[pointer.manifestKey].manifest.packages == pointer.packages
    && Key(pointer.generation, PACKAGES) in objects
    && Sha256(objects[Key(pointer.generation, PACKAGES)]) == pointer.packages
    && ArtifactsBacked(objects[pointer.manifestKey].manifest.artifacts, objects)
  }

  /** No step removes or rewrites an object or a commit. */
  ghost predicate Grows(s: State, t: State) {
    Extends(s.objects, t.objects) && s.history <= t.history
  }

  lemma UploadedGrows(s: State, p: nat, key: Key, stored: Object, next: Publisher)
    ensures Grows(s, Uploaded(s, p, key, stored, next))
  {
  }

  lemma SwappedGrows(s: State, p: nat, job: Job, previous: Option<Previous>, index: string, selectedAt: int)
    ensures Grows(s, Swapped(s, p, job, previous, index, selectedAt))
  {
  }

  lemma ReadGrows(merge: Merger, s: State, p: nat, event: Event)
    requires At(s, p).Idle? || At(s, p).Starting? || At(s, p).Reading? || At(s, p).Checking?
    ensures Grows(s, Effect(merge, s, p, event))
  {
    var t := Effect(merge, s, p, event);
    assert t.objects == s.objects && t.history == s.history;
  }

  lemma EffectGrows(merge: Merger, s: State, p: nat, event: Event)
    ensures Grows(s, Effect(merge, s, p, event))
  {
    match At(s, p)
    case Uploading(job, previous, index, done) =>
      if event.UploadArtifact? && done < |job.files| {
        UploadedGrows(s, p, Key(job.attempt, job.files[done].path), File(job.files[done].bytes),
                      Uploading(job, previous, index, done + 1));
      } else {
        UploadedGrows(s, p, Key(job.attempt, PACKAGES), File(index), Describing(job, previous, index));
      }
    case Describing(job, previous, index) =>
      UploadedGrows(s, p, Key(job.attempt, MANIFEST), Document(ManifestOf(job, previous, index)),
                    Committing(job, previous, index));
    case Committing(job, previous, index) =>
      if event.Commit? {
        SwappedGrows(s, p, job, previous, index, event.selectedAt);
      }
    case _ => ReadGrows(merge, s, p, event);
  }

  lemma ActGrows(merge: Merger, s: State, move: Move)
    ensures Grows(s, Act(merge, s, move))
  {
    EffectGrows(merge, s, move.publisher, move.event);
  }

  lemma {:induction false} RunGrows(merge: Merger, moves: seq<Move>, more: seq<Move>)
    ensures Grows(Run(merge, moves), Run(merge, moves + more))
    decreases |more|
  {
    if more == [] {
      assert moves + more == moves;
    } else {
      var n := |more| - 1;
      RunGrows(merge, moves, more[..n]);
      assert (moves + more)[..|moves + more| - 1] == moves + more[..n];
      ActGrows(merge, Run(merge, moves + more[..n]), more[n]);
    }
  }

  /** A pointer read at any moment stays readable for ever, however many commits follow. */
  lemma StaleReadersSeeOneGeneration(merge: Merger, moves: seq<Move>, more: seq<Move>)
    requires Run(merge, moves).pointer.Some?
    ensures Readable(Run(merge, moves).pointer.value, Run(merge, moves + more).objects)
  {
    RunKeeps(merge, moves);
    RunKeeps(merge, moves + more);
    RunGrows(merge, moves, more);
    var s := Run(merge, moves);
    var t := Run(merge, moves + more);
    assert s.history[|s.history| - 1] == t.history[|s.history| - 1];
    assert Backed(t.history[|s.history| - 1], t.objects);
  }

  /** The artifact map of the channel after a list of commits: each job overrides those before it. */
  function Accumulated(history: seq<Committed>): map<string, Artifact> {
    if |history| == 0 then map[]
    else Accumulated(history[..|history| - 1]) + ArtifactMap(Added(history[|history| - 1].job))
  }

  lemma {:induction false} LinkedAccumulates(merge: Merger, history: seq<Committed>)
    requires AllLinked(merge, history)
    ensures Accumulated(history) == PathsBefore(history, |history|)
  {
    if |history| > 0 {
      var n := |history| - 1;
      var shorter := history[..n];
      forall i | 0 <= i < n ensures Linked(merge, shorter, i) {
        assert Linked(merge, history, i);
      }
      LinkedAccumulates(merge, shorter);
      assert Linked(merge, history, n);
    }
  }

  /** Committed generations form one chain, and each commit is its predecessor overridden by its own job:
      the i-th manifest is the fold of the first i + 1 jobs, whatever the interleaving. */
  lemma CommitsFormOneChain(merge: Merger, moves: seq<Move>, i: nat)
    requires i < |Run(merge, moves).history|
    ensures var h := Run(merge, moves).history;
            && Linked(merge, h, i)
            && ArtifactMap(h[i].manifest.artifacts) == Accumulated(h[..i + 1])
  {
    RunKeeps(merge, moves);
    var h := Run(merge, moves).history;
    var upto := h[..i + 1];
    forall k | 0 <= k < |upto| ensures Linked(merge, upto, k) {
      assert Linked(merge, h, k);
    }
    LinkedAccumulates(merge, upto);
  }

  /** A path once published is in every later generation. */
  lemma {:induction false} NoPathIsLost(merge: Merger, moves: seq<Move>, i: nat, j: nat, path: string)
    requires i <= j < |Run(merge, moves).history|
    requires path in ArtifactMap(Run(merge, moves).history[i].manifest.artifacts)
    ensures path in ArtifactMap(Run(merge, moves).history[j].manifest.artifacts)
    decreases j
  {
    if i < j {
      NoPathIsLost(merge, moves, i, j - 1, path);
      CommitsFormOneChain(merge, moves, j);
    }
  }

  /** A generation ID names one manifest and one index, even when an attempt is committed twice. */
  lemma GenerationsAreImmutable(merge: Merger, moves: seq<Move>, i: nat, j: nat)
    requires i < |Run(merge, moves).history| && j < |Run(merge, moves).history|
    requires Run(merge, moves).history[i].pointer.generation == Run(merge, moves).history[j].pointer.generation
    ensures Run(merge, moves).history[i].manifest == Run(merge, moves).history[j].manifest
    ensures Run(merge, moves).history[i].index == Run(merge, moves).history[j].index
  {
    RunKeeps(merge, moves);
    var s := Run(merge, moves);
    assert Backed(s.history[i], s.objects) && Backed(s.history[j], s.objects);
  }

  /** A publisher with nothing left to do, or one that has read its own generation from the channel. */
  ghost predicate Settled(x: Publisher) {
    x.Idle? || ((x.Reading? || x.Checking?) && x.pointer.generation == x.job.attempt)
  }

  ghost predicate NeverBegins(moves: seq<Move>, p: nat) {
    forall k :: 0 <= k < |moves| && moves[k].publisher == p ==> !moves[k].event.Begin?
  }

  /** A step of a settled publisher only moves that publisher; steps of others do not move it. */
  lemma SettledStep(merge: Merger, s: State, p: nat, move: Move)
    requires Settled(At(s, p)) && (move.publisher == p ==> !move.event.Begin?)
    ensures Settled(At(Act(merge, s, move), p))
    ensures move.publisher == p ==> Act(merge, s, move) == s.(publishers := Act(merge, s, move).publishers)
  {
    if move.publisher != p {
      assert At(Effect(merge, s, move.publisher, move.event), p) == At(s, p);
    }
  }

  lemma {:induction false} SettledStays(merge: Merger, moves: seq<Move>, p: nat, more: seq<Move>)
    requires Settled(At(Run(merge, moves), p)) && NeverBegins(more, p)
    ensures Settled(At(Run(merge, moves + more), p))
    decreases |more|
  {
    if more == [] {
      assert moves + more == moves;
    } else {
      var n := |more| - 1;
      SettledStays(merge, moves, p, more[..n]);
      assert (moves + more)[..|moves + more| - 1] == moves + more[..n];
      SettledStep(merge, Run(merge, moves + more[..n]), p, more[n]);
    }
  }

  lemma SettledMove(merge: Merger, moves: seq<Move>, p: nat, move: Move)
    requires Settled(At(Run(merge, moves), p)) && move.publisher == p && !move.event.Begin?
    ensures SameStore(Run(merge, moves), Run(merge, moves + [move]))
  {
    SettledStep(merge, Run(merge, moves), p, move);
    assert (moves + [move])[..|moves|] == moves;
  }

  ghost predicate SameStore(s: State, t: State) {
    t.objects == s.objects && t.pointer == s.pointer && t.history == s.history
  }

  /** Replaying an attempt changes nothing from the moment it has read its own generation from the channel: among the
      moves of any publishers, each of its own leaves every object, the pointer and the history as they were. */
  lemma ReplayChangesNothing(merge: Merger, moves: seq<Move>, p: nat, more: seq<Move>, k: nat)
    requires Settled(At(Run(merge, moves), p)) && NeverBegins(more, p)
    requires k < |more| && more[k].publisher == p
    ensures SameStore(Run(merge, moves + more[..k]), Run(merge, moves + more[..k + 1]))
  {
    SettledStays(merge, moves, p, more[..k]);
    SettledMove(merge, moves + more[..k], p, more[k]);
    assert moves + more[..k + 1] == moves + more[..k] + [more[k]];
  }

  /** Reading the channel settles a publisher exactly when the channel names its attempt, or when its first merge
      fails. */
  lemma ReadingSettles(merge: Merger, moves: seq<Move>, p: nat)
    requires At(Run(merge, moves), p).Starting?
    ensures var s := Run(merge, moves); var job := At(s, p).job;
            Settled(At(Run(merge, moves + [Move(p, ReadChannel, false)]), p)) <==>
              if s.pointer.Some? then s.pointer.value.generation == job.attempt
              else merge("", job.index, job.created).None?
  {
    assert (moves + [Move(p, ReadChannel, false)])[..|moves|] == moves;
  }

  // ---------------------------------------------------- where committed jobs come from

  ghost predicate BegunWith(moves: seq<Move>, good: Job -> bool) {
    forall k :: 0 <= k < |moves| && moves[k].event.Begin? ==> good(moves[k].event.job)
  }

  ghost predicate JobsAre(s: State, good: Job -> bool) {
    && (forall i :: 0 <= i < |s.history| ==> good(s.history[i].job))
    && (forall p :: p in s.publishers && !s.publishers[p].Idle? ==> good(s.publishers[p].job))
  }

  lemma EffectJobs(merge: Merger, s: State, p: nat, event: Event, good: Job -> bool)
    requires JobsAre(s, good) && (event.Begin? ==> good(event.job))
    ensures JobsAre(Effect(merge, s, p, event), good)
  {
    var t := Effect(merge, s, p, event);
    assert !At(s, p).Idle? ==> good(At(s, p).job);
    assert t.history == s.history || (|t.history| == |s.history| + 1 && t.history[|s.history|].job == At(s, p).job);
  }

  lemma {:induction false} RunJobs(merge: Merger, moves: seq<Move>, good: Job -> bool)
    requires BegunWith(moves, good)
    ensures JobsAre(Run(merge, moves), good)
  {
    if |moves| > 0 {
      var n := |moves| - 1;
      RunJobs(merge, moves[..n], good);
      EffectJobs(merge, Run(merge, moves[..n]), moves[n].publisher, moves[n].event, good);
    }
  }

  // ------------------------------------------------------------- upload routine

  /** The object store as the publisher sees it. */
  class ObjectStore {
    var objects: map<Key, Object>

    constructor ()
      ensures objects == map[]
    {
      objects := map[];
    }

    method Put(key: Key, stored: Object, unreachable: bool) returns (ok: bool)
      modifies this
      ensures ok ==> Upload(old(objects), key, stored) == Some(objects)
      ensures !ok ==> objects == old(objects) && (unreachable || Upload(objects, key, stored).None?)
    {
      if unreachable || (key in objects && objects[key] != stored) {
        return false;
      }
      if key !in objects {
        objects := objects[key := stored];
      }
      return true;
    }
  }

  lemma {:induction false} AddedPrefix(job: Job, m: map<string, Artifact>, n: nat)
    requires n < |job.files|
    ensures (m + ArtifactMap(Added(job)[..n]))[Added(job)[n].path := Added(job)[n]] == m + ArtifactMap(Added(job)[..n
            + 1])
  {
    assert Added(job)[..n + 1][..n] == Added(job)[..n];
  }

  /** uploadPublishedGenerationArtifacts: stores every file of the job and returns the merged list in path order. */
  method UploadArtifacts(store: ObjectStore, job: Job, previous: Option<Previous>, down: set<nat>)
    returns (r: Option<seq<Artifact>>)
    modifies store
    ensures Extends(old(store.objects), store.objects)
    ensures r.Some? ==> FilesUp(store.objects, job, |job.files|) && r.value == ListOf(Merged(previous, job))
    ensures LegalJob(job) && r.None? ==>
              exists k :: 0 <= k < |job.files| && (k in down || Taken(old(store.objects), job, k))
  {
    var byPath := ReadInherited(previous);
    assert byPath == Inherited(previous) + ArtifactMap(Added(job)[..0]);
    for i := 0 to |job.files|
      invariant byPath == Inherited(previous) + ArtifactMap(Added(job)[..i])
      invariant FilesUp(store.objects, job, i) && Extends(old(store.objects), store.objects)
      invariant LegalJob(job) ==> NoneTakenSince(old(store.objects), store.objects, job, i)
    {
      var file := job.files[i];
      var key := Key(job.attempt, file.path);
      ghost var before := store.objects;
      var ok := store.Put(key, File(file.bytes), i in down);
      if !ok {
        assert i in down || Taken(store.objects, job, i);
        return None;
      }
      UploadStep(before, store.objects, job, i);
      AddedPrefix(job, Inherited(previous), i);
      byPath := byPath[file.path := Artifact(file.path, Sha256(File(file.bytes)), key)];
    }
    assert Added(job)[..|job.files|] == Added(job);
    var list := SortByPath(byPath);
    return Some(list);
  }

  /** Another object already occupies the key of file k. */
  ghost predicate Taken(objects: map<Key, Object>, job: Job, k: nat)
    requires k < |job.files|
  {
    var key := Key(job.attempt, job.files[k].path);
    key in objects && objects[key] != File(job.files[k].bytes)
  }

  ghost predicate NoneTakenSince(objects: map<Key, Object>, more: map<Key, Object>, job: Job, i: nat) {
    forall k :: i <= k < |job.files| && Taken(more, job, k) ==> Taken(objects, job, k)
  }

  lemma UploadStep(before: map<Key, Object>, after: map<Key, Object>, job: Job, i: nat)
    requires i < |job.files| && FilesUp(before, job, i)
    requires Upload(before, Key(job.attempt, job.files[i].path), File(job.files[i].bytes)) == Some(after)
    ensures FilesUp(after, job, i + 1) && Extends(before, after)
    ensures LegalJob(job) ==> NoneTakenSince(before, after, job, i + 1)
  {
  }

  method ReadInherited(previous: Option<Previous>) returns (byPath: map<string, Artifact>)
    ensures byPath == Inherited(previous)
  {
    byPath := map[];
    if previous.Some? {
      var list := previous.value.manifest.artifacts;
      for i := 0 to |list|
        invariant byPath == ArtifactMap(list[..i])
      {
        assert list[..i + 1][..i] == list[..i];
        byPath := byPath[list[i].path := list[i]];
      }
      assert list[..|list|] == list;
    }
  }

  method SortByPath(m: map<string, Artifact>) returns (list: seq<Artifact>)
    ensures list == ListOf(m)
  {
    LessIsStrict();
    LessIsTotalOn(m.Keys);
    var paths := CollectSorted(Less, m.Keys);
    ListedKeys(m);
    list := seq(|paths|, k requires 0 <= k < |paths| && paths[k] in m => m[paths[k]]);
    assert list == ListOf(m);
  }

  /** publishedArtifactKeysForRels: the object key of every path, or an error naming a missing one. */
  method PublishedKeys(artifacts: seq<Artifact>, rels: seq<string>) returns (r: Result<seq<Key>, string>)
    ensures r.Ok? <==> forall k :: 0 <= k < |rels| ==> rels[k] in ArtifactMap(artifacts)
    ensures r.Ok? ==> |r.value| == |rels|
    ensures r.Ok? ==> forall k :: 0 <= k < |rels| ==> r.value[k] == ArtifactMap(artifacts)[rels[k]].key
    ensures r.Err? ==> r.error in rels && r.error !in ArtifactMap(artifacts)
  {
    var byPath: map<string, Artifact> := map[];
    for i := 0 to |artifacts|
      invariant byPath == ArtifactMap(artifacts[..i])
    {
      assert artifacts[..i + 1][..i] == artifacts[..i];
      byPath := byPath[artifacts[i].path := artifacts[i]];
    }
    assert artifacts[..|artifacts|] == artifacts;
    var keys: seq<Key> := [];
    for i := 0 to |rels|
      invariant |keys| == i
      invariant forall k :: 0 <= k < i ==> rels[k] in byPath && keys[k] == byPath[rels[k]].key
    {
      if rels[i] !in byPath {
        return Err(rels[i]);
      }
      keys := keys + [byPath[rels[i]].key];
    }
    return Ok(keys);
  }

  /** The keys returned after a commit cover the whole job. */
  lemma CommittedKeysCoverJob(merge: Merger, moves: seq<Move>, i: nat, k: nat)
    requires i < |Run(merge, moves).history| && k < |Run(merge, moves).history[i].job.files|
    ensures var c := Run(merge, moves).history[i];
            c.job.files[k].path in ArtifactMap(c.manifest.artifacts)
  {
    CommitsFormOneChain(merge, moves, i);
    var c := Run(merge, moves).history[i];
    ArtifactMapValues(Added(c.job));
    assert Added(c.job)[k].path == c.job.files[k].path;
  }
}
