/** The published Packages index and the published manifest, merged by different code, list the same paths. */
module PublishedIndex {
  import opened Text
  import opened Ordering
  import opened PackagesIndex
  import PackagesMerge
  import IndexExamples
  import opened Publication
  import opened Republication

  ghost function MergerFor(arch: string): Merger {
    (older: string, newer: string, seconds: int) =>
      match PackagesMerge.Merge(older, newer, arch, Some(seconds))
      case Ok(index) => Some(index)
      case Err(_) => None
  }

  /** The verified index of a job lists exactly its own artifacts. */
  ghost predicate OwnIndex(job: Job) {
    PackagesMerge.Mergeable(job.index)
    && Paths(PackagesMerge.Contribution(job.index).value) == ArtifactMap(Added(job)).Keys
  }

  ghost predicate ListsExactly(index: string, paths: set<string>) {
    ParseBody(index).Ok? && Paths(ParseBody(index).value) == paths
  }

  /** An index that the next merge can read, if it is not over the size limit. */
  ghost predicate Continues(index: string) {
    index != "" && (PackagesMerge.Contribution(index).Ok? ==> PackagesMerge.Mergeable(index))
  }

  lemma FirstIndex(arch: string, newer: string, seconds: int, index: string)
    requires PlainArch(arch) && PackagesMerge.Mergeable(newer)
    requires PackagesMerge.Merge("", newer, arch, Some(seconds)) == Ok(index)
    ensures ListsExactly(index, Paths(PackagesMerge.Contribution(newer).value)) && Continues(index)
  {
    assert PackagesMerge.Mergeable("");
    NextIndex(arch, "", newer, seconds, index);
    assert Paths(PackagesMerge.Contribution("").value) == {};
  }

  lemma NextIndex(arch: string, older: string, newer: string, seconds: int, index: string)
    requires PlainArch(arch) && PackagesMerge.Mergeable(older) && PackagesMerge.Mergeable(newer)
    requires PackagesMerge.Merge(older, newer, arch, Some(seconds)) == Ok(index)
    ensures ListsExactly(index, Paths(PackagesMerge.Contribution(older).value)
                                + Paths(PackagesMerge.Contribution(newer).value))
    ensures Continues(index)
  {
    PackagesMerge.MergeKeepsPaths(older, newer, arch, seconds, index);
    PackagesMerge.MergeClosed(older, newer, arch, seconds, index);
    PackagesMerge.RenderNonEmpty(PackagesMerge.MergeStanzas(PackagesMerge.Contribution(older).value,
                                                            PackagesMerge.Contribution(newer).value), arch, seconds);
  }

  ghost predicate Agrees(c: Committed) {
    ListsExactly(c.index, ArtifactMap(c.manifest.artifacts).Keys) && Continues(c.index)
  }

  lemma LinkAgrees(arch: string, history: seq<Committed>, i: nat)
    requires PlainArch(arch) && i < |history| && Linked(MergerFor(arch), history, i) && OwnIndex(history[i].job)
    requires i > 0 ==> Agrees(history[i - 1])
    ensures Agrees(history[i])
  {
    var c := history[i];
    if i == 0 {
      FirstIndex(arch, c.job.index, c.job.created, c.index);
    } else {
      NextIndex(arch, history[i - 1].index, c.job.index, c.job.created, c.index);
    }
  }

  /** If every job's verified index lists exactly its own artifacts, then after every commit of every run the
      PATHs of the published index are the relative paths of the published manifest. */
  lemma {:induction false} IndexAndManifestAgree(arch: string, moves: seq<Move>, i: nat)
    requires PlainArch(arch) && BegunWith(moves, OwnIndex)
    requires i < |Run(MergerFor(arch), moves).history|
    ensures Agrees(Run(MergerFor(arch), moves).history[i])
  {
    RunJobs(MergerFor(arch), moves, OwnIndex);
    CommitsFormOneChain(MergerFor(arch), moves, i);
    if i > 0 {
      IndexAndManifestAgree(arch, moves, i - 1);
    }
    LinkAgrees(arch, Run(MergerFor(arch), moves).history, i);
  }

  // ------------------------------------------------------ when a replay takes effect

  /** The stanzas of a published index by PATH. */
  ghost function StanzasOf(index: string): map<string, Stanza> {
    if ParseBody(index).Ok? then PackagesMerge.ByPath(ParseBody(index).value) else map[]
  }

  /** The stanzas of a job's own index. */
  ghost function OwnStanzas(job: Job): map<string, Stanza> {
    var parsed := PackagesMerge.Contribution(job.index);
    if parsed.Ok? then PackagesMerge.ByPath(parsed.value) else map[]
  }

  ghost function StanzasBefore(history: seq<Committed>, i: nat): map<string, Stanza>
    requires i <= |history|
  {
    if i == 0 then map[] else StanzasOf(history[i - 1].index)
  }

  /** A state whose commits were all merged for one architecture from indexes of their own files. */
  ghost predicate Grown(arch: string, s: State) {
    && PlainArch(arch) && Inv(MergerFor(arch), s)
    && AllSound(s.history)
  }

  ghost predicate AllSound(history: seq<Committed>) {
    forall j :: 0 <= j < |history| ==> Sound(history, j)
  }

  ghost predicate Sound(history: seq<Committed>, j: nat)
    requires j < |history|
  {
    OwnIndex(history[j].job) && Agrees(history[j])
  }

  lemma RunGrown(arch: string, moves: seq<Move>)
    requires PlainArch(arch) && BegunWith(moves, OwnIndex)
    ensures Grown(arch, Run(MergerFor(arch), moves))
  {
    RunKeeps(MergerFor(arch), moves);
    RunJobs(MergerFor(arch), moves, OwnIndex);
    forall j | 0 <= j < |Run(MergerFor(arch), moves).history| ensures Sound(Run(MergerFor(arch), moves).history, j) {
      IndexAndManifestAgree(arch, moves, j);
    }
  }

  /** The stanzas a merge reads. */
  lemma ReadStanzas(index: string)
    requires Continues(index) && ParseBody(index).Ok? && PackagesMerge.Contribution(index).Ok?
    ensures PackagesMerge.Mergeable(index)
            && PackagesMerge.ByPath(PackagesMerge.Contribution(index).value) == StanzasOf(index)
  {
  }

  /** One merge: the stanzas it leaves, and the text as a function of them. */
  lemma MergedText(arch: string, older: string, newer: string, seconds: int)
    requires PlainArch(arch) && TrimSpace(arch) != ""
    requires PackagesMerge.Mergeable(older) && PackagesMerge.Mergeable(newer)
    ensures var m := PackagesMerge.ByPath(PackagesMerge.Contribution(older).value)
                     + PackagesMerge.ByPath(PackagesMerge.Contribution(newer).value);
            && MergerFor(arch)(older, newer, seconds) == Some(TextOf(m, arch, seconds))
            && StanzasOf(TextOf(m, arch, seconds)) == m
  {
    var a, b := PackagesMerge.Contribution(older).value, PackagesMerge.Contribution(newer).value;
    var out := PackagesMerge.Merge(older, newer, arch, Some(seconds)).value;
    PackagesMerge.MergeClosed(older, newer, arch, seconds, out);
    PackagesMerge.ContributionIsLegal(older);
    PackagesMerge.ContributionIsLegal(newer);
    PackagesMerge.MergedStanzas(a, b);
  }

  ghost function TextOf(m: map<string, Stanza>, arch: string, seconds: int): string {
    Render(Listing(PackagesMerge.Before, m.Values), arch, seconds)
  }

  /** Commit j holds its predecessor's stanzas overridden by its own. */
  lemma CommitStanzas(arch: string, s: State, j: nat)
    requires Grown(arch, s) && j < |s.history|
    ensures var job := s.history[j].job; var own := OwnStanzas(job);
            && TrimSpace(arch) != ""
            && own.Keys == ArtifactMap(Added(job)).Keys
            && StanzasOf(s.history[j].index) == StanzasBefore(s.history, j) + own
            && s.history[j].index == TextOf(StanzasBefore(s.history, j) + own, arch, job.created)
  {
    var h, c := s.history, s.history[j];
    assert Linked(MergerFor(arch), h, j);
    assert Sound(h, j);
    PackagesMerge.ByPathKeyed(PackagesMerge.Contribution(c.job.index).value);
    var older := IndexBefore(h, j);
    if j > 0 {
      assert Sound(h, j - 1);
      ReadStanzas(older);
    }
    MergedText(arch, older, c.job.index, c.job.created);
  }

  /** One step back: the path is the job's own, or artifact and stanza are those of the predecessor. */
  lemma OriginStep(arch: string, s: State, j: nat, path: string)
    requires Grown(arch, s) && j < |s.history| && path in ArtifactMap(s.history[j].manifest.artifacts)
    ensures path in ArtifactMap(Added(s.history[j].job)) ==>
              ArtifactMap(s.history[j].manifest.artifacts)[path].key.generation == s.history[j].job.attempt
    ensures path in ArtifactMap(Added(s.history[j].job)) ==> path in StanzasOf(s.history[j].index)
    ensures path !in ArtifactMap(Added(s.history[j].job)) ==>
              && j > 0 && path in ArtifactMap(s.history[j - 1].manifest.artifacts)
              && ArtifactMap(s.history[j].manifest.artifacts)[path]
                 == ArtifactMap(s.history[j - 1].manifest.artifacts)[path]
    ensures path !in ArtifactMap(Added(s.history[j].job)) && path in StanzasBefore(s.history, j) ==>
              && path in StanzasOf(s.history[j].index)
              && StanzasOf(s.history[j].index)[path] == StanzasBefore(s.history, j)[path]
  {
    LinkOf(MergerFor(arch), s, j);
    CommitStanzas(arch, s, j);
    ArtifactMapValues(Added(s.history[j].job));
  }

  /** A path's stanza is the one that its artifact's own generation was published with. */
  lemma {:induction false} StanzaOrigin(arch: string, s: State, j: nat, path: string) returns (k: nat)
    requires Grown(arch, s) && j < |s.history| && path in ArtifactMap(s.history[j].manifest.artifacts)
    ensures k <= j && s.history[k].job.attempt == ArtifactMap(s.history[j].manifest.artifacts)[path].key.generation
    ensures path in StanzasOf(s.history[j].index) && path in StanzasOf(s.history[k].index)
    ensures StanzasOf(s.history[j].index)[path] == StanzasOf(s.history[k].index)[path]
    decreases j
  {
    OriginStep(arch, s, j, path);
    if path in ArtifactMap(Added(s.history[j].job)) {
      k := j;
    } else {
      k := StanzaOrigin(arch, s, j - 1, path);
    }
  }

  lemma SameArtifactSameStanza(arch: string, s: State, i: nat, j: nat, path: string)
    requires Grown(arch, s) && i < |s.history| && j < |s.history|
    requires path in ArtifactMap(s.history[i].manifest.artifacts)
             && path in ArtifactMap(s.history[j].manifest.artifacts)
    requires ArtifactMap(s.history[i].manifest.artifacts)[path] == ArtifactMap(s.history[j].manifest.artifacts)[path]
    ensures path in StanzasOf(s.history[i].index) && path in StanzasOf(s.history[j].index)
    ensures StanzasOf(s.history[i].index)[path] == StanzasOf(s.history[j].index)[path]
  {
    var k := StanzaOrigin(arch, s, i, path);
    var n := StanzaOrigin(arch, s, j, path);
    assert Backed(s.history[k], s.objects) && Backed(s.history[n], s.objects);
  }

  /** Two maps agree on every path outside a set. */
  ghost predicate AgreeOutside<T>(a: map<string, T>, b: map<string, T>, own: set<string>) {
    forall path :: path !in own && (path in a || path in b) ==> path in a && path in b && a[path] == b[path]
  }

  ghost predicate Within<T>(own: map<string, T>, a: map<string, T>) {
    forall path :: path in own ==> path in a && a[path] == own[path]
  }

  lemma AgreeIsOverride<T>(a: map<string, T>, b: map<string, T>, own: map<string, T>)
    requires Within(own, a)
    ensures b + own == a <==> AgreeOutside(a, b, own.Keys)
  {
    if AgreeOutside(a, b, own.Keys) {
      assert forall path :: path in b + own <==> path in a;
    }
    if b + own == a {
      forall path | path !in own.Keys && (path in a || path in b)
        ensures path in a && path in b && a[path] == b[path]
      {
        assert path in b + own <==> path in a;
        assert path in b;
      }
    }
  }

  lemma OwnInManifest(arch: string, s: State, i: nat)
    requires Grown(arch, s) && i < |s.history|
    ensures Within(ArtifactMap(Added(s.history[i].job)), ArtifactMap(s.history[i].manifest.artifacts))
  {
    LinkOf(MergerFor(arch), s, i);
  }

  lemma OwnInIndex(arch: string, s: State, i: nat)
    requires Grown(arch, s) && i < |s.history|
    ensures Within(OwnStanzas(s.history[i].job), StanzasOf(s.history[i].index))
    ensures OwnStanzas(s.history[i].job).Keys == ArtifactMap(Added(s.history[i].job)).Keys
  {
    CommitStanzas(arch, s, i);
  }

  lemma IndexListsManifest(arch: string, s: State, j: nat)
    requires Grown(arch, s) && j < |s.history|
    ensures StanzasOf(s.history[j].index).Keys == ArtifactMap(s.history[j].manifest.artifacts).Keys
  {
    assert Sound(s.history, j);
    PackagesMerge.ByPathKeyed(ParseBody(s.history[j].index).value);
  }

  /** Commits whose manifests agree outside a set have indexes that agree outside it. */
  lemma StanzasAgree(arch: string, s: State, i: nat, j: nat, own: set<string>)
    requires Grown(arch, s) && i < |s.history| && j < |s.history|
    requires AgreeOutside(ArtifactMap(s.history[i].manifest.artifacts), ArtifactMap(s.history[j].manifest.artifacts),
             own)
    ensures AgreeOutside(StanzasOf(s.history[i].index), StanzasOf(s.history[j].index), own)
  {
    var a, b := StanzasOf(s.history[i].index), StanzasOf(s.history[j].index);
    IndexListsManifest(arch, s, i);
    IndexListsManifest(arch, s, j);
    forall path | path !in own && (path in a || path in b) ensures path in a && path in b && a[path] == b[path] {
      SameArtifactSameStanza(arch, s, i, j, path);
    }
  }

  /** The replayed job over the last commit's stanzas gives the stanzas it gave before. */
  lemma StanzasReturn(arch: string, s: State, i: nat, j: nat)
    requires Grown(arch, s) && i < |s.history| && j < |s.history|
    requires AgreeOutside(ArtifactMap(s.history[i].manifest.artifacts), ArtifactMap(s.history[j].manifest.artifacts),
                          ArtifactMap(Added(s.history[i].job)).Keys)
    ensures StanzasOf(s.history[j].index) + OwnStanzas(s.history[i].job) == StanzasOf(s.history[i].index)
  {
    OwnInIndex(arch, s, i);
    StanzasAgree(arch, s, i, j, ArtifactMap(Added(s.history[i].job)).Keys);
    AgreeIsOverride(StanzasOf(s.history[i].index), StanzasOf(s.history[j].index), OwnStanzas(s.history[i].job));
  }

  /** The index of commit c can be read again and only the files of commit x's own job differ. */
  ghost predicate ReturnsOver(c: Committed, x: Committed) {
    && c.job.attempt != x.job.attempt
    && Utf8Len(c.index) <= MERGE_LIMIT
    && AgreeOutside(ArtifactMap(x.manifest.artifacts), ArtifactMap(c.manifest.artifacts),
       ArtifactMap(Added(x.job)).Keys)
  }

  lemma TextReturns(arch: string, older: string, job: Job, index: string)
    requires PlainArch(arch) && TrimSpace(arch) != "" && PackagesMerge.Mergeable(job.index)
    requires Continues(older) && ParseBody(older).Ok? && Utf8Len(older) <= MERGE_LIMIT
    requires index == TextOf(StanzasOf(older) + OwnStanzas(job), arch, job.created)
    ensures MergerFor(arch)(older, job.index, job.created) == Some(index)
  {
    ReadStanzas(older);
    MergedText(arch, older, job.index, job.created);
  }

  /** A published index is the text of its own stanzas. */
  lemma IndexIsText(arch: string, s: State, j: nat)
    requires Grown(arch, s) && j < |s.history|
    ensures TrimSpace(arch) != "" && s.history[j].index == TextOf(StanzasOf(s.history[j].index), arch,
            s.history[j].job.created)
    ensures Continues(s.history[j].index) && ParseBody(s.history[j].index).Ok?
            && PackagesMerge.Mergeable(s.history[j].job.index)
  {
    CommitStanzas(arch, s, j);
    assert Sound(s.history, j);
  }

  lemma IndexReturns(arch: string, s: State, i: nat, j: nat)
    requires Grown(arch, s) && i < |s.history| && j < |s.history| && Utf8Len(s.history[j].index) <= MERGE_LIMIT
    requires AgreeOutside(ArtifactMap(s.history[i].manifest.artifacts), ArtifactMap(s.history[j].manifest.artifacts),
                          ArtifactMap(Added(s.history[i].job)).Keys)
    ensures MergerFor(arch)(s.history[j].index, s.history[i].job.index,
            s.history[i].job.created) == Some(s.history[i].index)
  {
    StanzasReturn(arch, s, i, j);
    IndexIsText(arch, s, i);
    IndexIsText(arch, s, j);
    TextReturns(arch, s.history[j].index, s.history[i].job, s.history[i].index);
  }

  lemma ArtifactsReturn(arch: string, s: State, i: nat, j: nat)
    requires Grown(arch, s) && i < |s.history| && j < |s.history|
    ensures ArtifactMap(s.history[j].manifest.artifacts) + ArtifactMap(Added(s.history[i].job))
            == ArtifactMap(s.history[i].manifest.artifacts)
            <==> AgreeOutside(ArtifactMap(s.history[i].manifest.artifacts),
                ArtifactMap(s.history[j].manifest.artifacts),
                              ArtifactMap(Added(s.history[i].job)).Keys)
  {
    OwnInManifest(arch, s, i);
    AgreeIsOverride(ArtifactMap(s.history[i].manifest.artifacts), ArtifactMap(s.history[j].manifest.artifacts),
                    ArtifactMap(Added(s.history[i].job)));
  }

  /** Only an index within the limit is merged into. */
  lemma MergedIsRead(arch: string, older: string, newer: string, seconds: int)
    requires MergerFor(arch)(older, newer, seconds).Some? && older != ""
    ensures Utf8Len(older) <= MERGE_LIMIT
  {
  }

  lemma ReturningMerges(arch: string, s: State, i: nat, j: nat)
    requires Grown(arch, s) && i < |s.history| && j < |s.history| && ReturnsOver(s.history[j], s.history[i])
    ensures RecommitsOver(MergerFor(arch), s.history[j], s.history[i])
  {
    IndexReturns(arch, s, i, j);
    ArtifactsReturn(arch, s, i, j);
  }

  lemma MergingReturns(arch: string, s: State, i: nat, j: nat)
    requires Grown(arch, s) && i < |s.history| && j < |s.history|
    requires RecommitsOver(MergerFor(arch), s.history[j], s.history[i])
    ensures ReturnsOver(s.history[j], s.history[i])
  {
    IndexIsText(arch, s, j);
    ArtifactsReturn(arch, s, i, j);
    MergedIsRead(arch, s.history[j].index, s.history[i].job.index, s.history[i].job.created);
  }

  lemma RecommitsReturns(arch: string, s: State, i: nat, j: nat)
    requires Grown(arch, s) && i < |s.history| && j < |s.history|
    ensures RecommitsOver(MergerFor(arch), s.history[j], s.history[i]) <==> ReturnsOver(s.history[j], s.history[i])
  {
    if ReturnsOver(s.history[j], s.history[i]) {
      ReturningMerges(arch, s, i, j);
    } else if RecommitsOver(MergerFor(arch), s.history[j], s.history[i]) {
      MergingReturns(arch, s, i, j);
    }
  }

  ghost predicate Returns(h: seq<Committed>, i: nat)
    requires i < |h|
  {
    ReturnsOver(h[|h| - 1], h[i])
  }

  /** The condition on the merge and the condition on the manifests agree. */
  ghost predicate SameCondition(merge: Merger, h: seq<Committed>, i: nat, j: nat)
    requires i < |h| && j < |h|
  {
    RecommitsOver(merge, h[j], h[i]) <==> ReturnsOver(h[j], h[i])
  }

  lemma RunReturns(arch: string, moves: seq<Move>, i: nat, j: nat)
    requires PlainArch(arch) && BegunWith(moves, OwnIndex)
    requires i < |Run(MergerFor(arch), moves).history| && j < |Run(MergerFor(arch), moves).history|
    ensures SameCondition(MergerFor(arch), Run(MergerFor(arch), moves).history, i, j)
  {
    RunGrown(arch, moves);
    RecommitsReturns(arch, Run(MergerFor(arch), moves), i, j);
  }

  lemma LastCondition(merge: Merger, h: seq<Committed>, i: nat, j: nat)
    requires i < |h| && j == |h| - 1 && SameCondition(merge, h, i, j)
    ensures Recommits(merge, h, i) == Returns(h, i)
  {
  }

  lemma MayReturn(merge: Merger, moves: seq<Move>, i: nat, j: nat)
    requires i < |Run(merge, moves).history| && j == |Run(merge, moves).history| - 1
    requires SameCondition(merge, Run(merge, moves).history, i, j)
    ensures MayRecommit(merge, moves, i) <==> Returns(Run(merge, moves).history, i)
  {
    RecommitsExactly(merge, moves, i);
    LastCondition(merge, Run(merge, moves).history, i, j);
  }

  /** A committed attempt can be committed again exactly when it is not the last one, the last index is within the size
      limit, and every path on which its manifest and the last one differ is one of its own files. */
  lemma ReplayReturnsExactly(arch: string, moves: seq<Move>, i: nat)
    requires PlainArch(arch) && BegunWith(moves, OwnIndex)
    requires i < |Run(MergerFor(arch), moves).history|
    ensures MayRecommit(MergerFor(arch), moves, i) <==> Returns(Run(MergerFor(arch), moves).history, i)
  {
    var j := |Run(MergerFor(arch), moves).history| - 1;
    RunReturns(arch, moves, i, j);
    MayReturn(MergerFor(arch), moves, i, j);
  }

  // ------------------------------------------------------- a replay that takes effect

  /** What a merge of a job's own index leaves when it overrides everything. */
  ghost function OwnText(arch: string, job: Job): string {
    TextOf(OwnStanzas(job), arch, job.created)
  }

  lemma SameKeysOverride<T>(a: map<string, T>, b: map<string, T>)
    requires a.Keys <= b.Keys
    ensures a + b == b
  {
    assert (a + b).Keys == b.Keys;
  }

  /** Merging into an index over the same paths, or into none, leaves the job's own text. */
  lemma MergesToOwn(arch: string, older: string, job: Job)
    requires PlainArch(arch) && TrimSpace(arch) != "" && OwnIndex(job) && PackagesMerge.Mergeable(older)
    requires PackagesMerge.ByPath(PackagesMerge.Contribution(older).value).Keys <= OwnStanzas(job).Keys
    ensures MergerFor(arch)(older, job.index, job.created) == Some(OwnText(arch, job))
    ensures Utf8Len(OwnText(arch, job)) <= MERGE_LIMIT ==>
              && PackagesMerge.Mergeable(OwnText(arch, job))
              && PackagesMerge.ByPath(PackagesMerge.Contribution(OwnText(arch, job)).value) == OwnStanzas(job)
  {
    SameKeysOverride(PackagesMerge.ByPath(PackagesMerge.Contribution(older).value), OwnStanzas(job));
    MergedText(arch, older, job.index, job.created);
    PackagesMerge.MergeClosed(older, job.index, arch, job.created, OwnText(arch, job));
  }

  /** Two jobs over the same paths. */
  ghost predicate SamePaths(a: Job, b: Job) {
    && LegalJob(a) && LegalJob(b) && PlainFiles(a) && PlainFiles(b) && a.attempt != b.attempt
    && (a.signed ==> TrimSpace(a.signingKey) != "") && (b.signed ==> TrimSpace(b.signingKey) != "")
    && ArtifactMap(Added(a)).Keys == ArtifactMap(Added(b)).Keys
  }

  lemma OwnKeys(job: Job)
    requires OwnIndex(job)
    ensures OwnStanzas(job).Keys == ArtifactMap(Added(job)).Keys
  {
    PackagesMerge.ByPathKeyed(PackagesMerge.Contribution(job.index).value);
  }

  lemma SamePathsAreRivals(arch: string, a: Job, b: Job)
    requires PlainArch(arch) && TrimSpace(arch) != "" && OwnIndex(a) && OwnIndex(b) && SamePaths(a, b)
    requires Utf8Len(OwnText(arch, a)) <= MERGE_LIMIT && Utf8Len(OwnText(arch, b)) <= MERGE_LIMIT
    ensures Rivals(MergerFor(arch), a, b, OwnText(arch, a), OwnText(arch, b))
  {
    OwnKeys(a);
    OwnKeys(b);
    assert PackagesMerge.Contribution("").value == [];
    MergesToOwn(arch, "", a);
    MergesToOwn(arch, OwnText(arch, a), b);
    MergesToOwn(arch, OwnText(arch, b), a);
  }

  /** Two attempts that build the same paths: the replay of the first takes the channel back from the second. */
  lemma RebuiltPathsCycle(arch: string, a: Job, b: Job) returns (moves: seq<Move>)
    requires PlainArch(arch) && TrimSpace(arch) != "" && OwnIndex(a) && OwnIndex(b) && SamePaths(a, b)
    requires Utf8Len(OwnText(arch, a)) <= MERGE_LIMIT && Utf8Len(OwnText(arch, b)) <= MERGE_LIMIT
    ensures var h := Run(MergerFor(arch), moves).history;
            && |h| == 3 && h[2].manifest == h[0].manifest && h[2].index == h[0].index
            && h[0].pointer.generation == h[2].pointer.generation == a.attempt && h[1].pointer.generation == b.attempt
            && h[1].pointer.previous == Some(a.attempt) && h[2].pointer.previous == Some(b.attempt)
  {
    SamePathsAreRivals(arch, a, b);
    moves := GenerationsCanCycle(MergerFor(arch), a, b, OwnText(arch, a), OwnText(arch, b));
  }

  /** A job of one artifact at path p. */
  function OneFile(attempt: string, bytes: string, index: string): Job {
    Job(attempt, 0, false, "", [Staged("p", bytes)], index)
  }

  lemma OneFileKeys(attempt: string, bytes: string, index: string)
    ensures ArtifactMap(Added(OneFile(attempt, bytes, index))).Keys == {"p"}
  {
    var list := Added(OneFile(attempt, bytes, index));
    assert list[..0] == [];
    assert ArtifactMap(list) == map["p" := list[0]];
  }

  lemma OneFileSamePaths(a: string, b: string, x: string, y: string, index: string)
    requires a != b
    ensures SamePaths(OneFile(a, x, index), OneFile(b, y, index))
  {
    OneFileKeys(a, x, index);
    OneFileKeys(b, y, index);
    assert |"p"| != |PACKAGES| && |"p"| != |MANIFEST|;
  }

  lemma OneStanzaOwn(attempt: string, bytes: string, index: string, stanza: Stanza)
    requires PackagesMerge.Contribution(index) == Ok([stanza]) && PackagesMerge.Mergeable(index) && stanza.path == "p"
    ensures OwnIndex(OneFile(attempt, bytes, index))
    ensures OwnStanzas(OneFile(attempt, bytes, index)) == map["p" := stanza]
  {
    OneFileKeys(attempt, bytes, index);
    assert [stanza][..0] == [];
    assert PackagesMerge.ByPath([stanza]) == map["p" := stanza];
    assert Paths([stanza]) == {"p"};
  }

  lemma OneStanzaText(arch: string, job: Job, stanza: Stanza)
    requires OwnStanzas(job) == map[stanza.path := stanza]
    ensures OwnText(arch, job) == Render(PackagesMerge.MergeStanzas([], [stanza]), arch, job.created)
  {
    assert [stanza][..0] == [];
    assert PackagesMerge.ByPath([]) + PackagesMerge.ByPath([stanza]) == map[stanza.path := stanza];
  }

  /** The one artifact of the example, with its index. */
  function ExampleJob(attempt: string, bytes: string): Job {
    OneFile(attempt, bytes, IndexExamples.PlainIndex())
  }

  lemma ExampleOwns(arch: string, attempt: string, bytes: string)
    requires |arch| <= 1000
    ensures OwnIndex(ExampleJob(attempt, bytes))
    ensures Utf8Len(OwnText(arch, ExampleJob(attempt, bytes))) <= MERGE_LIMIT
  {
    IndexExamples.PlainIsAccepted();
    OneStanzaOwn(attempt, bytes, IndexExamples.PlainIndex(), IndexExamples.PlainStanza());
    OneStanzaText(arch, ExampleJob(attempt, bytes), IndexExamples.PlainStanza());
    IndexExamples.PlainMergeSmall(arch);
  }

  /** One artifact at one path, built by attempt a as x and rebuilt by attempt b as y. */
  lemma ReplayTakesTheChannelBack(arch: string, a: string, b: string, x: string, y: string) returns (moves: seq<Move>)
    requires PlainArch(arch) && TrimSpace(arch) != "" && |arch| <= 1000 && a != b
    ensures var h := Run(MergerFor(arch), moves).history;
            && |h| == 3 && h[2].manifest == h[0].manifest && h[2].index == h[0].index
            && h[0].pointer.generation == h[2].pointer.generation == a && h[1].pointer.generation == b
            && h[1].pointer.previous == Some(a) && h[2].pointer.previous == Some(b)
  {
    ExampleOwns(arch, a, x);
    ExampleOwns(arch, b, y);
    OneFileSamePaths(a, b, x, y, IndexExamples.PlainIndex());
    moves := RebuiltPathsCycle(arch, ExampleJob(a, x), ExampleJob(b, y));
  }
}
