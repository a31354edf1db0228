# Portage Engine: a Dafny model

Portage Engine builds Gentoo binary packages on disposable builders, verifies and signs them, and publishes them as
immutable generations behind one channel pointer. This project models the parts of it where many actors or many input
forms meet, and proves what the system relies on there:

- `Publication.dfy`, `Republication.dfy`, `PublishedIndex.dfy`: any number of publishers upload write-once objects and
  commit one pointer by compare-and-swap, with crashes and lost replies between any two steps. A run is a list of moves;
  the theorems hold for every list. The second and third say when an attempt can be committed again.
- `IndexText.dfy`, `PackagesIndex.dfy`, `PackagesMerge.dfy`, `IndexExamples.dfy`: the Packages index as text, its parser,
  the merge, and two small indexes written out.
- `Binhost.dfy`, `Versions.dfy`, `PackageStore.dfy`, `Promotion.dfy`, `Xpak.dfy`: the index generator, the query view,
  version comparison, promotion of staged files with rollback, and the XPAK metadata parser.
- `NativeBuilder.dfy`: the single-use builder over shared data, with failing system calls, crashes, restarts, power loss
  and redelivered commands.
- `Pipeline.dfy`, `FenceOrder.dfy`, `StatusLedger.dfy`: verification, signing and publication of a job while a reconciler
  rewrites its in-memory record, and the in-memory status against the durable ledger.
- `CompileLease.dfy`: compile leases, their heartbeat, every way out of the build they serve, and the fence on its output.
- `ReleaseManifest.dfy`, `Capabilities.dfy`, `ConfigTransfer.dfy`, `RepoFiles.dfy`: release promotion and rollback
  chains, label routing, and the print/parse pairs for Portage configuration.
- `Text.dfy`, `SlashPath.dfy`, `Ordering.dfy`: Go's string, path and sorting functions that the rest uses.

`dafny verify dfyconfig.toml` checks the whole project.

## Modelling decisions

- Text is a sequence of code points; Go's byte length is `Utf8Len`. Go's 64-bit integer range is written out where a
  value is parsed.
- SHA-256 is an injective constructor, and JSON documents are the values they encode, except that the job file of the
  native builder drops empty lists as its encoding does. The truncated hash of a capacity
  pool is a function for which non-collision is assumed only among the pools at hand.
- Ranging over a Go map is a choice of an arbitrary remaining key. Where the source sorts afterwards, the result is
  proved not to depend on the choice; where it does not sort, the theorem covers every order.
- Object storage keeps its contract: an upload creates an object or finds the same bytes, and the swap succeeds only on
  the content that was read. The PostgreSQL ledger accepts or rejects each call as it likes.
- Time, randomness, the network and foreign tools are parameters: outcomes, faults, or events in a run.

## Model

| member | source | states |
|---|---|---|
| Publication.ChannelIsBacked | internal/builder/manager.go:5718-5799 | in every reachable state the channel pointer names a manifest, a Packages object and artifacts that exist and hash to the recorded digests, all under one generation ID |
| Publication.StaleReadersSeeOneGeneration | internal/builder/manager.go:5854-5906 | a pointer read at any moment stays fully readable after any further moves of any publishers |
| Publication.CommitsFormOneChain | internal/builder/manager.go:5718-5799 | over every interleaving commit i names the generation of commit i - 1, differs from it, and its artifact map is the fold of all jobs committed so far, later ones overriding; the chain is one of commits, since a generation ID can come back (next rows) |
| Republication.RecommitsExactly | internal/builder/manager.go:5746-5799 | an attempt committed at i can be the next commit of some continuation if and only if it is not the last one and merging it into the last commit gives back its index and its artifact map |
| PublishedIndex.ReplayReturnsExactly | internal/builder/manager.go:5746-5799 | with the real merge that is so if and only if it is not the last one, the last index is within the size limit, and every path on which the two manifests differ is one of its own files |
| Republication.GenerationsCanCycle | internal/builder/manager.go:5989-5996 | for any two jobs over the same paths whose merges undo each other, a run commits a, b, a with predecessors none, a, b; all publishers begin before the first commit |
| PublishedIndex.ReplayTakesTheChannelBack | internal/builder/manager.go:5746-5754 | such a run for one artifact at one path built by two attempts, with the real merge and a real index |
| PublishedIndex.RebuiltPathsCycle | internal/builder/manager.go:5746-5754 | such a run for any two attempts that build the same paths, with the real merge |
| Republication.GenerationsStayDistinct | internal/builder/manager.go:5746-5754 | if every publisher reads the channel for an attempt not committed by then, no generation ID occurs twice |
| Republication.BegunAnewStaysDistinct | internal/builder/manager.go:5746-5754 | if no attempt is begun after its commit or while a publisher still works on it, no generation ID occurs twice |
| Republication.PublishesAlone | internal/builder/manager.go:5718-5799 | a publisher that runs alone from its start commits exactly its job on top of what it read, if its merge works and every key it writes is free or holds the same bytes |
| PublishedIndex.StanzaOrigin | internal/builder/manager.go:5757-5769 | in every published index the stanza of a path is the one of the generation that stored its artifact |
| Publication.NoPathIsLost | internal/builder/manager.go:5915-5937 | a path in one committed generation is in every later one |
| Publication.GenerationsAreImmutable | internal/builder/manager.go:5747-5754 | two commits with one generation ID have the same manifest and the same index |
| Publication.ReplayChangesNothing | internal/builder/manager.go:5746-5754 | once a publisher has read its own attempt from the channel, then among any moves of any publishers each of its own leaves objects, pointer and history as they were, until it begins again |
| Publication.ReadingSettles | internal/builder/manager.go:5738-5754 | the read that brings a publisher there is exactly one that finds its attempt on the channel, or an empty channel and an index that does not merge |
| Publication.CommitKeeps | internal/builder/manager.go:5773-5797 | the swap, failed or successful, keeps pointer, objects, chain and all other publishers consistent |
| Publication.MergedArtifactsBacked | internal/builder/manager.go:5915-5937 | every artifact of a merged manifest is stored under its key with its digest, inherited or new |
| Publication.RunKeeps | internal/builder/manager.go:5718-5799 | the invariant tying pointer, history, objects and every publisher's position holds after every list of moves |
| Publication.RunGrows | internal/storage/s3.go:132-187 | no continuation of a run removes or rewrites an object or a commit |
| Publication.ListOfReadsBack | internal/builder/manager.go:5938-5945 | writing the artifact map as a list sorted by path loses nothing |
| Publication.ObjectStore.Put | internal/storage/s3.go:132-187 | an accepted upload is the create-once result; a refused one leaves the store alone and has a reason |
| Publication.UploadArtifacts | internal/builder/manager.go:5908-5946 | on success every file is stored and the merged list comes back in path order; on failure some file was unreachable or its key held other bytes |
| Publication.PublishedKeys | internal/builder/manager.go:6083-6100 | returns the key of every path exactly when all are present, and otherwise names a missing one |
| Publication.CommittedKeysCoverJob | internal/builder/manager.go:5798-5799 | every file of a committed job is in its manifest |
| PublishedIndex.IndexAndManifestAgree | internal/builder/manager.go:5757-5769 | if every job's verified index lists exactly its artifacts, then after every commit of every run the PATHs of the published index are the paths of the published manifest |
| PackagesIndex.ParsedIsLegal | internal/binpkg/index_merge.go:105-148 | everything the parser accepts is a list of self-consistent stanzas under distinct confined paths |
| PackagesIndex.ParseRendered | internal/binpkg/index_merge.go:46-57 | a printed index reads back stanza for stanza if and only if no printed stanza holds a carriage return before a newline |
| PackagesIndex.RenderedPreamble | internal/binpkg/index_merge.go:46-50 | the printed preamble reads back with the architecture, version 0 and the true stanza count |
| PackagesIndex.BlockFields | internal/binpkg/index_merge.go:150-163 | a printed block of good fields reads back as exactly those fields |
| SlashPath.RelativeFileIsNames | internal/binpkg/index_merge.go:129-135 | the path test accepts exactly the non-empty slash-separated lists of plain names without backslashes |
| PackagesMerge.MergePackagesIndexes | internal/binpkg/index_merge.go:16-57 | computes the merge specification, error cases included, whatever order the map is ranged in |
| PackagesMerge.ParseStanzas | internal/binpkg/index_merge.go:105-148 | the parsing loop computes the parser specification |
| PackagesMerge.ParseFields | internal/binpkg/index_merge.go:150-163 | the field loop computes the field specification |
| PackagesMerge.PrintIndex | internal/binpkg/index_merge.go:46-57 | the printing loop writes the rendered index |
| PackagesMerge.MergedStanzas | internal/binpkg/index_merge.go:24-45 | the merged list is legal, strictly ordered by CPV and PATH, and is exactly the overlay by PATH with the newer stanza winning |
| PackagesMerge.MergeReadsBack | internal/binpkg/index_merge.go:16-57 | the merge output parses to that overlay with the right PACKAGES count, if and only if no merged stanza holds a carriage return before a newline |
| PackagesMerge.MergeClosed | internal/binpkg/index_merge.go:16-57 | a merge of mergeable inputs is a legal input to the next merge if and only if it is within the size limit |
| PackagesMerge.MergeAssociative | internal/binpkg/index_merge.go:16-57 | merging is associative, byte for byte |
| PackagesMerge.MergeIdempotent | internal/binpkg/index_merge.go:16-57 | merging an index with itself or with nothing gives the same result |
| PackagesMerge.MergeIdentity | internal/binpkg/index_merge.go:16-57 | the empty index is a two-sided identity on merge outputs, which are fixed points of self-merge |
| PackagesMerge.MergeKeepsPaths | internal/binpkg/index_merge.go:24-36 | the paths of a merge are the union of the inputs' paths |
| PackagesMerge.NoReturnsIsMergeable | internal/binpkg/index_merge.go:105-118 | an accepted index without carriage returns is always mergeable |
| IndexExamples.CarriageReturnsCanHide | internal/binpkg/index_merge.go:105-148 | an index of one stanza with a doubled carriage return is accepted, is not mergeable, and its merge does not read back as the overlay, so the condition is needed |
| IndexExamples.HidingIndexText | internal/binpkg/index_merge.go:105-118 | that index, character by character |
| Binhost.LoadedViewIsDirectView | internal/binpkg/index_merge.go:61-97 | for well-formed scans, loading the printed index gives exactly the view built from the scan, or the size error when it is over the limit |
| Binhost.PrintedIndexParses | internal/binpkg/binhost.go:62-126 | the generated index parses into one stanza per entry, in order |
| Binhost.PrintEntries | internal/binpkg/binhost.go:70-112 | the generator's loops write the specified text |
| Binhost.PrintMeta | internal/binpkg/binhost.go:88-104 | the ordered keys come first, then all others sorted, independent of map order |
| Binhost.BuildView | internal/binpkg/store.go:218-226 | the refresh loop builds the direct view |
| Binhost.LoadAll | internal/binpkg/index_merge.go:66-90 | the load loop computes the loaded view or its first error |
| Binhost.SplitCpvIs | internal/binpkg/store.go:435-442 | a CPV splits at the last hyphen followed by a digit, without loss, and fails exactly when there is none |
| Binhost.BuildIdSplits | internal/binpkg/binhost.go:222-252 | stripping and extracting a build ID agree and lose nothing |
| Versions.CompareVersions | internal/binpkg/store.go:448-466 | the comparison loop computes the component-wise order |
| Versions.VersionLessIsAsymmetric | internal/binpkg/store.go:448-466 | irreflexive and asymmetric on all versions |
| Versions.TransitiveExactly | internal/binpkg/store.go:448-466 | whatever components are allowed at each position, the versions built from them are ordered transitively if and only if no position allows a text that sorts between two numbers which are not in that order as numbers |
| Versions.VersionLessIsTransitive | internal/binpkg/store.go:448-466 | transitive on any three versions without such a text at a common position |
| Versions.LetteredIsTransitive | internal/binpkg/store.go:448-466 | so transitive on versions whose components are numbers or start after the digits, revisions and suffixes included |
| Versions.IncomparableVersionsAgree | internal/binpkg/store.go:448-466 | any two versions ordered neither way have equal components, number for number |
| Versions.NumericVersionLess | internal/binpkg/store.go:448-466 | on all-numeric versions it is the lexicographic order of the numbers |
| Versions.MixedVersionsCycle | internal/binpkg/store.go:448-466 | 2, 10 and 1a form a cycle, because 1a sorts between 10 and 2 |
| PackageStore.KeysCollideExactly | internal/binpkg/store.go:156-161 | two name and architecture pairs share a key if and only if they are equal or differ by moving a bar between architecture and name |
| PackageStore.BarsDecide | internal/binpkg/store.go:156-161 | some other pair shares the key through the architecture if and only if the architecture has a bar, and through the name if and only if the name has one |
| PackageStore.KeyIsUnambiguous | internal/binpkg/store.go:156-161 | so among architectures without a bar the key determines name and architecture |
| PackageStore.DirectViewIsFiled | internal/binpkg/store.go:212-233 | the refreshed view files every package under its own key |
| PackageStore.LoadViewIsFiled | internal/binpkg/index_merge.go:61-97 | so does every loaded view |
| PackageStore.Newest | internal/binpkg/store.go:83-95 | the selection loop finds a match exactly when there is one, and no match is newer when no text stands between two numbers in the wrong order among the matching versions |
| PackageStore.NewestExactly | internal/binpkg/store.go:83-95 | for a query without a version, the selection is maximal for every list and order of candidates over the allowed components if and only if no position allows such a text |
| PackageStore.Store.Candidates | internal/binpkg/store.go:126-137 | the candidates are exactly the stored packages of that name, restricted to the architecture if one is given, in every map order |
| PackageStore.Store.Find | internal/binpkg/store.go:79-96 | a query succeeds exactly when some stored package matches, and returns a maximal one when no such text is among the matching versions |
| PackageStore.Store.Add | internal/binpkg/store.go:140-154 | replaces the first package of that version or appends, and keeps packages under their keys |
| PackageStore.Store.RegenerateIndex | internal/binpkg/store.go:205-233 | text and view are rebuilt from one arrangement of one scan, or neither changes |
| PackageStore.Store.LoadPackagesIndex | internal/binpkg/index_merge.go:61-97 | the view is replaced by the loaded one or left alone on any error |
| PackageStore.Store.PromoteStaged | internal/binpkg/store.go:239-328 | files, view, index and result after every combination of invalid paths, failing steps and failing removals |
| PackageStore.SortEntries | internal/binpkg/binhost.go:68-68 | a permutation of the scan in CPV order |
| Promotion.PromoteIsAllOrNothing | internal/binpkg/store.go:239-328 | a failed promotion leaves the files exactly as before if and only if no file it created refuses removal |
| Promotion.RollbackCanStrand | internal/binpkg/store.go:272-279 | a copy failure together with a removal failure leaves one file behind |
| Promotion.PromoteKeepsPublished | internal/binpkg/store.go:281-316 | published paths never change content, nothing but staged files appears, and on success every staged file is published |
| Promotion.PromoteIsIdempotent | internal/binpkg/store.go:289-304 | repeating a successful promotion is accepted and changes nothing |
| Promotion.CleanRelsAreStaged | internal/binpkg/store.go:244-261 | accepted path lists are distinct and name regular staged files |
| Promotion.ValidateRels | internal/binpkg/store.go:244-261 | the validation loop computes the specification with its first error |
| Promotion.PackageTree.CopyStaged | internal/binpkg/store.go:281-316 | copies exactly up to the first blocked destination and records what it created |
| Promotion.PackageTree.Rollback | internal/binpkg/store.go:272-279 | removes exactly the created files whose removal succeeds |
| Xpak.ParseXpakBlob | internal/binpkg/binhost.go:460-503 | total on every byte string; collects the readable entries, and an empty result is absent |
| Xpak.ScanIndex | internal/binpkg/binhost.go:478-498 | the cursor loop stays in bounds, ends, and collects exactly the entries of the index |
| Xpak.EncodedReadsBack | internal/binpkg/binhost.go:460-503 | the canonical encoding of any entry list reads back as that list |
| Xpak.LastDuplicateWins | internal/binpkg/binhost.go:493-497 | a normalized name holds the value of its last entry that has something on a line |
| Xpak.NothingLater | internal/binpkg/binhost.go:493-497 | entries of other names or with blank values neither add nor change a key |
| Xpak.ScanSingleLine | internal/binpkg/binhost.go:507-516 | joins the trimmed non-empty lines, stopping at a line the scanner cannot hold |
| Xpak.SingleLineIsOneLine | internal/binpkg/binhost.go:505-516 | the result is one line without space at its ends |
| NativeBuilder.AtMostOneJobStarts | internal/builder/local.go:253-362 | over every run of any number of processes at most one job is admitted and at most one starts, and then the synced marker stays |
| NativeBuilder.RedeliveryReturnsTheJob | internal/builder/local.go:605-634 | redelivering a recorded request returns its job ID and enqueues nothing, unless it had an empty bundle that the build has filled in, or it has been read back without an empty list it had; then it is refused: both cases exactly |
| NativeBuilder.ReloadStays | internal/builder/local.go:32-57 | a request survives the job file unchanged if and only if none of its omittable lists is present and empty |
| NativeBuilder.RunSafe | internal/builder/local.go:295-362 | the invariant of marker, admissions, queues and starts holds after every list of events |
| NativeBuilder.RunShaped | internal/builder/local.go:558-581 | recorded jobs keep unique execution IDs, and a stored request differs from the submitted one only by the in-place completion and the reload |
| NativeBuilder.LocalBuilder.constructor | internal/builder/local.go:253-289 | any marker, readable or not, taints a starting builder, and interrupted jobs are loaded as failed |
| NativeBuilder.LocalBuilder.Reserve | internal/builder/local.go:295-340 | succeeds exactly when builder and marker were clean and no call failed; marker, taint and owner afterwards in every case |
| NativeBuilder.LocalBuilder.Release | internal/builder/local.go:345-360 | clears marker and flags together, only for the owner and only when the removal works |
| NativeBuilder.LocalBuilder.Lookup | internal/builder/local.go:614-634 | answers redelivered, reused or new as the recorded jobs warrant, in every map order |
| NativeBuilder.LocalBuilder.SubmitBuild | internal/builder/local.go:605-662 | the whole new state and answer: redelivery and reuse change nothing; a new request is admitted exactly when builder and marker are clean, the marker is written and the queue has room; marker, flags and owner after draining, a storage fault and a full queue |
| NativeBuilder.SubmitBuildIsARun | internal/builder/local.go:605-662 | among any moves of other processes, short of power loss, the calls of one submission leave its builder as that contract says with the marker as it stood at the creation, admit a job exactly when it says so, and while the builder is the owner the marker is there and its own |
| Pipeline.PromotedSetWasChecked | internal/builder/manager.go:2273-2340 | over every run, whatever rows the ticks deliver, a promoted set passed an install check as the step before, and with signing on the first set had passed one and been refused under the signed policy |
| Pipeline.SigningHoldsExactly | internal/builder/manager.go:2273-2340 | over all runs with rows from a given set in any order, every promotion with signing on had its first check without and its last check with a signature, if and only if all rows are signed, or all have one attempt: the job's own, none, or the first one a job without attempt gets |
| FenceOrder.SigningHoldsInOrder | internal/builder/manager.go:2273-2340 | over all runs whose rows arrive in fence order, the same holds if and only if every row that can follow a claim is signed, and a job without a claim sees no signature before it gets one unless all its rows are signed |
| FenceOrder.RunKeepsOrder | internal/builder/manager.go:1241-1289 | the invariant of last claim, signature flags and pipeline position holds after every such run |
| Pipeline.PromotedOnlyAfterCheck | internal/builder/manager.go:2273-2340 | the same for one run and the rows it delivers |
| Pipeline.ReclaimedRowLosesTheSignature | internal/builder/manager.go:1270-1273 | a run in which the row of the next live attempt arrives between adoption and the last check, so that this check does not require a signature and the set is promoted |
| Pipeline.SignedFactsStay | internal/builder/manager.go:2479-2559 | after adoption under one attempt, as long as the job has a staged set it is the adopted one, signed, with a key ID |
| Pipeline.RunBase | internal/builder/manager.go:2273-2340 | the invariant of staged set, pipeline position and log holds after every list of moves, with or without a ledger |
| Pipeline.RunKeeps | internal/builder/manager.go:2273-2340 | with trusted rows, so does the invariant on signature flags and claims |
| Pipeline.UpdateKeeps | internal/builder/manager.go:4119-4172 | the guarded write-back of a status update keeps the facts about the staged set |
| Pipeline.Manager.SyncLedgerJobs | internal/builder/manager.go:1241-1259 | exactly the durable jobs remain, each with its local facts preserved |
| StatusLedger.MemoryIsDurable | internal/builder/manager.go:4119-4172 | under every interleaving of updates, ticks, claims, completions and failures, a status with an attempt ID is one the ledger returned or accepted |
| StatusLedger.LateWriteBackIsExact | internal/builder/manager.go:4148-4156 | a late write-back replaces a newer version by an older one exactly when that version shows the copied attempt, fence and status again, and never when the ledger does not repeat them |
| StatusLedger.RepeatedStatusGoesBack | internal/builder/manager.go:4148-4156 | a run in which a repeated status makes a late write-back go one version back |
| StatusLedger.RunKeeps | internal/builder/manager_phase.go:138-206 | memory and every pending thread hold ledger rows, and accepted versions are later than the copied ones |
| CompileLease.ReleasedExactlyOnce | internal/builder/manager_distcc.go:91-243 | on every run, through every way out of the build, a granted lease is released at most once, exactly once when the caller is done, and the release is the last call about it |
| CompileLease.ReleaseReason | internal/builder/manager.go:2153-2269 | accepted output passed all three fences, its release has no reason exactly if the lease was authorized each time and otherwise says it expired under local fallback; any other reason means the output was not accepted |
| CompileLease.SilentAfterwards | internal/builder/manager_distcc.go:228-241 | after the caller is done no continuation makes another call about the lease |
| CompileLease.Collector.Collect | internal/builder/manager.go:6442-6513 | success exactly when everything arrived, both fences passed and the record persisted, with the last fence after staging; then each time the lease was absent, authorized, or lost under local fallback with a live claim; a failure after opening leaves nothing staged |
| CompileLease.Collector.Fetch | internal/builder/manager.go:6473-6491 | all artifacts arrive under their clean paths, or the collection stops |
| ReleaseManifest.StableHistory | scripts/release_manifest.py:386-469 | in every accepted history a stable manifest carries some candidate's payload and registry, and the digests of what it replaced lead only through earlier stable manifests of that registry with creation times that never rise |
| ReleaseManifest.OutputsKeepTheirInput | scripts/release_manifest.py:415-466 | a rollback carries its target's payload and never targets what it replaces; a promotion carries its candidate's and is not older |
| ReleaseManifest.WrittenSound | scripts/release_manifest.py:352-469 | every manifest written by any accepted steps satisfies the transition rules and refers only to written manifests |
| Capabilities.RoutingIsExact | internal/builder/capabilities.go:123-166 | a request is covered by derived labels if and only if one resolved profile has all seven of its dimensions and some profile has its egress policy |
| Capabilities.ProfilesAreCovered | internal/builder/capabilities.go:208-247 | every phase requirement of every resolved profile is among the executor's labels |
| Capabilities.LegacyIsNeverCovered | internal/builder/capabilities.go:136-141 | a request without a resolved context is never covered by derived labels |
| Capabilities.RequirementsAre | internal/builder/capabilities.go:142-166 | the requirements of a phase are the trimmed dimensions spelled out, plus the egress policy |
| Capabilities.PoolDecides | internal/builder/capabilities.go:42-67 | a covered pool label comes from a profile with the same seven dimensions |
| Capabilities.Normalize | internal/builder/capabilities.go:102-121 | accepts exactly label lists within the limit that match the pattern, and returns the trimmed labels sorted without duplicates |
| Capabilities.PhaseRequirements | internal/builder/capabilities.go:126-166 | succeeds exactly for a known phase, complete dimensions and valid labels, with those labels in order |
| Capabilities.ResolveExecutorCapabilities | internal/builder/capabilities.go:208-247 | the labels are exactly what the profiles ask for plus the instance label; any invalid profile refuses all |
| Capabilities.SpellInjective | internal/builder/capabilities.go:146-160 | a label text determines its kind and value |
| ConfigTransfer.PackageUseRoundTrip | internal/builder/config_transfer.go:808-824 | in every line order package.use reads back as the same map if and only if every atom is a plain word not starting a comment and has at least one plain flag |
| ConfigTransfer.MakeConfRoundTrip | internal/builder/config_transfer.go:879-895 | appending rendered settings to any make.conf reads back as the old settings overridden by exactly the new ones, global USE included, if and only if the new settings are printable as single assignments |
| ConfigTransfer.RepoConfRoundTrip | internal/builder/config_transfer.go:898-928 | a repository file reads back as exactly the printed repository if and only if its name, fields and priority are plain |
| RepoFiles.ReposConfRoundTrip | internal/builder/config_transfer.go:898-928 | writing a list of repositories into an empty repos.conf succeeds and reads back up to order if and only if every repository is plain, every name leads to a visible file directly in the directory, and no two lead to the same file |
| RepoFiles.PlainNamesRoundTrip | internal/builder/config_transfer.go:898-928 | for names without slashes: if and only if the names are distinct, none is empty, starts with a dot or holds a NUL, and every repository is plain |
| RepoFiles.NamesTarget | internal/builder/config_transfer.go:920-920 | a name whose components are plain leads to that path below the directory |
| RepoFiles.LeadingSlashIsLost | internal/builder/config_transfer.go:920-920 | a slash in front of a name changes nothing, so b and /b share a file |
| RepoFiles.NestedIsRefused | internal/builder/config_transfer.go:922-924 | a name in two plain parts is refused, because its directory does not exist |
| RepoFiles.WriteReposConf | internal/builder/config_transfer.go:898-928 | the files are written where the cleaned path of each name says, equal paths overwriting, up to the first write that fails |
| RepoFiles.ReadReposConf | internal/builder/config_transfer.go:339-362 | the visible .conf files of the directory in name order, or the one file |
| ConfigTransfer.ReadUseIsGood | internal/builder/config_transfer.go:211-235 | whatever the file, every entry read is one that printing keeps |
| ConfigTransfer.ReadSettingsAreGood | internal/builder/config_transfer.go:151-182 | whatever the file, every setting read is one that printing keeps |
| ConfigTransfer.ReadReposAreGood | internal/builder/config_transfer.go:364-445 | whatever the file, every repository read is one that printing keeps |
| ConfigTransfer.ParsePackageUse | internal/builder/config_transfer.go:211-235 | the reading loop computes the line-by-line specification |
| ConfigTransfer.ReadMakeConf | internal/builder/config_transfer.go:151-182 | the reading loop computes the line-by-line specification |
| ConfigTransfer.ParseRepoConf | internal/builder/config_transfer.go:364-445 | the reading loop with its current repository computes the line-by-line specification |
| ConfigTransfer.WritePackageUse | internal/builder/config_transfer.go:808-818 | one line per entry, in some order of the keys |
| ConfigTransfer.RenderMakeConf | internal/builder/config_transfer.go:630-643 | a comment and one assignment per setting in key order |

Where the code and its own comments differ, the model follows the code: `PromoteStaged` is described as atomic, and
`Promotion.PromoteIsAllOrNothing` gives the exact condition; `preserveLocalGenerationFacts` is described as only moving
facts forward, and `Pipeline.SigningHoldsExactly` and `FenceOrder.SigningHoldsInOrder` give the rows for which that is
enough; the key separator is described as impossible in names and versions, and `PackageStore.KeysCollideExactly` says
which pairs collide; the generation ID is described as making a replay of an attempt harmless, and
`PublishedIndex.ReplayReturnsExactly` says when a replay takes effect.

## Left out

- Publication.RunGrows: deletion of old generations by a separately configured lifecycle client is not modelled, so objects only accumulate.
- Publication.CommitsFormOneChain: one channel at a time, because keys of different channels never meet; the generation ID is identified with the attempt ID.
- Publication.UploadArtifacts: sizes, provenance and profile fields of manifests are not carried, because nothing depends on them.
- Publication.RunKeeps: reading and checking the verification capability is not modelled; a job is what that check yields.
- Binhost.LoadedViewIsDirectView: assumes entries with one-line values under index keys; walking the directory, hashing and unpacking packages is one function of the files.
- PackageStore.Store.PromoteStaged: creating a directory is a step that fails or not, and directories are not nodes; temporary files of the atomic copy are not modelled.
- NativeBuilder.AtMostOneJobStarts: only the single-use policy, and a synced marker is taken to survive power loss with its directory entry.
- NativeBuilder.RedeliveryReturnsTheJob: request validation is not modelled, and a request carries only some of its fields; the omittable lists it has stand for all of them.
- NativeBuilder.SubmitBuildIsARun: the worker of the same process does not take a job during the submission.
- FenceOrder.SigningHoldsInOrder: a claim that has lapsed is taken not to come back, and a fence to tell its attempt, as renewal and claiming in the ledger have it.
- Pipeline.SigningHoldsExactly: for a job that starts unsigned, and rows that carry a whole claim identity or none, as the ledger issues them.
- Pipeline.PromotedSetWasChecked: the quarantine directory is identified with its token, and the active phase executor's own copy of this pipeline is not modelled.
- CompileLease.ReleaseReason: the build on an outbound worker; the older build over HTTP has its own ways out.
- CompileLease.ReleasedExactlyOnce: a crash of the control plane itself, after which the lease runs out, is not modelled.
- CompileLease.Collector.Collect: the job is taken to stay in the job table during collection, and transfer, budgets and digests are one outcome per artifact.
- ReleaseManifest.StableHistory: patterns, checksum files and evidence on disk are one predicate of the configuration.
- Capabilities.RoutingIsExact: explicitly configured capability labels, and the catalog resolution that yields the profiles, are not modelled.
- Xpak.ParseXpakBlob: bytes above 127 are single characters, not UTF-8, and locating the blob in a package file is not modelled.
- RepoFiles.WriteReposConf: symbolic links, permissions, full disks and limits on the length of file names are not modelled.
- HTTP handlers, clients, mTLS, Terraform, PVE, emerge, gpg and shell wrappers: foreign effects that appear only as outcomes.
- The PostgreSQL repository, signing queue, catalog, worker gateway and dashboards: used only through the contracts above.
- Metrics, notifications, heartbeats of builders and cluster statistics: would only add easy members.
- Liveness, timing and fairness: leases and clocks appear only as events that may happen.
