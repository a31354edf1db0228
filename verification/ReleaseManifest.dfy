/** Release candidates, promotions and rollbacks (scripts/release_manifest.py). */
module ReleaseManifest {
  import opened Text

  datatype Channel = Candidate | Stable

  datatype Operation = Build | Promotion | Rollback

  /** SHA-256 of the canonical bytes, taken to be injective. */
  datatype Digest = Sha256(manifest: Manifest)

  datatype Transition =
    | BuildTransition
    | PromotionTransition(candidate: Digest, candidateOci: string, previous: Option<Digest>,
        previousOci: Option<string>)
    | RollbackTransition(target: Digest, targetOci: string, replaced: Digest, replacedOci: string, reason: string)

  datatype Registry = Registry(host: string, namespace: string, repository: string)

  datatype Image = Image(role: string, repository: string, digest: string, reference: string, platforms: seq<string>)

  datatype Binary = Binary(name: string, os: string, arch: string, path: string, sha256: string)

  /** Everything a promotion or rollback must carry over unchanged. */
  datatype Payload = Payload(
    id: string, repository: string, commit: string, sourceRef: string,
    images: seq<Image>, binaries: seq<Binary>, checksums: string)

  datatype Manifest = Manifest(
    payload: Payload, registry: Registry, channel: Channel, operation: Operation, created: int, transition: Transition)

  /** The release configuration; `lower` folds case, and `evidence` stands for the patterns and files that are
      checked. */
  datatype Config = Config(
    host: string, suffix: string, roles: seq<string>, platforms: seq<string>,
    matrix: seq<(string, string, string)>, lower: string -> string, evidence: Manifest -> bool)

  datatype Reason =
    | Invalid | NotCandidate | FirstWithCurrent | MissingCurrent | StaleCurrent | OtherRegistry
    | BeforeCandidate | BeforeCurrent | NotStable | SameTarget

  function RegistryFor(config: Config, repository: string): Registry {
    var namespace := config.host + "/" + config.lower(repository);
    Registry(config.host, namespace, namespace + "/" + config.suffix)
  }

  /** Every configured role once, in order, with a reference that is bound to its digest. */
  predicate ImagesFit(config: Config, m: Manifest) {
    && |m.payload.images| == |config.roles|
    && forall k :: 0 <= k < |config.roles| ==>
         var image := m.payload.images[k];
         && image.role == config.roles[k]
         && image.repository == m.registry.namespace + "/" + image.role
         && image.reference == image.repository + "@" + image.digest
         && image.platforms == config.platforms
  }

  /** The exact command and platform matrix, each at the path its identity gives. */
  predicate BinariesFit(config: Config, m: Manifest) {
    && |m.payload.binaries| == |config.matrix|
    && forall k :: 0 <= k < |config.matrix| ==>
         var b := m.payload.binaries[k];
         && (b.name, b.os, b.arch) == config.matrix[k]
         && b.path == "binaries/" + b.name + "-" + b.os + "-" + b.arch
  }

  predicate PrintableReason(reason: string) {
    1 <= |reason| <= 512 && forall c :: c in reason ==> c as int >= 32
  }

  predicate TransitionFits(m: Manifest) {
    if m.channel.Candidate? || m.operation.Build? then
      m.channel.Candidate? && m.operation.Build? && m.transition.BuildTransition?
    else if m.operation.Promotion? then
      m.transition.PromotionTransition? && (m.transition.previous.None? <==> m.transition.previousOci.None?)
    else m.transition.RollbackTransition? && PrintableReason(m.transition.reason)
  }

  /** validate_manifest. */
  predicate Valid(config: Config, m: Manifest) {
    && config.evidence(m)
    && m.registry == RegistryFor(config, m.payload.repository)
    && ImagesFit(config, m) && BinariesFit(config, m) && TransitionFits(m)
  }

  function Checked(config: Config, m: Manifest): Result<Manifest, Reason> {
    if Valid(config, m) then Ok(m) else Err(Invalid)
  }

  /** cmd_create_candidate. */
  function CreateCandidate(config: Config, payload: Payload, created: int): Result<Manifest, Reason> {
    Checked(config, Manifest(payload, RegistryFor(config, payload.repository), Candidate, Build, created,
        BuildTransition))
  }

  /** cmd_promote, for loaded inputs; `currentConfig` is the configuration the current manifest was signed against. */
  function Promote(config: Config, currentConfig: Config, candidate: Manifest, candidateOci: string,
                   current: Option<Manifest>, expected: Option<Digest>, expectedOci: Option<string>, at: int)
    : Result<Manifest, Reason>
  {
    if !Valid(config, candidate) then Err(Invalid)
    else if !candidate.channel.Candidate? then Err(NotCandidate)
    else if expected.None? && (expectedOci.Some? || current.Some?) then Err(FirstWithCurrent)
    else if expected.Some? && (expectedOci.None? || current.None?) then Err(MissingCurrent)
    else if current.Some? && !Valid(currentConfig, current.value) then Err(Invalid)
    else if current.Some? && (!current.value.channel.Stable? || Some(Sha256(current.value)) != expected)
        then Err(StaleCurrent)
    else if current.Some? && current.value.registry != candidate.registry then Err(OtherRegistry)
    else if at < candidate.created then Err(BeforeCandidate)
    else if current.Some? && at < current.value.created then Err(BeforeCurrent)
    else
      var result := candidate.(channel := Stable, operation := Promotion, created := at,
                               transition := PromotionTransition(Sha256(candidate), candidateOci, expected,
                                   expectedOci));
      Checked(config, result)
  }

  /** cmd_rollback, for loaded inputs. */
  function RollBack(config: Config, currentConfig: Config, current: Manifest, target: Manifest, targetOci: string,
                    expected: Digest, expectedOci: string, at: int, reason: string)
    : Result<Manifest, Reason>
  {
    if !Valid(currentConfig, current) || !Valid(config, target) then Err(Invalid)
    else if !current.channel.Stable? || !target.channel.Stable? then Err(NotStable)
    else if Sha256(current) != expected then Err(StaleCurrent)
    else if Sha256(target) == expected then Err(SameTarget)
    else if current.registry != target.registry then Err(OtherRegistry)
    else if at < current.created then Err(BeforeCurrent)
    else
      var result := target.(operation := Rollback, created := at,
                            transition := RollbackTransition(Sha256(target), targetOci, expected, expectedOci, reason));
      Checked(config, result)
  }

  // ------------------------------------------------------------------------ runs

  /** A step names its inputs among the manifests written so far. */
  datatype Move =
    | Create(config: Config, payload: Payload, created: int)
    | Advance(config: Config, currentConfig: Config, candidate: nat, candidateOci: string, previous: Option<nat>,
              previousDigest: Option<Digest>, previousOci: Option<string>, at: int)
    | Retreat(config: Config, currentConfig: Config, current: nat, target: nat, targetOci: string, expected: Digest,
              expectedOci: string, at: int, reason: string)

  function Attempt(written: seq<Manifest>, move: Move): Result<Manifest, Reason> {
    match move
    case Create(config, payload, created) => CreateCandidate(config, payload, created)
    case Advance(config, currentConfig, candidate, candidateOci, current, expected, expectedOci, at) =>
      if candidate >= |written| || (current.Some? && current.value >= |written|) then Err(Invalid)
      else Promote(config, currentConfig, written[candidate], candidateOci,
                   if current.Some? then Some(written[current.value]) else None, expected, expectedOci, at)
    case Retreat(config, currentConfig, current, target, targetOci, expected, expectedOci, at, reason) =>
      if current >= |written| || target >= |written| then Err(Invalid)
      else RollBack(config, currentConfig, written[current], written[target], targetOci, expected, expectedOci, at,
          reason)
  }

  /** Every manifest accepted along a list of steps; a refused step writes nothing. */
  function Written(moves: seq<Move>): seq<Manifest> {
    if |moves| == 0 then []
    else
      var before := Written(moves[..|moves| - 1]);
      match Attempt(before, moves[|moves| - 1])
      case Err(_) => before
      case Ok(m) => before + [m]
  }

  /** The digest of the stable manifest that this one replaced. */
  function Replaced(m: Manifest): Option<Digest> {
    match m.transition
    case BuildTransition => None
    case PromotionTransition(_, _, previous, _) => previous
    case RollbackTransition(_, _, replaced, _, _) => Some(replaced)
  }

  ghost predicate CarriesCandidate(written: seq<Manifest>, m: Manifest) {
    exists c :: c in written && c.channel.Candidate? && c.payload == m.payload && c.registry == m.registry
  }

  /** What every written manifest satisfies. */
  ghost predicate Sound(written: seq<Manifest>, m: Manifest) {
    && CarriesCandidate(written, m)
    && TransitionFits(m)
    && (Replaced(m).Some? ==>
          var older := Replaced(m).value.manifest;
          older in written && older.channel.Stable? && older.registry == m.registry && older.created <= m.created)
  }

  ghost predicate AllSound(written: seq<Manifest>) {
    forall m :: m in written ==> Sound(written, m)
  }

  lemma SoundGrows(written: seq<Manifest>, m: Manifest, next: Manifest)
    requires Sound(written, m)
    ensures Sound(written + [next], m)
  {
    var c :| c in written && c.channel.Candidate? && c.payload == m.payload && c.registry == m.registry;
    assert c in written + [next];
  }

  /** Promotion copies the candidate and points at a current stable manifest it is not older than. */
  lemma PromoteResult(config: Config, currentConfig: Config, candidate: Manifest, candidateOci: string,
                      current: Option<Manifest>, expected: Option<Digest>, expectedOci: Option<string>, at: int,
                          m: Manifest)
    requires Promote(config, currentConfig, candidate, candidateOci, current, expected, expectedOci, at) == Ok(m)
    ensures candidate.channel.Candidate? && m.channel.Stable? && TransitionFits(m)
    ensures m.payload == candidate.payload && m.registry == candidate.registry && candidate.created <= m.created
    ensures Replaced(m) == if current.None? then None else Some(Sha256(current.value))
    ensures current.Some? ==> current.value.channel.Stable? && current.value.registry == m.registry
                              && current.value.created <= m.created
  {
  }

  /** Rollback copies the target and points at the current stable manifest, which is another one. */
  lemma RollBackResult(config: Config, currentConfig: Config, current: Manifest, target: Manifest, targetOci: string,
                       expected: Digest, expectedOci: string, at: int, reason: string, m: Manifest)
    requires RollBack(config, currentConfig, current, target, targetOci, expected, expectedOci, at, reason) == Ok(m)
    ensures target.channel.Stable? && m.channel.Stable? && TransitionFits(m) && target != current
    ensures m.payload == target.payload && m.registry == target.registry
    ensures Replaced(m) == Some(Sha256(current))
    ensures current.channel.Stable? && current.registry == m.registry && current.created <= m.created
  {
  }

  lemma CandidateFor(written: seq<Manifest>, next: Manifest, source: Manifest)
    requires source in written && (source.channel.Candidate? || CarriesCandidate(written, source))
    requires next.payload == source.payload && next.registry == source.registry
    ensures CarriesCandidate(written + [next], next)
  {
    var c :| c in written && c.channel.Candidate? && c.payload == source.payload && c.registry == source.registry;
    assert c in written + [next];
  }

  lemma AttemptSound(written: seq<Manifest>, move: Move)
    requires AllSound(written) && Attempt(written, move).Ok?
    ensures Sound(written + [Attempt(written, move).value], Attempt(written, move).value)
  {
    var next := Attempt(written, move).value;
    match move
    case Create(config, payload, created) => assert next in written + [next];
    case Advance(config, currentConfig, candidate, candidateOci, current, expected, expectedOci, at) =>
      var previous := if current.Some? then Some(written[current.value]) else None;
      PromoteResult(config, currentConfig, written[candidate], candidateOci, previous, expected, expectedOci, at, next);
      CandidateFor(written, next, written[candidate]);
    case Retreat(config, currentConfig, current, target, targetOci, expected, expectedOci, at, reason) =>
      RollBackResult(config, currentConfig, written[current], written[target], targetOci, expected, expectedOci, at,
                     reason, next);
      assert Sound(written, written[target]);
      CandidateFor(written, next, written[target]);
  }

  lemma {:induction false} WrittenSound(moves: seq<Move>)
    ensures AllSound(Written(moves))
  {
    if |moves| > 0 {
      var before := Written(moves[..|moves| - 1]);
      var move := moves[|moves| - 1];
      WrittenSound(moves[..|moves| - 1]);
      if Attempt(before, move).Ok? {
        var next := Attempt(before, move).value;
        AttemptSound(before, move);
        forall m | m in Written(moves) ensures Sound(Written(moves), m) {
          if m in before {
            SoundGrows(before, m, next);
          }
        }
      }
    }
  }

  /** The manifests this one descends from, nearest first, read off the recorded digests. */
  function Chain(m: Manifest): seq<Manifest>
    decreases m
  {
    if Replaced(m).None? then [] else [Replaced(m).value.manifest] + Chain(Replaced(m).value.manifest)
  }

  lemma {:induction false} ChainSound(written: seq<Manifest>, m: Manifest, k: nat)
    requires AllSound(written) && m in written && k < |Chain(m)|
    ensures Chain(m)[k] in written && Chain(m)[k].channel.Stable?
    ensures Chain(m)[k].registry == m.registry && Chain(m)[k].created <= m.created
    decreases m
  {
    assert Sound(written, m);
    if k > 0 {
      ChainSound(written, Replaced(m).value.manifest, k - 1);
    }
  }

  lemma {:induction false} ChainOrdered(written: seq<Manifest>, m: Manifest, k: nat, j: nat)
    requires AllSound(written) && m in written && k < j < |Chain(m)|
    ensures Chain(m)[j].created <= Chain(m)[k].created
    decreases m
  {
    assert Sound(written, m);
    var older := Replaced(m).value.manifest;
    if k > 0 {
      ChainOrdered(written, older, k - 1, j - 1);
    } else {
      ChainSound(written, older, j - 1);
    }
  }

  /** Every stable manifest of every accepted history ships the payload of some candidate, whose registry it shares;
      following the digests of what it replaced leads only through earlier stable manifests of the same registry, with
      creation times that never go up. */
  lemma {:induction false} StableHistory(moves: seq<Move>, m: Manifest)
    requires m in Written(moves) && m.channel.Stable?
    ensures CarriesCandidate(Written(moves), m)
    ensures m.transition.RollbackTransition? ==> Replaced(m).Some?
    ensures forall k :: 0 <= k < |Chain(m)| ==>
              && Chain(m)[k] in Written(moves) && Chain(m)[k].channel.Stable?
              && Chain(m)[k].registry == m.registry && Chain(m)[k].created <= m.created
    ensures forall k, j :: 0 <= k < j < |Chain(m)| ==> Chain(m)[j].created <= Chain(m)[k].created
  {
    WrittenSound(moves);
    forall k | 0 <= k < |Chain(m)|
      ensures Chain(m)[k] in Written(moves) && Chain(m)[k].channel.Stable?
      ensures Chain(m)[k].registry == m.registry && Chain(m)[k].created <= m.created
    {
      ChainSound(Written(moves), m, k);
    }
    forall k, j | 0 <= k < j < |Chain(m)| ensures Chain(m)[j].created <= Chain(m)[k].created {
      ChainOrdered(Written(moves), m, k, j);
    }
  }

  /** A rollback restores the payload of its target, and a promotion that of its candidate. */
  lemma {:induction false} OutputsKeepTheirInput(moves: seq<Move>, m: Manifest)
    requires m in Written(moves)
    ensures m.transition.RollbackTransition? ==> m.payload == m.transition.target.manifest.payload
                                                 && m.transition.target != m.transition.replaced
    ensures m.transition.PromotionTransition? ==> m.payload == m.transition.candidate.manifest.payload
                                                  && m.transition.candidate.manifest.created <= m.created
    decreases |moves|
  {
    var before := Written(moves[..|moves| - 1]);
    if m in before {
      OutputsKeepTheirInput(moves[..|moves| - 1], m);
    }
  }
}
