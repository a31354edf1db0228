/** Capability labels and label-subset routing (internal/builder/capabilities.go). */
module Capabilities {
  import opened Text
  import opened Ordering

  // ------------------------------------------------------------- label pattern

  predicate Lower(c: char) { 'a' <= c <= 'z' }

  predicate Alnum(c: char) { Lower(c) || 'A' <= c <= 'Z' || '0' <= c <= '9' }

  predicate KeyChar(c: char) { Lower(c) || '0' <= c <= '9' || c == '-' }

  predicate ValueChar(c: char) {
    Alnum(c) || c == '+' || c == '.' || c == '_' || c == '/' || c == '@' || c == ':' || c == '-'
  }

  /** A short lower-case key, a colon, and a value of at most 480 characters. */
  predicate Pattern(s: string) {
    exists i :: 1 <= i <= 32 && i < |s| && PatternAt(s, i)
  }

  predicate PatternAt(s: string, i: nat)
    requires 1 <= i < |s|
  {
    && s[i] == ':' && Lower(s[0])
    && (forall k :: 0 < k < i ==> KeyChar(s[k]))
    && 1 <= |s| - i - 1 <= 480 && Alnum(s[i + 1])
    && (forall k :: i + 1 < k < |s| ==> ValueChar(s[k]))
  }

  /** No white space and no NUL. */
  predicate Solid(s: string) {
    forall k :: 0 <= k < |s| ==> !IsSpace(s[k]) && s[k] != '\0'
  }

  lemma PatternIsSolid(s: string)
    requires Pattern(s)
    ensures Solid(s)
  {
    var i :| 1 <= i <= 32 && i < |s| && PatternAt(s, i);
    forall k | 0 <= k < |s| ensures !IsSpace(s[k]) && s[k] != '\0' {
      assert k == 0 || k < i || k == i || k == i + 1 || k > i + 1;
    }
  }

  // ------------------------------------------------------------- normalization

  const MAX_LABELS := 4096

  datatype LabelError = BadCount | BadLabel(text: string) | Incomplete | BadPhase | NoProfile

  function TrimAll(labels: seq<string>): (r: seq<string>)
    ensures |r| == |labels| && forall k :: 0 <= k < |r| ==> r[k] == TrimSpace(labels[k])
  {
    seq(|labels|, k requires 0 <= k < |labels| => TrimSpace(labels[k]))
  }

  predicate AllMatch(labels: seq<string>) {
    |labels| == 0 || (AllMatch(labels[..|labels| - 1]) && Pattern(labels[|labels| - 1]))
  }

  lemma {:induction false} AllMatchAt(labels: seq<string>, k: nat)
    requires AllMatch(labels) && k < |labels|
    ensures Pattern(labels[k])
  {
    var n := |labels| - 1;
    if k < n {
      AllMatchAt(labels[..n], k);
      assert labels[..n][k] == labels[k];
    }
  }

  lemma {:induction false} OneMismatch(labels: seq<string>, k: nat)
    requires k < |labels| && !Pattern(labels[k])
    ensures !AllMatch(labels)
  {
    if AllMatch(labels) {
      AllMatchAt(labels, k);
    }
  }

  ghost predicate Normalizable(labels: seq<string>) {
    1 <= |labels| <= MAX_LABELS && AllMatch(TrimAll(labels))
  }

  lemma SortedIsListing(found: seq<string>)
    requires Distinct(found)
    ensures Sort(Less, found) == Listing(Less, Elements(found)) && Ordered(Less, Sort(Less, found))
    ensures Elements(Sort(Less, found)) == Elements(found)
  {
    LessIsStrict();
    LessIsTotalOn(Elements(found));
    SortOrdered(Less, found);
    SortElements(Less, found);
    ListingOrdered(Less, Elements(found));
    ListingElements(Less, Elements(found));
    OneOrder(Less, Sort(Less, found), Listing(Less, Elements(found)));
  }

  lemma ElementsSnoc(xs: seq<string>, i: nat)
    requires i < |xs|
    ensures xs[..i + 1] == xs[..i] + [xs[i]] && Elements(xs[..i + 1]) == Elements(xs[..i]) + {xs[i]}
  {
  }

  /** Appending a label that was not seen keeps the list free of duplicates. */
  lemma AddDistinct(found: seq<string>, text: string)
    requires Distinct(found) && text !in Elements(found)
    ensures Distinct(found + [text]) && Elements(found + [text]) == Elements(found) + {text}
  {
    assert forall k :: 0 <= k < |found| ==> found[k] in Elements(found);
  }

  /** NormalizeExecutorCapabilities: the trimmed labels without duplicates, in order; refused as a whole otherwise. */
  method Normalize(labels: seq<string>) returns (r: Result<seq<string>, LabelError>)
    ensures r.Ok? <==> Normalizable(labels)
    ensures r.Ok? ==> r.value == Listing(Less, Elements(TrimAll(labels))) && Ordered(Less, r.value)
    ensures r.Ok? ==> Elements(r.value) == Elements(TrimAll(labels))
  {
    if |labels| == 0 || |labels| > MAX_LABELS {
      return Err(BadCount);
    }
    ghost var trimmed := TrimAll(labels);
    var found: seq<string> := [];
    var seen: set<string> := {};
    for i := 0 to |labels|
      invariant AllMatch(trimmed[..i])
      invariant seen == Elements(found) == Elements(trimmed[..i]) && Distinct(found)
    {
      var text := TrimSpace(labels[i]);
      assert text == trimmed[i];
      ElementsSnoc(trimmed, i);
      assert trimmed[..i + 1][..i] == trimmed[..i];
      if !Pattern(text) {
        OneMismatch(trimmed, i);
        return Err(BadLabel(text));
      }
      if text !in seen {
        AddDistinct(found, text);
        seen := seen + {text};
        found := found + [text];
      }
    }
    assert trimmed[..|labels|] == trimmed;
    SortedIsListing(found);
    return Ok(Sort(Less, found));
  }

  // --------------------------------------------------------------------- labels

  datatype Kind =
    | Phase | Pool | ZoneKind | Provider | Arch | Mode | Profile | ImageKind | Egress | Instance | ContextKind

  datatype Label = Label(kind: Kind, value: string)

  function KindText(kind: Kind): string {
    match kind
    case Phase => "phase"
    case Pool => "capacity-pool"
    case ZoneKind => "zone"
    case Provider => "provider"
    case Arch => "arch"
    case Mode => "build-mode"
    case Profile => "profile"
    case ImageKind => "image"
    case Egress => "egress"
    case Instance => "capacity-instance"
    case ContextKind => "context"
  }

  function Spell(l: Label): string {
    KindText(l.kind) + ":" + l.value
  }

  function SpellAll(labels: seq<Label>): (r: seq<string>)
    ensures |r| == |labels| && forall k :: 0 <= k < |r| ==> r[k] == Spell(labels[k])
  {
    seq(|labels|, k requires 0 <= k < |labels| => Spell(labels[k]))
  }

  lemma KindTextIs(kind: Kind)
    ensures KindText(kind) != "" && ':' !in KindText(kind) && !IsSpace(KindText(kind)[0])
  {
  }

  lemma KindTextsDiffer(a: Kind, b: Kind)
    requires KindText(a) == KindText(b)
    ensures a == b
  {
    assert |KindText(a)| == |KindText(b)| && KindText(a)[0] == KindText(b)[0];
    assert KindText(a)[1] == KindText(b)[1];
  }

  lemma FirstColon(key: string, value: string, key': string, value': string)
    requires ':' !in key && ':' !in key' && key + ":" + value == key' + ":" + value'
    ensures key == key' && value == value'
  {
    var s := key + ":" + value;
    assert s[|key|] == ':' && s[|key'|] == ':';
    assert forall k :: 0 <= k < |key| ==> s[k] == key[k];
    assert forall k :: 0 <= k < |key'| ==> s[k] == key'[k];
    assert |key| == |key'|;
    assert s[..|key|] == key && s[..|key'|] == key';
    assert s[|key| + 1..] == value && s[|key'| + 1..] == value';
  }

  /** A label text determines its kind and its value. */
  lemma SpellInjective(a: Label, b: Label)
    requires Spell(a) == Spell(b)
    ensures a == b
  {
    KindTextIs(a.kind);
    KindTextIs(b.kind);
    FirstColon(KindText(a.kind), a.value, KindText(b.kind), b.value);
    KindTextsDiffer(a.kind, b.kind);
  }

  // -------------------------------------------------------------- requirements

  /** The parts of a resolved build context that routing uses. */
  datatype Context = Context(
    provider: string, zone: string, arch: string, mode: string, profile: string, image: string, generation: string,
    egress: string, egressDigest: string)

  function ZoneOf(c: Context): string {
    if TrimSpace(c.zone) == "" then "default" else TrimSpace(c.zone)
  }

  /** The seven environment dimensions. */
  function Dims(c: Context): seq<string> {
    [TrimSpace(c.provider), ZoneOf(c), TrimSpace(c.arch), TrimSpace(c.mode), TrimSpace(c.profile), TrimSpace(c.image),
     TrimSpace(c.generation)]
  }

  /** CapacityPoolID; `hash` is the truncated SHA-256 in hexadecimal. */
  function PoolId(hash: string -> string, dims: seq<string>): string
    requires |dims| == 7
  {
    Join(dims[..3], "-") + "-" + hash(Join(dims, "\0"))
  }

  const PHASES := ["provision", "build", "verify", "publish"]

  function EgressLabels(c: Context): seq<Label> {
    if c.egress != "" && c.egressDigest != "" then [Label(Egress, c.egress + "@" + c.egressDigest)] else []
  }

  /** The labels of a phase before they are normalized. */
  function RawLabels(hash: string -> string, c: Context, phase: string): seq<Label> {
    [Label(Phase, phase), Label(Pool, PoolId(hash, Dims(c))), Label(ZoneKind, ZoneOf(c)), Label(Provider, c.provider),
     Label(Arch, c.arch), Label(Mode, c.mode), Label(Profile, c.profile), Label(ImageKind,
         c.image + "@" + c.generation)]
    + EgressLabels(c)
  }

  ghost predicate AllFilled(dims: seq<string>) {
    forall k :: 0 <= k < |dims| ==> dims[k] != ""
  }

  /** The requirements of the phase exist. */
  ghost predicate Required(hash: string -> string, c: Context, phase: string) {
    phase in PHASES && AllFilled(Dims(c)) && Normalizable(SpellAll(RawLabels(hash, c, phase)))
  }

  ghost function Requirements(hash: string -> string, c: Context, phase: string): set<string> {
    Elements(TrimAll(SpellAll(RawLabels(hash, c, phase))))
  }

  method FirstEmpty(dims: seq<string>) returns (empty: bool)
    ensures empty <==> !AllFilled(dims)
  {
    for k := 0 to |dims|
      invariant forall j :: 0 <= j < k ==> dims[j] != ""
    {
      if dims[k] == "" {
        return true;
      }
    }
    return false;
  }

  /** PhaseCapabilityRequirements for a request with a resolved context. */
  method PhaseRequirements(hash: string -> string, c: Context, phase: string)
      returns (r: Result<seq<string>, LabelError>)
    ensures r.Ok? <==> Required(hash, c, phase)
    ensures r.Ok? ==> Elements(r.value) == Requirements(hash, c, phase) && Ordered(Less, r.value)
  {
    if phase !in PHASES {
      return Err(BadPhase);
    }
    var empty := FirstEmpty(Dims(c));
    if empty {
      return Err(Incomplete);
    }
    r := Normalize(SpellAll(RawLabels(hash, c, phase)));
  }

  // ------------------------------------------------------ what an executor offers

  /** All labels that a list of (profile, phase) pairs asks for. */
  ghost function Union<T(!new)>(xs: seq<T>, asks: T -> set<string>): set<string> {
    if |xs| == 0 then {} else Union(xs[..|xs| - 1], asks) + asks(xs[|xs| - 1])
  }

  lemma {:induction false} UnionFrom<T(!new)>(xs: seq<T>, asks: T -> set<string>, text: string)
    ensures text in Union(xs, asks) <==> exists x :: x in xs && text in asks(x)
  {
    if |xs| > 0 {
      var n := |xs| - 1;
      UnionFrom(xs[..n], asks, text);
      assert forall x :: x in xs <==> x in xs[..n] || x == xs[n];
    }
  }

  datatype Ask = Ask(c: Context, phase: string)

  function Asks(profiles: seq<Context>): seq<Ask> {
    if |profiles| == 0 then []
    else Asks(profiles[..|profiles| - 1]) + AsksOf(profiles[|profiles| - 1])
  }

  function AsksOf(c: Context): seq<Ask> {
    [Ask(c, PHASES[0]), Ask(c, PHASES[1]), Ask(c, PHASES[2]), Ask(c, PHASES[3])]
  }

  lemma {:induction false} AsksAre(profiles: seq<Context>, a: Ask)
    ensures a in Asks(profiles) <==> a.c in profiles && a.phase in PHASES
  {
    if |profiles| > 0 {
      var n := |profiles| - 1;
      AsksAre(profiles[..n], a);
      assert a.c in profiles <==> a.c in profiles[..n] || a.c == profiles[n];
      assert a in AsksOf(profiles[n]) <==> a.c == profiles[n] && a.phase in PHASES;
    }
  }

  ghost function Answers(hash: string -> string): Ask -> set<string> {
    (a: Ask) => Requirements(hash, a.c, a.phase)
  }

  ghost predicate AllRequired(hash: string -> string, asks: seq<Ask>) {
    |asks| == 0
    || (AllRequired(hash, asks[..|asks| - 1]) && Required(hash, asks[|asks| - 1].c, asks[|asks| - 1].phase))
  }

  lemma {:induction false} AllRequiredHas(hash: string -> string, asks: seq<Ask>, a: Ask)
    requires AllRequired(hash, asks) && a in asks
    ensures Required(hash, a.c, a.phase)
  {
    var n := |asks| - 1;
    if a != asks[n] {
      AllRequiredHas(hash, asks[..n], a);
    }
  }

  lemma UnionSnoc<T(!new)>(xs: seq<T>, asks: T -> set<string>, i: nat, labels: seq<string>, more: seq<string>)
    requires i < |xs| && Elements(labels) == Union(xs[..i], asks) && Elements(more) == asks(xs[i])
    ensures Elements(labels + more) == Union(xs[..i + 1], asks)
  {
    assert xs[..i + 1][..i] == xs[..i];
    assert Elements(labels + more) == Elements(labels) + Elements(more);
  }

  lemma RequiredSnoc(hash: string -> string, asks: seq<Ask>, i: nat)
    requires i < |asks| && AllRequired(hash, asks[..i]) && Required(hash, asks[i].c, asks[i].phase)
    ensures AllRequired(hash, asks[..i + 1])
  {
    assert asks[..i + 1][..i] == asks[..i];
  }

  function InstanceLabels(instance: string): seq<Label> {
    if TrimSpace(instance) == "" then [] else [Label(Instance, TrimSpace(instance))]
  }

  /** The labels an executor derives from its resolved profiles. */
  ghost predicate Advertises(hash: string -> string, profiles: seq<Context>, instance: string, labels: seq<string>) {
    && AllRequired(hash, Asks(profiles))
    && Elements(labels) == Union(Asks(profiles), Answers(hash)) + Elements(TrimAll(SpellAll(InstanceLabels(instance))))
  }

  lemma TrimmedTexts(labels: seq<string>)
    ensures forall t :: t in Elements(TrimAll(labels)) ==> TrimSpace(t) == t
  {
    forall t | t in Elements(TrimAll(labels)) ensures TrimSpace(t) == t {
      var k :| 0 <= k < |labels| && TrimAll(labels)[k] == t;
      var lo, hi := TrimPart(labels[k], IsSpace);
      TrimmedStays(t);
    }
  }

  lemma UnionTrimmed(hash: string -> string, asks: seq<Ask>, labels: seq<string>)
    requires Elements(labels) == Union(asks, Answers(hash))
    ensures TrimAll(labels) == labels
  {
    forall k | 0 <= k < |labels| ensures TrimSpace(labels[k]) == labels[k] {
      assert labels[k] in Elements(labels);
      UnionFrom(asks, Answers(hash), labels[k]);
      var a :| a in asks && labels[k] in Answers(hash)(a);
      TrimmedTexts(SpellAll(RawLabels(hash, a.c, a.phase)));
    }
  }

  lemma RefusedHere(hash: string -> string, asks: seq<Ask>, i: nat)
    requires i < |asks| && !Required(hash, asks[i].c, asks[i].phase)
    ensures !AllRequired(hash, asks)
  {
    if AllRequired(hash, asks) {
      AllRequiredHas(hash, asks, asks[i]);
    }
  }

  method CollectOne(hash: string -> string, asks: seq<Ask>, i: nat, labels: seq<string>)
    returns (r: Result<seq<string>, LabelError>)
    requires i < |asks| && AllRequired(hash, asks[..i]) && Elements(labels) == Union(asks[..i], Answers(hash))
    ensures r.Ok? ==> AllRequired(hash, asks[..i + 1]) && Elements(r.value) == Union(asks[..i + 1], Answers(hash))
    ensures r.Err? ==> !AllRequired(hash, asks)
  {
    var required := PhaseRequirements(hash, asks[i].c, asks[i].phase);
    if required.Err? {
      RefusedHere(hash, asks, i);
      return Err(required.error);
    }
    RequiredSnoc(hash, asks, i);
    UnionSnoc(asks, Answers(hash), i, labels, required.value);
    return Ok(labels + required.value);
  }

  /** The label loop of resolveExecutorCapabilities, over the profiles and the four phases of each. */
  method CollectLabels(hash: string -> string, asks: seq<Ask>) returns (r: Result<seq<string>, LabelError>)
    ensures r.Ok? <==> AllRequired(hash, asks)
    ensures r.Ok? ==> Elements(r.value) == Union(asks, Answers(hash))
  {
    var labels: seq<string> := [];
    for i := 0 to |asks|
      invariant AllRequired(hash, asks[..i])
      invariant Elements(labels) == Union(asks[..i], Answers(hash))
    {
      var next := CollectOne(hash, asks, i, labels);
      if next.Err? {
        return next;
      }
      labels := next.value;
    }
    assert asks[..|asks|] == asks;
    return Ok(labels);
  }

  lemma TrimConcat(a: seq<string>, b: seq<string>)
    ensures TrimAll(a + b) == TrimAll(a) + TrimAll(b)
    ensures Elements(TrimAll(a + b)) == Elements(TrimAll(a)) + Elements(TrimAll(b))
  {
    assert TrimAll(a + b) == TrimAll(a) + TrimAll(b);
  }

  /** resolveExecutorCapabilities without configured labels, then bindCapacityInstance. */
  method ResolveExecutorCapabilities(hash: string -> string, profiles: seq<Context>, instance: string)
    returns (r: Result<seq<string>, LabelError>)
    ensures r.Ok? ==> Advertises(hash, profiles, instance, r.value) && Ordered(Less, r.value)
    ensures !AllRequired(hash, Asks(profiles)) ==> r.Err?
  {
    var collected := CollectLabels(hash, Asks(profiles));
    if collected.Err? {
      return Err(collected.error);
    }
    var labels := collected.value;
    if |labels| == 0 {
      return Err(NoProfile);
    }
    var own := SpellAll(InstanceLabels(instance));
    UnionTrimmed(hash, Asks(profiles), labels);
    TrimConcat(labels, own);
    var bound := labels + own;
    r := Normalize(bound);
  }

  // --------------------------------------- what the labels say about a context

  lemma SolidParts(a: string, b: string)
    requires Solid(a + b)
    ensures Solid(a) && Solid(b)
  {
    assert forall k :: 0 <= k < |a| ==> (a + b)[k] == a[k];
    assert forall k :: 0 <= k < |b| ==> (a + b)[|a| + k] == b[k];
  }

  lemma TrimWhole(head: string, core: string, right: string)
    requires head != "" && !IsSpace(head[0]) && core != "" && !IsSpace(core[|core| - 1])
    requires forall c :: c in right ==> IsSpace(c)
    ensures TrimSpace(head + core + right) == head + core
  {
    var whole := head + core;
    assert whole[0] == head[0] && whole[|whole| - 1] == core[|core| - 1];
    TrimCore("", whole, right, IsSpace);
    assert "" + whole + right == head + core + right;
  }

  /** Trimming a text whose trimmed form has no white space only shortens what was appended to its head. */
  lemma TrimTail(head: string, tail: string)
    requires head != "" && !IsSpace(head[0]) && TrimSpace(tail) != "" && Solid(TrimSpace(head + tail))
    ensures TrimSpace(head + tail) == head + TrimSpace(tail)
    ensures Solid(head) && Solid(TrimSpace(tail))
  {
    var from, to := TrimPart(tail, IsSpace);
    assert tail[from..to][to - from - 1] == tail[to - 1];
    TrimWhole(head, tail[..to], tail[to..]);
    assert head + tail[..to] + tail[to..] == head + tail;
    SolidParts(head, tail[..to]);
    assert tail[..to] == tail[from..to];
  }

  /** A valid label is its kind and the trimmed value. */
  lemma TrimLabel(kind: Kind, value: string)
    requires TrimSpace(value) != "" && Pattern(TrimSpace(Spell(Label(kind, value))))
    ensures TrimSpace(Spell(Label(kind, value))) == Spell(Label(kind, TrimSpace(value)))
    ensures Solid(TrimSpace(value))
  {
    KindTextIs(kind);
    PatternIsSolid(TrimSpace(Spell(Label(kind, value))));
    var head := KindText(kind) + ":";
    assert head[0] == KindText(kind)[0];
    TrimTail(head, value);
  }

  lemma SolidStays(s: string)
    requires Solid(s)
    ensures TrimSpace(s) == s
  {
    TrimmedStays(s);
  }

  lemma TrimImage(image: string, generation: string)
    requires TrimSpace(generation) != "" && Pattern(TrimSpace(Spell(Label(ImageKind, image + "@" + generation))))
    ensures TrimSpace(Spell(Label(ImageKind, image + "@" + generation)))
         == Spell(Label(ImageKind, TrimSpace(image) + "@" + TrimSpace(generation)))
    ensures Solid(TrimSpace(image)) && Solid(TrimSpace(generation))
  {
    KindTextIs(ImageKind);
    PatternIsSolid(TrimSpace(Spell(Label(ImageKind, image + "@" + generation))));
    TrimJoined(KindText(ImageKind) + ":", image, generation);
  }

  lemma TrimJoined(front: string, image: string, generation: string)
    requires front != "" && !IsSpace(front[0]) && TrimSpace(generation) != ""
    requires Solid(TrimSpace(front + (image + "@" + generation)))
    ensures TrimSpace(front + (image + "@" + generation)) == front + (TrimSpace(image) + "@" + TrimSpace(generation))
    ensures Solid(TrimSpace(image)) && Solid(TrimSpace(generation))
  {
    var head := front + (image + "@");
    assert front + (image + "@" + generation) == head + generation;
    assert head[0] == front[0];
    TrimTail(head, generation);
    SolidParts(front, image + "@");
    SolidParts(image, "@");
    SolidStays(image);
    assert head + TrimSpace(generation) == front + (image + "@" + TrimSpace(generation));
  }

  /** One label of a list that normalizes. */
  lemma NormalLabel(raw: seq<Label>, k: nat)
    requires AllMatch(TrimAll(SpellAll(raw))) && k < |raw| && TrimSpace(raw[k].value) != ""
    ensures TrimSpace(Spell(raw[k])) == Spell(Label(raw[k].kind, TrimSpace(raw[k].value)))
    ensures Solid(TrimSpace(raw[k].value))
  {
    AllMatchAt(TrimAll(SpellAll(raw)), k);
    TrimLabel(raw[k].kind, raw[k].value);
  }

  lemma NormalImage(raw: seq<Label>, k: nat, image: string, generation: string)
    requires AllMatch(TrimAll(SpellAll(raw))) && k < |raw|
    requires raw[k] == Label(ImageKind, image + "@" + generation) && TrimSpace(generation) != ""
    ensures TrimSpace(Spell(raw[k])) == Spell(Label(ImageKind, TrimSpace(image) + "@" + TrimSpace(generation)))
    ensures Solid(TrimSpace(image)) && Solid(TrimSpace(generation))
  {
    AllMatchAt(TrimAll(SpellAll(raw)), k);
    TrimImage(image, generation);
  }

  /** The hash is a fixed number of characters without white space. */
  predicate HexDigest(hash: string -> string, dims: seq<string>) {
    |hash(Join(dims, "\0"))| == 24 && Solid(hash(Join(dims, "\0")))
  }

  lemma ZoneTrimmed(c: Context)
    ensures TrimSpace(ZoneOf(c)) == ZoneOf(c)
  {
    var lo, hi := TrimPart(c.zone, IsSpace);
    TrimmedStays(TrimSpace(c.zone));
    TrimmedStays("default");
  }

  lemma PoolTrimmed(hash: string -> string, dims: seq<string>)
    requires |dims| == 7 && dims[0] != "" && Trimmed(dims[0]) && HexDigest(hash, dims)
    ensures PoolId(hash, dims) != "" && TrimSpace(PoolId(hash, dims)) == PoolId(hash, dims)
  {
    var digest := hash(Join(dims, "\0"));
    var front := Join(dims[..3], "-");
    assert front == dims[0] + "-" + Join(dims[..3][1..], "-");
    assert front[0] == dims[0][0];
    var id := PoolId(hash, dims);
    assert id[0] == front[0] && id[|id| - 1] == digest[23];
    TrimmedStays(id);
  }

  lemma PhaseTrimmed(phase: string)
    requires phase in PHASES
    ensures phase != "" && TrimSpace(phase) == phase
  {
    TrimmedStays(phase);
  }

  // -------------------------------------------------------------------- routing

  /** The k-th label of a phase, written from the dimensions. */
  function CoreLabel(hash: string -> string, dims: seq<string>, phase: string, k: nat): Label
    requires |dims| == 7 && k < 8
  {
    match k
    case 0 => Label(Phase, phase)
    case 1 => Label(Pool, PoolId(hash, dims))
    case 2 => Label(ZoneKind, dims[1])
    case 3 => Label(Provider, dims[0])
    case 4 => Label(Arch, dims[2])
    case 5 => Label(Mode, dims[3])
    case 6 => Label(Profile, dims[4])
    case _ => Label(ImageKind, dims[5] + "@" + dims[6])
  }

  /** Four labels are a kind and one field. */
  lemma CorePlain(hash: string -> string, c: Context, phase: string, raw: seq<Label>, dims: seq<string>, k: nat)
    requires raw == RawLabels(hash, c, phase) && dims == Dims(c) && 3 <= k <= 6
    requires AllMatch(TrimAll(SpellAll(raw))) && AllFilled(dims)
    ensures TrimSpace(Spell(raw[k])) == Spell(CoreLabel(hash, dims, phase, k))
    ensures Solid(CoreLabel(hash, dims, phase, k).value)
  {
    var value := if k == 3 then dims[0] else if k == 4 then dims[2] else if k == 5 then dims[3] else dims[4];
    assert value == TrimSpace(raw[k].value) && value != "";
    NormalLabel(raw, k);
    assert CoreLabel(hash, dims, phase, k) == Label(raw[k].kind, value);
  }

  lemma CoreZone(hash: string -> string, c: Context, phase: string, raw: seq<Label>, dims: seq<string>)
    requires raw == RawLabels(hash, c, phase) && dims == Dims(c)
    requires AllMatch(TrimAll(SpellAll(raw))) && AllFilled(dims)
    ensures TrimSpace(Spell(raw[2])) == Spell(CoreLabel(hash, dims, phase, 2))
    ensures Solid(dims[1])
  {
    ZoneTrimmed(c);
    assert raw[2] == Label(ZoneKind, dims[1]) && dims[1] != "";
    NormalLabel(raw, 2);
  }

  lemma CoreImage(hash: string -> string, c: Context, phase: string, raw: seq<Label>, dims: seq<string>)
    requires raw == RawLabels(hash, c, phase) && dims == Dims(c)
    requires AllMatch(TrimAll(SpellAll(raw))) && AllFilled(dims)
    ensures TrimSpace(Spell(raw[7])) == Spell(CoreLabel(hash, dims, phase, 7))
    ensures Solid(dims[5]) && Solid(dims[6])
  {
    assert dims[6] != "";
    NormalImage(raw, 7, c.image, c.generation);
  }

  lemma CoreFirst(hash: string -> string, c: Context, phase: string, raw: seq<Label>, dims: seq<string>, k: nat)
    requires raw == RawLabels(hash, c, phase) && dims == Dims(c) && k < 2
    requires AllMatch(TrimAll(SpellAll(raw))) && AllFilled(dims) && phase in PHASES && HexDigest(hash, dims)
    ensures TrimSpace(Spell(raw[k])) == Spell(CoreLabel(hash, dims, phase, k))
  {
    if k == 0 {
      PhaseTrimmed(phase);
    } else {
      assert dims[0] != "";
      ProviderTrimmed(c);
      PoolTrimmed(hash, dims);
    }
    NormalLabel(raw, k);
  }

  /** Each label, trimmed, is the one written from the trimmed dimensions. */
  lemma CoreAt(hash: string -> string, c: Context, phase: string, raw: seq<Label>, dims: seq<string>, k: nat)
    requires raw == RawLabels(hash, c, phase) && dims == Dims(c) && k < 8
    requires AllMatch(TrimAll(SpellAll(raw))) && AllFilled(dims) && phase in PHASES && HexDigest(hash, dims)
    ensures TrimSpace(Spell(raw[k])) == Spell(CoreLabel(hash, dims, phase, k))
  {
    if k < 2 {
      CoreFirst(hash, c, phase, raw, dims, k);
    } else if k == 2 {
      CoreZone(hash, c, phase, raw, dims);
    } else if k == 7 {
      CoreImage(hash, c, phase, raw, dims);
    } else {
      CorePlain(hash, c, phase, raw, dims, k);
    }
  }

  lemma ProviderTrimmed(c: Context)
    ensures Trimmed(Dims(c)[0])
  {
    var lo, hi := TrimPart(c.provider, IsSpace);
  }

  lemma DimsSolid(hash: string -> string, c: Context, phase: string, raw: seq<Label>, dims: seq<string>, k: nat)
    requires raw == RawLabels(hash, c, phase) && dims == Dims(c) && k < 7
    requires AllMatch(TrimAll(SpellAll(raw))) && AllFilled(dims)
    ensures Solid(dims[k])
  {
    if k == 1 {
      CoreZone(hash, c, phase, raw, dims);
    } else if k >= 5 {
      CoreImage(hash, c, phase, raw, dims);
    } else {
      CorePlain(hash, c, phase, raw, dims, if k == 0 then 3 else k + 2);
    }
  }

  ghost function CoreTexts(hash: string -> string, dims: seq<string>, phase: string): set<string>
    requires |dims| == 7
  {
    set k | 0 <= k < 8 :: Spell(CoreLabel(hash, dims, phase, k))
  }

  ghost function EgressTexts(c: Context): set<string> {
    Elements(TrimAll(SpellAll(EgressLabels(c))))
  }

  lemma FrontTexts(hash: string -> string, raw: seq<Label>, dims: seq<string>, phase: string, rest: seq<Label>)
    requires |dims| == 7 && |raw| == 8 + |rest| && raw[8..] == rest
    requires forall k :: 0 <= k < 8 ==> TrimSpace(Spell(raw[k])) == Spell(CoreLabel(hash, dims, phase, k))
    ensures Elements(TrimAll(SpellAll(raw))) == CoreTexts(hash, dims, phase) + Elements(TrimAll(SpellAll(rest)))
  {
    var all := TrimAll(SpellAll(raw));
    var tail := TrimAll(SpellAll(rest));
    forall k | 0 <= k < |tail| ensures all[8 + k] == tail[k] {
      assert raw[8..][k] == raw[8 + k];
    }
    forall text | text in Elements(all) ensures text in CoreTexts(hash, dims, phase) + Elements(tail) {
      var k :| 0 <= k < |all| && all[k] == text;
      assert k >= 8 ==> text == tail[k - 8];
    }
    forall text | text in CoreTexts(hash, dims, phase) ensures text in Elements(all) {
      var k :| 0 <= k < 8 && text == Spell(CoreLabel(hash, dims, phase, k));
      assert all[k] == text;
    }
    forall text | text in Elements(tail) ensures text in Elements(all) {
      var k :| 0 <= k < |tail| && tail[k] == text;
      assert all[8 + k] == text;
    }
  }

  /** The requirements of a phase are the dimensions spelled out, plus the egress policy. */
  lemma RequirementsAre(hash: string -> string, c: Context, phase: string)
    requires Required(hash, c, phase) && HexDigest(hash, Dims(c))
    ensures Requirements(hash, c, phase) == CoreTexts(hash, Dims(c), phase) + EgressTexts(c)
  {
    var raw := RawLabels(hash, c, phase);
    var dims := Dims(c);
    forall k | 0 <= k < 8 ensures TrimSpace(Spell(raw[k])) == Spell(CoreLabel(hash, dims, phase, k)) {
      CoreAt(hash, c, phase, raw, dims, k);
    }
    FrontTexts(hash, raw, dims, phase, EgressLabels(c));
  }

  lemma HasMark(s: string, k: nat)
    requires k < |s| && s[k] == '@'
    ensures TrimSpace(s) != ""
  {
    var lo, hi := TrimPart(s, IsSpace);
  }

  /** An egress label keeps its kind. */
  lemma EgressSpelled(hash: string -> string, c: Context, phase: string) returns (value: string)
    requires Required(hash, c, phase) && EgressTexts(c) != {}
    ensures EgressTexts(c) == {Spell(Label(Egress, value))}
  {
    var raw := RawLabels(hash, c, phase);
    var whole := c.egress + "@" + c.egressDigest;
    assert raw[8] == Label(Egress, whole);
    HasMark(whole, |c.egress|);
    NormalLabel(raw, 8);
    value := TrimSpace(whole);
    assert TrimAll(SpellAll(EgressLabels(c))) == [Spell(Label(Egress, value))];
  }

  lemma InstanceSpelled(instance: string, text: string) returns (value: string)
    requires text in Elements(TrimAll(SpellAll(InstanceLabels(instance))))
    ensures text == Spell(Label(Instance, value))
  {
    value := TrimSpace(instance);
    var lo, hi := TrimPart(instance, IsSpace);
    var spelled := Spell(Label(Instance, value));
    KindTextIs(Instance);
    assert spelled[0] == KindText(Instance)[0] && spelled[|spelled| - 1] == value[|value| - 1];
    TrimmedStays(spelled);
    assert SpellAll(InstanceLabels(instance)) == [spelled];
  }

  /** Which label of a profile a text can be. */
  lemma CoreKind(hash: string -> string, dims: seq<string>, phase: string, tag: Label)
    requires |dims| == 7 && Spell(tag) in CoreTexts(hash, dims, phase)
    ensures tag.kind == Pool ==> tag.value == PoolId(hash, dims)
    ensures tag.kind != Egress && tag.kind != ContextKind
  {
    var k :| 0 <= k < 8 && Spell(tag) == Spell(CoreLabel(hash, dims, phase, k));
    SpellInjective(tag, CoreLabel(hash, dims, phase, k));
  }

  /** A label of a kind only profiles use was asked for by one of them. */
  lemma FromProfile(hash: string -> string, profiles: seq<Context>, instance: string, labels: seq<string>, tag: Label)
    returns (a: Ask)
    requires Advertises(hash, profiles, instance, labels) && Spell(tag) in labels && tag.kind != Instance
    ensures a.c in profiles && Required(hash, a.c, a.phase) && Spell(tag) in Requirements(hash, a.c, a.phase)
  {
    assert Spell(tag) in Elements(labels);
    if Spell(tag) in Elements(TrimAll(SpellAll(InstanceLabels(instance)))) {
      var value := InstanceSpelled(instance, Spell(tag));
      SpellInjective(tag, Label(Instance, value));
    }
    UnionFrom(Asks(profiles), Answers(hash), Spell(tag));
    a :| a in Asks(profiles) && Spell(tag) in Answers(hash)(a);
    AsksAre(profiles, a);
    AllRequiredHas(hash, Asks(profiles), a);
  }

  /** The digests of the pools involved are well formed and do not collide. */
  ghost predicate GoodDigests(hash: string -> string, profiles: seq<Context>, r: Context) {
    && HexDigest(hash, Dims(r))
    && (forall c :: c in profiles ==> HexDigest(hash, Dims(c)))
    && (forall c :: c in profiles && hash(Join(Dims(c), "\0")) == hash(Join(Dims(r), "\0")) ==>
                      Join(Dims(c), "\0") == Join(Dims(r), "\0"))
  }

  lemma SamePool(hash: string -> string, a: seq<string>, b: seq<string>)
    requires |a| == 7 && |b| == 7 && HexDigest(hash, a) && HexDigest(hash, b) && PoolId(hash, a) == PoolId(hash, b)
    ensures hash(Join(a, "\0")) == hash(Join(b, "\0"))
  {
    var id := PoolId(hash, a);
    assert id[|id| - 24..] == hash(Join(a, "\0"));
    assert id[|id| - 24..] == hash(Join(b, "\0"));
  }

  lemma JoinedDims(a: seq<string>, b: seq<string>)
    requires |a| == 7 && |b| == 7 && Join(a, "\0") == Join(b, "\0")
    requires forall k :: 0 <= k < 7 ==> Solid(a[k]) && Solid(b[k])
    ensures a == b
  {
    assert "\0" == ['\0'];
    SplitJoinChar(a, '\0');
    SplitJoinChar(b, '\0');
  }

  lemma SolidDims(hash: string -> string, c: Context, phase: string)
    requires Required(hash, c, phase)
    ensures forall k :: 0 <= k < 7 ==> Solid(Dims(c)[k])
  {
    forall k | 0 <= k < 7 ensures Solid(Dims(c)[k]) {
      DimsSolid(hash, c, phase, RawLabels(hash, c, phase), Dims(c), k);
    }
  }

  lemma PoolInCore(hash: string -> string, c: Context, phase: string, dims: seq<string>)
    requires |dims| == 7 && Required(hash, c, phase) && HexDigest(hash, Dims(c))
    requires Spell(Label(Pool, PoolId(hash, dims))) in Requirements(hash, c, phase)
    ensures PoolId(hash, Dims(c)) == PoolId(hash, dims)
  {
    var tag := Label(Pool, PoolId(hash, dims));
    RequirementsAre(hash, c, phase);
    if Spell(tag) in EgressTexts(c) {
      var value := EgressSpelled(hash, c, phase);
      SpellInjective(tag, Label(Egress, value));
    }
    CoreKind(hash, Dims(c), phase, tag);
  }

  /** A covered pool label can only come from a profile with the same seven dimensions. */
  lemma PoolDecides(hash: string -> string, profiles: seq<Context>, instance: string, labels: seq<string>, r: Context,
                    phase: string) returns (c: Context)
    requires Advertises(hash, profiles, instance, labels) && Required(hash, r, phase) && GoodDigests(hash, profiles, r)
    requires Spell(Label(Pool, PoolId(hash, Dims(r)))) in labels
    ensures c in profiles && Dims(c) == Dims(r)
  {
    var a := FromProfile(hash, profiles, instance, labels, Label(Pool, PoolId(hash, Dims(r))));
    c := a.c;
    PoolInCore(hash, c, a.phase, Dims(r));
    SamePool(hash, Dims(c), Dims(r));
    SolidDims(hash, c, a.phase);
    SolidDims(hash, r, phase);
    JoinedDims(Dims(c), Dims(r));
  }

  lemma EgressDecides(hash: string -> string, profiles: seq<Context>, instance: string, labels: seq<string>, r: Context,
                      phase: string) returns (c: Context)
    requires Advertises(hash, profiles, instance, labels) && Required(hash, r, phase) && GoodDigests(hash, profiles, r)
    requires EgressTexts(r) != {} && EgressTexts(r) <= Elements(labels)
    ensures c in profiles && EgressTexts(c) == EgressTexts(r)
  {
    var value := EgressSpelled(hash, r, phase);
    var tag := Label(Egress, value);
    assert Spell(tag) in EgressTexts(r);
    var a := FromProfile(hash, profiles, instance, labels, tag);
    c := a.c;
    RequirementsAre(hash, c, a.phase);
    if Spell(tag) in CoreTexts(hash, Dims(c), a.phase) {
      CoreKind(hash, Dims(c), a.phase, tag);
    }
    var other := EgressSpelled(hash, c, a.phase);
  }

  /** Completeness: every phase of every resolved profile is covered by the derived labels. */
  lemma ProfilesAreCovered(hash: string -> string, profiles: seq<Context>, instance: string, labels: seq<string>,
                           c: Context, phase: string)
    requires Advertises(hash, profiles, instance, labels) && c in profiles && phase in PHASES
    ensures Requirements(hash, c, phase) <= Elements(labels)
  {
    AsksAre(profiles, Ask(c, phase));
    forall text | text in Requirements(hash, c, phase) ensures text in Elements(labels) {
      UnionFrom(Asks(profiles), Answers(hash), text);
      assert text in Answers(hash)(Ask(c, phase));
    }
  }

  ghost predicate SharesDims(profiles: seq<Context>, r: Context) {
    exists c :: c in profiles && Dims(c) == Dims(r)
  }

  ghost predicate SharesEgress(profiles: seq<Context>, r: Context) {
    EgressTexts(r) == {} || exists c :: c in profiles && EgressTexts(c) == EgressTexts(r)
  }

  /** Label-subset routing is exact: a request is covered if and only if one resolved profile has all seven of its
      dimensions, and its egress policy, if it names one, is the policy of some profile. No mixture of labels from
      several profiles can stand in for the dimensions. */
  lemma RoutingIsExact(hash: string -> string, profiles: seq<Context>, instance: string, labels: seq<string>,
      r: Context,
                       phase: string)
    requires Advertises(hash, profiles, instance, labels) && Required(hash, r, phase) && GoodDigests(hash, profiles, r)
    ensures Requirements(hash, r, phase) <= Elements(labels) <==> SharesDims(profiles, r) && SharesEgress(profiles, r)
  {
    RequirementsAre(hash, r, phase);
    if Requirements(hash, r, phase) <= Elements(labels) {
      assert Spell(CoreLabel(hash, Dims(r), phase, 1)) in CoreTexts(hash, Dims(r), phase);
      var c := PoolDecides(hash, profiles, instance, labels, r, phase);
      if EgressTexts(r) != {} {
        var e := EgressDecides(hash, profiles, instance, labels, r, phase);
      }
    }
    if SharesDims(profiles, r) && SharesEgress(profiles, r) {
      SharedIsCovered(hash, profiles, instance, labels, r, phase);
    }
  }

  lemma SharedIsCovered(hash: string -> string, profiles: seq<Context>, instance: string, labels: seq<string>,
      r: Context,
                        phase: string)
    requires Advertises(hash, profiles, instance, labels) && Required(hash, r, phase) && GoodDigests(hash, profiles, r)
    requires SharesDims(profiles, r) && SharesEgress(profiles, r)
    ensures CoreTexts(hash, Dims(r), phase) + EgressTexts(r) <= Elements(labels)
  {
    var c :| c in profiles && Dims(c) == Dims(r);
    AsksAre(profiles, Ask(c, phase));
    AllRequiredHas(hash, Asks(profiles), Ask(c, phase));
    RequirementsAre(hash, c, phase);
    ProfilesAreCovered(hash, profiles, instance, labels, c, phase);
    if EgressTexts(r) != {} {
      var e :| e in profiles && EgressTexts(e) == EgressTexts(r);
      AsksAre(profiles, Ask(e, phase));
      AllRequiredHas(hash, Asks(profiles), Ask(e, phase));
      RequirementsAre(hash, e, phase);
      ProfilesAreCovered(hash, profiles, instance, labels, e, phase);
    }
  }

  /** A request without a resolved context asks for a label that no derived executor has. */
  lemma LegacyIsNeverCovered(hash: string -> string, profiles: seq<Context>, instance: string, labels: seq<string>)
    requires Advertises(hash, profiles, instance, labels) && forall c :: c in profiles ==> HexDigest(hash, Dims(c))
    ensures Spell(Label(ContextKind, "legacy")) !in labels
  {
    var tag := Label(ContextKind, "legacy");
    if Spell(tag) in labels {
      var a := FromProfile(hash, profiles, instance, labels, tag);
      RequirementsAre(hash, a.c, a.phase);
      if Spell(tag) in EgressTexts(a.c) {
        var value := EgressSpelled(hash, a.c, a.phase);
        SpellInjective(tag, Label(Egress, value));
      } else {
        CoreKind(hash, Dims(a.c), a.phase, tag);
      }
    }
  }
}
