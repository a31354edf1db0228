/** Compile leases and the fence on build output (internal/builder/manager_distcc.go, manager.go). */
module CompileLease {
  import opened Text
  import opened SlashPath

  // -------------------------------------------------------------- output fence

  datatype Policy = Local | Blocked

  datatype Verdict = Pass(reason: string) | Reject(reason: string)

  /** checkCompileOutput, given the lease check and attemptClaimIsLive. */
  function OutputFence(lease: Option<Policy>, authorized: bool, claimLive: bool): Verdict {
    if lease.None? || authorized then Pass("")
    else if lease.value.Blocked? || !claimLive then Reject("lease-fenced")
    else Pass("lease-expired")
  }

  /** What one call of a fence is told. */
  datatype Reading = Reading(authorized: bool, claimLive: bool, phaseOpen: bool)

  function FenceVerdict(lease: Option<Policy>, reading: Reading): Verdict {
    OutputFence(lease, reading.authorized, reading.claimLive)
  }

  predicate FencePasses(lease: Option<Policy>, reading: Reading) {
    FenceVerdict(lease, reading).Pass? && reading.phaseOpen
  }

  // ------------------------------------------- reserve, heartbeat and release

  /** Calls made to the compile scheduler about a lease it granted. */
  datatype Call = Reserve | Heartbeat | Release(reason: string)

  /** Where runBuildOnPullWorkerStableFenced stands under its lease; every stage has its own way out. */
  datatype Stage =
    | Snapshotting | Dispatching | Reporting | OutputFencing | PhaseFencing | Updating | Listing
    | Opening | Fetching | FirstCommit | Persisting | SecondCommit

  /** beginCompileLease, the build that runs under the lease, and the deferred finish closure. */
  datatype Caller = Deciding | Reserving | Granted | Contracted | Building(stage: Stage) | Returned | Stopping | Over

  /** The heartbeat goroutine. */
  datatype Beat = Unborn | Sleeping | Calling | BackingOff | Gone

  /** `reason` is the failure the deferred closure will report, `fences` what the output fences were told. */
  datatype State = State(
    main: Caller, beat: Beat, stop: bool, shutdown: bool, accepted: bool, reason: string, fences: seq<Reading>,
    log: seq<Call>)

  datatype Event =
    | Decide(eligible: bool)            // no eligible package, no scheduler, no identity: local or an error
    | Answer(granted: bool)             // ReserveCompileSlots
    | CheckContract(ok: bool) | CheckEndpoint(ok: bool)
    | Advance(ok: bool, reading: Reading) // one stage of the build succeeds or fails
    | Finish                            // the deferred closure runs when the build returns
    | Drained                           // wg.Wait returns
    | Tick | Reply(ok: bool, late: bool) | Retry | SeeStop
    | Shutdown

  const INITIAL := State(Deciding, Unborn, false, false, false, "", [], [])

  function NextStage(stage: Stage): Caller {
    match stage
    case Snapshotting => Building(Dispatching)
    case Dispatching => Building(Reporting)
    case Reporting => Building(OutputFencing)
    case OutputFencing => Building(PhaseFencing)
    case PhaseFencing => Building(Updating)
    case Updating => Building(Listing)
    case Listing => Building(Opening)
    case Opening => Building(Fetching)
    case Fetching => Building(FirstCommit)
    case FirstCommit => Building(Persisting)
    case Persisting => Building(SecondCommit)
    case SecondCommit => Returned
  }

  /** A fence records what it was told and, if it has one, its reason. */
  function Fenced(policy: Policy, s: State, reading: Reading): State {
    var verdict := FenceVerdict(Some(policy), reading);
    s.(fences := s.fences + [reading], reason := if verdict.reason != "" then verdict.reason else s.reason)
  }

  function StageStep(policy: Policy, s: State, stage: Stage, ok: bool, reading: Reading): State {
    match stage
    case Dispatching => if ok then s.(main := NextStage(stage)) else s.(main := Returned, reason := "connect")
    case Reporting => if ok then s.(main := NextStage(stage)) else s.(main := Returned, reason := "remote-compile")
    case OutputFencing =>
      var t := Fenced(policy, s, reading);
      if FenceVerdict(Some(policy), reading).Reject? then t.(main := Returned) else t.(main := NextStage(stage))
    case FirstCommit =>
      var t := Fenced(policy, s, reading);
      if !FencePasses(Some(policy), reading) then t.(main := Returned) else t.(main := NextStage(stage))
    case SecondCommit =>
      var t := Fenced(policy, s, reading);
      if !FencePasses(Some(policy), reading) then t.(main := Returned)
          else t.(main := NextStage(stage), accepted := true)
    case _ => if ok then s.(main := NextStage(stage)) else s.(main := Returned)
  }

  function Step(policy: Policy, s: State, e: Event): State {
    match e
    case Decide(eligible) => if s.main.Deciding? then s.(main := if eligible then Reserving else Over) else s
    case Answer(granted) =>
      if !s.main.Reserving? then s
      else if granted then s.(main := Granted, log := s.log + [Reserve])
      else s.(main := Over)
    case CheckContract(ok) =>
      if !s.main.Granted? then s
      else if ok then s.(main := Contracted)
      else s.(main := Over, log := s.log + [Release("policy")])
    case CheckEndpoint(ok) =>
      if !s.main.Contracted? then s
      else if ok then s.(main := Building(Snapshotting), beat := Sleeping)
      else s.(main := Over, log := s.log + [Release("policy")])
    case Advance(ok, reading) => if s.main.Building? then StageStep(policy, s, s.main.stage, ok, reading) else s
    case Finish => if s.main.Returned? then s.(main := Stopping, stop := true) else s
    case Drained => if s.main.Stopping? && s.beat.Gone? then s.(main := Over, log := s.log + [Release(s.reason)]) else s
    case Tick => if s.beat.Sleeping? then s.(beat := Calling, log := s.log + [Heartbeat]) else s
    case Reply(ok, late) =>
      if !s.beat.Calling? then s
      else s.(beat := if ok then Sleeping else if late then Gone else BackingOff)
    case Retry => if s.beat.BackingOff? then s.(beat := Calling, log := s.log + [Heartbeat]) else s
    case SeeStop => if (s.beat.Sleeping? || s.beat.BackingOff?) && (s.stop || s.shutdown) then s.(beat := Gone) else s
    case Shutdown => s.(shutdown := true)
  }

  function Run(policy: Policy, events: seq<Event>): State {
    if |events| == 0 then INITIAL else Step(policy, Run(policy, events[..|events| - 1]), events[|events| - 1])
  }

  predicate Beating(log: seq<Call>) {
    |log| >= 1 && log[0].Reserve? && forall k :: 0 < k < |log| ==> log[k].Heartbeat?
  }

  /** Nothing was reserved, or one reservation, its heartbeats, and its release as the last call. */
  predicate Settled(log: seq<Call>) {
    log == [] || (|log| >= 2 && log[|log| - 1].Release? && Beating(log[..|log| - 1]))
  }

  predicate Inv(s: State) {
    match s.main
    case Deciding => s.log == [] && s.beat.Unborn?
    case Reserving => s.log == [] && s.beat.Unborn?
    case Granted => s.log == [Reserve] && s.beat.Unborn?
    case Contracted => s.log == [Reserve] && s.beat.Unborn?
    case Building(_) => Beating(s.log) && !s.beat.Unborn?
    case Returned => Beating(s.log) && !s.beat.Unborn?
    case Stopping => Beating(s.log) && !s.beat.Unborn?
    case Over => Settled(s.log) && (s.beat.Unborn? || s.beat.Gone?)
  }

  lemma ReleaseKeeps(s: State, reason: string)
    requires Beating(s.log) && (s.beat.Unborn? || s.beat.Gone?)
    ensures Inv(s.(main := Over, log := s.log + [Release(reason)]))
  {
    Extended(s.log, Release(reason));
  }

  lemma CheckKeeps(policy: Policy, s: State, e: Event)
    requires Inv(s) && (e.CheckContract? || e.CheckEndpoint?)
    ensures Inv(Step(policy, s, e))
  {
    if s.main.Granted? || s.main.Contracted? {
      ReleaseKeeps(s, "policy");
    }
  }

  lemma MainKeeps(policy: Policy, s: State, e: Event)
    requires Inv(s) && (e.Decide? || e.Answer? || e.Finish? || e.Drained?)
    ensures Inv(Step(policy, s, e))
  {
    if s.main.Stopping? && s.beat.Gone? {
      ReleaseKeeps(s, s.reason);
    }
  }

  lemma BeatKeeps(policy: Policy, s: State, e: Event)
    requires Inv(s) && (e.Tick? || e.Reply? || e.Retry? || e.SeeStop? || e.Shutdown?)
    ensures Inv(Step(policy, s, e))
  {
    Extended(s.log, Heartbeat);
  }

  /** A stage says nothing to the scheduler and ends in another stage or in the return. */
  lemma StageIsQuiet(policy: Policy, s: State, stage: Stage, ok: bool, reading: Reading)
    ensures var t := StageStep(policy, s, stage, ok, reading);
            (t.main.Building? || t.main.Returned?) && t.log == s.log && t.beat == s.beat
  {
  }

  lemma AdvanceKeeps(policy: Policy, s: State, e: Event)
    requires Inv(s) && e.Advance?
    ensures Inv(Step(policy, s, e))
  {
    if s.main.Building? {
      StageIsQuiet(policy, s, s.main.stage, e.ok, e.reading);
    }
  }

  lemma StepKeeps(policy: Policy, s: State, e: Event)
    requires Inv(s)
    ensures Inv(Step(policy, s, e))
  {
    if e.Tick? || e.Reply? || e.Retry? || e.SeeStop? || e.Shutdown? {
      BeatKeeps(policy, s, e);
    } else if e.Advance? {
      AdvanceKeeps(policy, s, e);
    } else if e.CheckContract? || e.CheckEndpoint? {
      CheckKeeps(policy, s, e);
    } else {
      MainKeeps(policy, s, e);
    }
  }

  lemma Extended(log: seq<Call>, call: Call)
    ensures Beating(log) && call.Heartbeat? ==> Beating(log + [call])
    ensures Beating(log) && call.Release? ==> Settled(log + [call])
  {
    assert (log + [call])[..|log|] == log;
  }

  lemma {:induction false} RunKeeps(policy: Policy, events: seq<Event>)
    ensures Inv(Run(policy, events))
  {
    if |events| > 0 {
      var n := |events| - 1;
      RunKeeps(policy, events[..n]);
      StepKeeps(policy, Run(policy, events[..n]), events[n]);
    }
  }

  function Reserves(log: seq<Call>): nat {
    if |log| == 0 then 0 else Reserves(log[..|log| - 1]) + if log[|log| - 1].Reserve? then 1 else 0
  }

  function Releases(log: seq<Call>): nat {
    if |log| == 0 then 0 else Releases(log[..|log| - 1]) + if log[|log| - 1].Release? then 1 else 0
  }

  lemma {:induction false} BeatingCounts(log: seq<Call>)
    requires Beating(log)
    ensures Reserves(log) == 1 && Releases(log) == 0
  {
    var n := |log| - 1;
    if n > 0 {
      BeatingCounts(log[..n]);
    } else {
      assert log[..0] == [];
    }
  }

  lemma SettledCounts(log: seq<Call>)
    requires Settled(log) || Beating(log)
    ensures Releases(log) <= Reserves(log) <= 1
    ensures Settled(log) ==> Releases(log) == Reserves(log)
  {
    if Beating(log) {
      BeatingCounts(log);
    } else if log != [] {
      BeatingCounts(log[..|log| - 1]);
    }
  }

  lemma SettledOrder(log: seq<Call>)
    requires Settled(log) || Beating(log)
    ensures forall i :: 0 <= i < |log| && log[i].Release? ==> i == |log| - 1
  {
    forall i | 0 <= i < |log| - 1 ensures !log[i].Release? {
      assert log[..|log| - 1][i] == log[i];
    }
  }

  /** On every path a granted lease is released at most once, exactly once when the caller is done, and the release is
      the last call about it: no heartbeat follows, whatever the goroutine was doing. */
  lemma ReleasedExactlyOnce(policy: Policy, events: seq<Event>)
    ensures var s := Run(policy, events);
            && Releases(s.log) <= Reserves(s.log) <= 1
            && (s.main.Over? ==> Releases(s.log) == Reserves(s.log))
            && forall i :: 0 <= i < |s.log| && s.log[i].Release? ==> i == |s.log| - 1
  {
    RunKeeps(policy, events);
    var s := Run(policy, events);
    assert Settled(s.log) || Beating(s.log);
    SettledCounts(s.log);
    SettledOrder(s.log);
  }

  lemma OverIsSilent(policy: Policy, s: State, e: Event)
    requires Inv(s) && s.main.Over?
    ensures Step(policy, s, e).main.Over? && Step(policy, s, e).log == s.log
  {
  }

  /** After the caller is done nothing more is ever said about the lease. */
  lemma {:induction false} SilentAfterwards(policy: Policy, events: seq<Event>, more: seq<Event>)
    requires Run(policy, events).main.Over?
    ensures Run(policy, events + more).main.Over? && Run(policy, events + more).log == Run(policy, events).log
    decreases |more|
  {
    if more == [] {
      assert events + more == events;
    } else {
      var n := |more| - 1;
      SilentAfterwards(policy, events, more[..n]);
      RunKeeps(policy, events + more[..n]);
      assert (events + more)[..|events + more| - 1] == events + more[..n];
      OverIsSilent(policy, Run(policy, events + more[..n]), more[n]);
    }
  }

  // ------------------------------------------------------- what a release reports

  /** The last fence that had something to say. */
  function FenceReason(policy: Policy, fences: seq<Reading>): string {
    if |fences| == 0 then ""
    else
      var verdict := FenceVerdict(Some(policy), fences[|fences| - 1]);
      if verdict.reason != "" then verdict.reason else FenceReason(policy, fences[..|fences| - 1])
  }

  predicate AllPass(policy: Policy, fences: seq<Reading>) {
    forall k :: 0 <= k < |fences| ==> FenceVerdict(Some(policy), fences[k]).Pass?
  }

  /** How many fences a stage has behind it. */
  function FencesBefore(stage: Stage): nat {
    match stage
    case PhaseFencing => 1
    case Updating => 1
    case Listing => 1
    case Opening => 1
    case Fetching => 1
    case FirstCommit => 1
    case Persisting => 2
    case SecondCommit => 2
    case _ => 0
  }

  /** The failure to report: a refused dispatch or remote build before any fence, otherwise what the fences said. */
  predicate Reported(policy: Policy, s: State) {
    || s.reason == FenceReason(policy, s.fences)
    || (s.fences == [] && (s.reason == "connect" || s.reason == "remote-compile"))
  }

  predicate Outcome(policy: Policy, s: State) {
    && Reported(policy, s)
    && (s.accepted ==> |s.fences| == 3 && AllPass(policy, s.fences) && s.fences[2].phaseOpen)
  }

  predicate ReasonInv(policy: Policy, s: State) {
    match s.main
    case Building(stage) =>
      && !s.accepted && |s.fences| == FencesBefore(stage) && AllPass(policy, s.fences)
      && s.reason == FenceReason(policy, s.fences)
    case Returned => Outcome(policy, s)
    case Stopping => Outcome(policy, s)
    case Over =>
      if s.beat.Unborn? then !s.accepted && s.fences == [] && (s.log == [] || s.log[|s.log| - 1] == Release("policy"))
      else Outcome(policy, s) && s.log != [] && s.log[|s.log| - 1] == Release(s.reason)
    case _ => !s.accepted && s.fences == [] && s.reason == ""
  }

  predicate Fencing(stage: Stage) {
    stage.OutputFencing? || stage.FirstCommit? || stage.SecondCommit?
  }

  /** One more reading, passed or not, is reported as the fences say. */
  lemma FencedReports(policy: Policy, s: State, reading: Reading)
    requires s.reason == FenceReason(policy, s.fences) && AllPass(policy, s.fences)
    ensures var t := Fenced(policy, s, reading);
            && t.reason == FenceReason(policy, t.fences) && |t.fences| == |s.fences| + 1
            && t.fences[|s.fences|] == reading && t.accepted == s.accepted
            && (FenceVerdict(Some(policy), reading).Pass? ==> AllPass(policy, t.fences))
  {
    var more := s.fences + [reading];
    assert more[..|s.fences|] == s.fences;
  }

  lemma FenceKeepsReason(policy: Policy, s: State, ok: bool, reading: Reading)
    requires s.main.Building? && Fencing(s.main.stage) && ReasonInv(policy, s)
    ensures ReasonInv(policy, StageStep(policy, s, s.main.stage, ok, reading))
  {
    FencedReports(policy, s, reading);
  }

  lemma StageKeepsReason(policy: Policy, s: State, ok: bool, reading: Reading)
    requires s.main.Building? && !Fencing(s.main.stage) && ReasonInv(policy, s)
    ensures ReasonInv(policy, StageStep(policy, s, s.main.stage, ok, reading))
  {
    assert s.fences == [] || |s.fences| > 0;
  }

  lemma StepKeepsReason(policy: Policy, s: State, e: Event)
    requires Inv(s) && ReasonInv(policy, s)
    ensures ReasonInv(policy, Step(policy, s, e))
  {
    if e.Advance? && s.main.Building? {
      if Fencing(s.main.stage) {
        FenceKeepsReason(policy, s, e.ok, e.reading);
      } else {
        StageKeepsReason(policy, s, e.ok, e.reading);
      }
    }
  }

  lemma {:induction false} RunKeepsReason(policy: Policy, events: seq<Event>)
    ensures ReasonInv(policy, Run(policy, events))
  {
    if |events| > 0 {
      var n := |events| - 1;
      RunKeepsReason(policy, events[..n]);
      RunKeeps(policy, events[..n]);
      StepKeepsReason(policy, Run(policy, events[..n]), events[n]);
    }
  }

  lemma {:induction false} PassedReason(policy: Policy, fences: seq<Reading>)
    requires AllPass(policy, fences)
    ensures FenceReason(policy, fences) ==
            if forall k :: 0 <= k < |fences| ==> fences[k].authorized then "" else "lease-expired"
  {
    if |fences| > 0 {
      var n := |fences| - 1;
      PassedReason(policy, fences[..n]);
      assert FenceVerdict(Some(policy), fences[n]).Pass?;
    }
  }

  /** What the release tells the scheduler. Accepted output passed all three fences: its release has no reason if the
      lease was authorized each time, and otherwise says the lease expired, under the local policy with the claim live.
      A release that says the output was fenced, or that the dispatch or the remote build failed, has no accepted
      output. */
  lemma ReleaseReason(policy: Policy, events: seq<Event>)
    requires Run(policy, events).main.Over? && Run(policy, events).log != []
    ensures var s := Run(policy, events); var last := s.log[|s.log| - 1];
            && last.Release?
            && (s.accepted ==>
                  && |s.fences| == 3
                  && (last.reason == "" <==> forall k :: 0 <= k < 3 ==> s.fences[k].authorized)
                  && (last.reason != "" ==> last.reason == "lease-expired" && policy.Local?)
                  && (forall k :: 0 <= k < 3 ==> s.fences[k].authorized || (policy.Local? && s.fences[k].claimLive)))
            && (last.reason in {"policy", "connect", "remote-compile", "lease-fenced"} ==> !s.accepted)
  {
    RunKeeps(policy, events);
    RunKeepsReason(policy, events);
    var s := Run(policy, events);
    if s.accepted {
      PassedReason(policy, s.fences);
      AcceptedFences(policy, s.fences);
    }
  }

  lemma AcceptedFences(policy: Policy, fences: seq<Reading>)
    requires |fences| == 3 && AllPass(policy, fences)
    ensures forall k :: 0 <= k < 3 ==> fences[k].authorized || (policy.Local? && fences[k].claimLive)
  {
    forall k | 0 <= k < 3 ensures fences[k].authorized || (policy.Local? && fences[k].claimLive) {
      assert FenceVerdict(Some(policy), fences[k]).Pass?;
    }
  }

  // ------------------------------------------------------------------- collection

  /** What happened during a collection, in order. */
  datatype Happening =
    | Opened | Fetched(rel: string) | Asked(reading: Reading) | Staged(rels: seq<string>) | Persisted | Cleaned

  /** Outcomes of the calls a collection makes. */
  datatype World = World(
    opens: bool, arrives: seq<bool>, first: Reading, persists: bool, second: Reading)

  function CleanRel(rel: string): Option<string> {
    var clean := CleanPath(ForwardSlashes(rel));
    if clean == "." || ".." <= clean || "/" <= clean then None else Some(clean)
  }

  ghost predicate AllArrive(artifacts: seq<string>, arrives: seq<bool>) {
    forall k :: 0 <= k < |artifacts| ==> CleanRel(artifacts[k]).Some? && k < |arrives| && arrives[k]
  }

  ghost function ArrivedRels(artifacts: seq<string>): seq<string> {
    seq(|artifacts|, k requires 0 <= k < |artifacts| =>
      match CleanRel(artifacts[k]) case Some(clean) => clean case None => "")
  }

  lemma ArriveStep(artifacts: seq<string>, arrives: seq<bool>, i: nat)
    requires i < |artifacts| && AllArrive(artifacts[..i], arrives)
    ensures var arrived := CleanRel(artifacts[i]).Some? && i < |arrives| && arrives[i];
            && (arrived ==> AllArrive(artifacts[..i + 1], arrives)
                            && ArrivedRels(artifacts[..i + 1]) == ArrivedRels(artifacts[..i])
                               + [CleanRel(artifacts[i]).value])
            && (!arrived ==> !AllArrive(artifacts, arrives))
  {
    var upto := artifacts[..i + 1];
    assert forall k :: 0 <= k < i ==> upto[k] == artifacts[..i][k];
    assert upto[i] == artifacts[i];
  }

  class Collector {
    var root: string
    var staged: seq<string>
    var trace: seq<Happening>

    constructor ()
      ensures root == "" && staged == [] && trace == []
    {
      root, staged, trace := "", [], [];
    }

    method Cleanup()
      modifies this
      ensures root == "" && staged == [] && trace == old(trace) + [Cleaned]
    {
      root, staged := "", [];
      trace := trace + [Cleaned];
    }

    /** The streaming loop; the staged list of the job is not touched. */
    method Fetch(artifacts: seq<string>, arrives: seq<bool>) returns (ok: bool, rels: seq<string>)
      modifies this`trace
      ensures old(trace) <= trace
      ensures ok <==> AllArrive(artifacts, arrives)
      ensures ok ==> rels == ArrivedRels(artifacts)
    {
      rels := [];
      for i := 0 to |artifacts|
        invariant old(trace) <= trace
        invariant AllArrive(artifacts[..i], arrives) && rels == ArrivedRels(artifacts[..i])
      {
        ArriveStep(artifacts, arrives, i);
        var clean := CleanRel(artifacts[i]);
        if clean.None? || i >= |arrives| || !arrives[i] {
          return false, rels;
        }
        trace := trace + [Fetched(clean.value)];
        rels := rels + [clean.value];
      }
      assert artifacts[..|artifacts|] == artifacts;
      return true, rels;
    }

    /** collectPullArtifacts. */
    method Collect(artifacts: seq<string>, lease: Option<Policy>, world: World) returns (ok: bool)
      modifies this
      ensures ok ==> Accepted(lease, world) && staged == ArrivedRels(artifacts)
      ensures ok <==> world.opens && AllArrive(artifacts, world.arrives)
                      && FencePasses(lease, world.first) && world.persists && FencePasses(lease, world.second)
      ensures ok ==> world.first.phaseOpen && world.second.phaseOpen
      ensures ok ==> lease.None? || world.first.authorized || (lease == Some(Local) && world.first.claimLive)
      ensures ok ==> lease.None? || world.second.authorized || (lease == Some(Local) && world.second.claimLive)
      ensures !ok && world.opens ==> staged == [] && root == "" && trace != [] && trace[|trace| - 1].Cleaned?
      ensures !ok && !world.opens ==> staged == old(staged) && root == old(root) && trace == old(trace)
    {
      if !world.opens {
        return false;
      }
      root, staged := "quarantine", [];
      trace := trace + [Opened];
      var fetched, rels := Fetch(artifacts, world.arrives);
      if !fetched {
        Cleanup();
        return false;
      }
      trace := trace + [Asked(world.first)];
      if !FencePasses(lease, world.first) {
        Cleanup();
        return false;
      }
      staged := rels;
      trace := trace + [Staged(rels)];
      if !world.persists {
        Cleanup();
        return false;
      }
      trace := trace + [Persisted, Asked(world.second)];
      if !FencePasses(lease, world.second) {
        Cleanup();
        return false;
      }
      return true;
    }

    /** The artifacts were staged and persisted, and the last thing that happened was a fence that passed. */
    ghost predicate Accepted(lease: Option<Policy>, world: World)
      reads this
    {
      && |trace| >= 3
      && trace[|trace| - 3] == Staged(staged)
      && trace[|trace| - 2] == Persisted
      && trace[|trace| - 1] == Asked(world.second)
      && FencePasses(lease, world.second)
    }
  }
}
