/** The in-memory status of one job against the durable ledger: updateStatus, reconciler ticks, phase claims,
    phase completion and phase failure, interleaved in any way (internal/builder/manager.go, manager_phase.go). */
module StatusLedger {
  import opened Text

  /** What updateStatus compares before it writes back. */
  datatype Row = Row(attempt: string, fence: nat, status: string)

  /** The in-memory row and the ledger version it came from, if any. */
  datatype Memory = Memory(row: Row, version: Option<nat>)

  datatype Kind = Transition | Finalize | Failure

  datatype Thread =
    | Idle
    | Asking(kind: Kind, before: Memory, after: Row)
    | Accepted(kind: Kind, before: Memory, after: Row, version: nat)

  /** The ledger is a black box that accepts or rejects; its accepted rows form a list, and other replicas add to it. */
  datatype State = State(
    history: seq<Row>, memory: Option<Memory>, fetched: Option<nat>, threads: map<nat, Thread>)

  datatype Event =
    | Snapshot(thread: nat, kind: Kind, status: string)
    | Decide(thread: nat, accept: bool)
    | Apply(thread: nat)
    | Outside(row: Row)
    | Fetch(version: nat) | FetchNothing | Tick
    | Claim(version: nat)

  const INITIAL := State([], None, None, map[])

  function At(s: State, t: nat): Thread {
    if t in s.threads then s.threads[t] else Idle
  }

  function Next(kind: Kind, row: Row, status: string): Row {
    match kind
    case Transition => row.(status := status)
    case Finalize => row.(status := "completed")
    case Failure => row.(status := "failed")
  }

  /** The copy under the lock; without an attempt ID updateStatus writes straight into memory. */
  function SnapshotStep(s: State, t: nat, kind: Kind, status: string): State {
    if !At(s, t).Idle? || s.memory.None? then s
    else
      var before := s.memory.value;
      var after := Next(kind, before.row, status);
      if kind.Transition? && before.row.attempt == "" then s.(memory := Some(Memory(after, None)))
      else s.(threads := s.threads[t := Asking(kind, before, after)])
  }

  function DecideStep(s: State, t: nat, accept: bool): State {
    match At(s, t)
    case Asking(kind, before, after) =>
      if accept then
        s.(history := s.history + [after], threads := s.threads[t := Accepted(kind, before, after, |s.history|)])
      else s.(threads := s.threads[t := Idle])
    case _ => s
  }

  /** The write after the ledger's answer: guarded in updateStatus, unconditional after a phase commit. */
  function ApplyStep(s: State, t: nat): State {
    match At(s, t)
    case Accepted(kind, before, after, version) =>
      var write := !kind.Transition? || (s.memory.Some? && s.memory.value.row == before.row);
      s.(threads := s.threads[t := Idle], memory := if write then Some(Memory(after, Some(version))) else s.memory)
    case _ => s
  }

  function Step(s: State, event: Event): State {
    match event
    case Snapshot(t, kind, status) => SnapshotStep(s, t, kind, status)
    case Decide(t, accept) => DecideStep(s, t, accept)
    case Apply(t) => ApplyStep(s, t)
    case Outside(row) => s.(history := s.history + [row])
    case Fetch(k) => if k < |s.history| then s.(fetched := Some(k)) else s
    case FetchNothing => s.(fetched := None)
    case Tick =>
      s.(memory := if s.fetched.Some? && s.fetched.value < |s.history|
                   then Some(Memory(s.history[s.fetched.value], s.fetched)) else None)
    case Claim(k) => if k < |s.history| then s.(memory := Some(Memory(s.history[k], Some(k)))) else s
  }

  function Run(events: seq<Event>): State {
    if |events| == 0 then INITIAL else Step(Run(events[..|events| - 1]), events[|events| - 1])
  }

  // ----------------------------------------------------------------- invariant

  predicate FromLedger(history: seq<Row>, m: Memory) {
    m.row.attempt != "" ==> m.version.Some? && m.version.value < |history| && history[m.version.value] == m.row
  }

  predicate ThreadFits(history: seq<Row>, x: Thread) {
    match x
    case Idle => true
    case Asking(kind, before, after) =>
      FromLedger(history, before) && (kind.Transition? ==> before.row.attempt != "")
    case Accepted(kind, before, after, version) =>
      && version < |history| && history[version] == after
      && FromLedger(history, before)
      && (kind.Transition? ==> before.row.attempt != "")
      && (before.row.attempt != "" ==> before.version.value < version)
  }

  ghost predicate Inv(s: State) {
    && (s.memory.Some? ==> FromLedger(s.history, s.memory.value))
    && (forall t :: t in s.threads ==> ThreadFits(s.history, s.threads[t]))
  }

  lemma GrowKeeps(s: State, row: Row)
    requires Inv(s)
    ensures Inv(s.(history := s.history + [row]))
  {
    var t := s.(history := s.history + [row]);
    forall k | k in t.threads ensures ThreadFits(t.history, t.threads[k]) {
      assert ThreadFits(s.history, s.threads[k]);
    }
  }

  lemma StepKeeps(s: State, event: Event)
    requires Inv(s)
    ensures Inv(Step(s, event))
  {
    match event
    case Decide(t, accept) =>
      if At(s, t).Asking? && accept {
        GrowKeeps(s, At(s, t).after);
      }
    case Outside(row) => GrowKeeps(s, row);
    case _ =>
  }

  lemma {:induction false} RunKeeps(events: seq<Event>)
    ensures Inv(Run(events))
  {
    if |events| > 0 {
      var n := |events| - 1;
      RunKeeps(events[..n]);
      StepKeeps(Run(events[..n]), events[n]);
    }
  }

  /** While the job carries an attempt ID, its in-memory row is always one the ledger returned or accepted. */
  lemma MemoryIsDurable(events: seq<Event>)
    ensures var s := Run(events);
            s.memory.Some? && s.memory.value.row.attempt != "" ==>
              s.memory.value.version.Some? && s.memory.value.version.value < |s.history|
              && s.history[s.memory.value.version.value] == s.memory.value.row
  {
    RunKeeps(events);
  }

  // --------------------------------------------------------- slow write-backs

  /** No attempt, fence and status combination occurs twice in the ledger. */
  predicate NoRepeats(history: seq<Row>) {
    forall i, j :: 0 <= i < j < |history| ==> history[i] != history[j]
  }

  /** A late write-back of updateStatus replaces a newer version by an older one exactly when the newer version shows
      the
      copied attempt, fence and status again; if the ledger never repeats such a combination, it never does. */
  lemma LateWriteBackIsExact(events: seq<Event>, t: nat)
    requires At(Run(events), t).Accepted? && At(Run(events), t).kind.Transition?
    ensures var s := Run(events); var x := At(s, t); var after := Step(s, Apply(t)).memory;
            && (s.memory.Some? && s.memory.value.version.Some? ==>
                  after.value.version.Some?
                  && (after.value.version.value < s.memory.value.version.value
                      <==> s.memory.value.row == x.before.row && x.version < s.memory.value.version.value))
            && (NoRepeats(s.history) && s.memory.Some? && s.memory.value.version.Some? ==>
                  after.value.version.Some? && after.value.version.value >= s.memory.value.version.value)
  {
    RunKeeps(events);
    var s := Run(events);
    var x := At(s, t);
    if NoRepeats(s.history) && s.memory.Some? && s.memory.value.row == x.before.row {
      assert s.history[s.memory.value.version.value] == s.history[x.before.version.value];
      assert s.memory.value.version.value == x.before.version.value;
    }
  }

  lemma RunThen(events: seq<Event>, event: Event)
    ensures Run(events + [event]) == Step(Run(events), event)
  {
    assert (events + [event])[..|events|] == events;
  }

  /** When the ledger does come back to the same combination, a late write-back replaces version 2 by version 1. */
  lemma RepeatedStatusGoesBack() returns (events: seq<Event>)
    ensures At(Run(events), 0).Accepted? && At(Run(events), 0).kind.Transition?
    ensures Run(events).memory.Some? && Run(events).memory.value.version == Some(2)
    ensures Step(Run(events), Apply(0)).memory.Some? && Step(Run(events), Apply(0)).memory.value.version == Some(1)
  {
    var row := Row("a", 1, "verifying");
    var next := row.(status := "signing");
    var first := Memory(row, Some(0));
    RunThen([], Outside(row));
    events := [] + [Outside(row)];
    RunThen(events, Claim(0));
    events := events + [Claim(0)];
    assert Run(events) == State([row], Some(first), None, map[]);
    RunThen(events, Snapshot(0, Transition, "signing"));
    events := events + [Snapshot(0, Transition, "signing")];
    RunThen(events, Decide(0, true));
    events := events + [Decide(0, true)];
    assert Run(events) == State([row, next], Some(first), None, map[0 := Accepted(Transition, first, next, 1)]);
    RunThen(events, Outside(row));
    events := events + [Outside(row)];
    RunThen(events, Claim(2));
    events := events + [Claim(2)];
  }
}
