/** verifyAndPublish with reconciler ticks between any two of its steps (internal/builder/manager.go). */
module Pipeline {
  import opened Text

  // ----------------------------------------------------------- the projection

  /** The part of a job that the durable ledger carries, with the claim it has on the job, if any. */
  datatype Row = Row(attempt: string, fence: nat, owner: string, status: string, signed: bool, keyId: string)

  /** The ledger attaches a whole claim identity or none. */
  predicate Issued(row: Row) {
    (row.attempt == "" <==> row.fence == 0) && (row.attempt == "" <==> row.owner == "")
  }

  /** A staged artifact set: the quarantine token, which fixes the directory, and the relative paths. */
  datatype Generation = Generation(token: string, rels: seq<string>)

  /** The in-memory job: the durable part and the process-local staged set. */
  datatype Job = Job(row: Row, staged: Option<Generation>)

  /** preserveLocalGenerationFacts. */
  function Preserved(durable: Row, local: Row): Row {
    if local.attempt == "" || local.attempt != durable.attempt then durable
    else
      var signed := durable.signed || local.signed;
      durable.(signed := signed, keyId := if signed && durable.keyId == "" then local.keyId else durable.keyId)
  }

  function Projected(durable: Row, local: Option<Job>): Job {
    match local
    case None => Job(durable, None)
    case Some(job) => Job(Preserved(durable, job.row), job.staged)
  }

  class Manager {
    var jobs: map<string, Job>

    constructor (jobs: map<string, Job>)
      ensures this.jobs == jobs
    {
      this.jobs := jobs;
    }

    /** SyncLedgerJobs: exactly the durable jobs remain, each keeping its local facts. */
    method SyncLedgerJobs(durable: map<string, Row>)
      modifies this
      ensures jobs.Keys == durable.Keys
      ensures forall id :: id in durable ==>
                jobs[id] == Projected(durable[id], if id in old(jobs) then Some(old(jobs)[id]) else None)
    {
      var next: map<string, Job> := map[];
      var left := durable.Keys;
      while left != {}
        invariant left <= durable.Keys && next.Keys == durable.Keys - left && jobs == old(jobs)
        invariant forall id :: id in next ==>
                    next[id] == Projected(durable[id], if id in jobs then Some(jobs[id]) else None)
        decreases left
      {
        var id :| id in left;
        next := next[id := Projected(durable[id], if id in jobs then Some(jobs[id]) else None)];
        left := left - {id};
      }
      jobs := next;
    }
  }

  // ------------------------------------------------------------------- machine

  /** Where verifyAndPublish stands. */
  datatype Point =
    | Prepare1 | Verify1 | Check1 | Negative | SignStatus | SignFence | Sign
    | Prepare2 | Verify2 | Check2 | PublishStatus | PublishFence | Promote | Finished | Broken

  /** What the pipeline holds while it waits outside the lock. */
  datatype Held = Nothing | Update(before: Job, after: Job) | Probe(generation: Generation, signed: bool)

  datatype Entry =
    | Checked(generation: Generation, signature: bool)
    | Refused(generation: Generation)
    | Promoted(generation: Generation)

  /** The job, the pipeline, the set it works on, whether signer output was adopted, and what it did. */
  datatype State = State(
    job: Option<Job>, point: Point, held: Held, current: Generation, adopted: bool, log: seq<Entry>)

  /** Outcomes of the calls the pipeline makes. */
  datatype Outcome = Outcome(ok: bool, output: Generation, keyId: string)

  datatype Move = Tick(row: Option<Row>) | Advance(outcome: Outcome)

  /** Whether signing is enabled and whether the manager works with the durable ledger. */
  datatype Config = Config(gpg: bool, ledger: bool)

  const SIGNING := Config(true, true)

  function Fail(s: State): State {
    s.(point := Broken, held := Nothing)
  }

  function NextPoint(c: Config, p: Point): Point {
    match p
    case Prepare1 => Verify1
    case Verify1 => Check1
    case Check1 => if c.gpg then Negative else PublishStatus
    case Negative => SignStatus
    case SignStatus => SignFence
    case SignFence => Sign
    case Sign => Prepare2
    case Prepare2 => Verify2
    case Verify2 => Check2
    case Check2 => PublishStatus
    case PublishStatus => PublishFence
    case PublishFence => Promote
    case Promote => Finished
    case Finished => Finished
    case Broken => Broken
  }

  function Target(p: Point): string {
    match p
    case SignStatus => "signing"
    case PublishStatus => "publishing"
    case _ => "verifying"
  }

  /** updateStatus: copy under the lock, ask the ledger, write back only over the copied state. */
  function UpdateStep(c: Config, s: State, ok: bool): State {
    match s.held
    case Update(before, after) =>
      if !ok then Fail(s)
      else
        var same := s.job.Some? && s.job.value.row.attempt == before.row.attempt
                    && s.job.value.row.fence == before.row.fence && s.job.value.row.status == before.row.status;
        s.(held := Nothing, point := NextPoint(c, s.point), job := if same then Some(after) else s.job)
    case _ =>
      if s.job.None? then Fail(s)
      else
        var after := s.job.value.(row := s.job.value.row.(status := Target(s.point)));
        if !c.ledger || s.job.value.row.attempt == "" then
          s.(held := Nothing, point := NextPoint(c, s.point), job := Some(after))
        else s.(held := Update(s.job.value, after))
  }

  /** requireActiveClaim: with a ledger, the projected row asks for its own claim, which the ledger renews or refuses.
      */
  function FenceStep(c: Config, s: State, ok: bool): State {
    if !c.ledger then s.(point := NextPoint(c, s.point))
    else if s.job.None? then Fail(s)
    else
      var row := s.job.value.row;
      if row.attempt == "" || row.fence == 0 || row.owner == "" || !ok then Fail(s)
      else s.(point := NextPoint(c, s.point))
  }

  /** verificationGeneration, then the builder's answer. */
  function CheckStep(c: Config, s: State, ok: bool): State {
    match s.held
    case Probe(generation, signed) =>
      if !ok then Fail(s)
      else s.(held := Nothing, point := NextPoint(c, s.point), log := s.log + [Checked(generation, signed)])
    case _ =>
      if s.job.None? || s.job.value.staged.None? then Fail(s)
      else s.(held := Probe(s.job.value.staged.value, s.job.value.row.signed))
  }

  /** verifyUnsignedRejectedOnBuilder: success means the builder refused the unsigned set with a reason. */
  function NegativeStep(c: Config, s: State, refused: bool): State {
    match s.held
    case Probe(generation, signed) =>
      if !refused then Fail(s)
      else s.(held := Nothing, point := NextPoint(c, s.point), log := s.log + [Refused(generation)])
    case _ =>
      if s.job.None? || s.job.value.staged.None? || s.job.value.row.signed then Fail(s)
      else s.(held := Probe(s.job.value.staged.value, false))
  }

  /** signJobArtifacts, which needs the ledger's coordinator, and adoptSignedArtifacts: the mutation under the lock,
      then
      persistence. */
  function SignStep(c: Config, s: State, o: Outcome): State {
    var keyId := TrimSpace(o.keyId);
    if !c.ledger || keyId == "" || s.job.None? then Fail(s)
    else
      var row := s.job.value.row.(signed := true, keyId := keyId);
      var t := s.(job := Some(Job(row, Some(o.output))), current := o.output, adopted := true);
      if o.ok then t.(point := NextPoint(c, s.point)) else Fail(t)
  }

  function PromoteStep(c: Config, s: State, ok: bool): State {
    if !ok || s.job.None? || s.job.value.staged.None? then Fail(s)
    else s.(point := NextPoint(c, s.point), log := s.log + [Promoted(s.job.value.staged.value)])
  }

  function AdvanceStep(c: Config, s: State, o: Outcome): State {
    match s.point
    case Prepare1 => if o.ok then s.(point := NextPoint(c, s.point)) else Fail(s)
    case Prepare2 => if o.ok then s.(point := NextPoint(c, s.point)) else Fail(s)
    case Verify1 => UpdateStep(c, s, o.ok)
    case Verify2 => UpdateStep(c, s, o.ok)
    case SignStatus => UpdateStep(c, s, o.ok)
    case PublishStatus => UpdateStep(c, s, o.ok)
    case SignFence => FenceStep(c, s, o.ok)
    case PublishFence => FenceStep(c, s, o.ok)
    case Check1 => CheckStep(c, s, o.ok)
    case Check2 => CheckStep(c, s, o.ok)
    case Negative => NegativeStep(c, s, o.ok)
    case Sign => SignStep(c, s, o)
    case Promote => PromoteStep(c, s, o.ok)
    case Finished => s
    case Broken => s
  }

  /** Only a ledger is reconciled. */
  function Step(c: Config, s: State, move: Move): State {
    match move
    case Tick(row) =>
      if !c.ledger then s else s.(job := if row.None? then None else Some(Projected(row.value, s.job)))
    case Advance(o) => AdvanceStep(c, s, o)
  }

  function Start(job: Job): State
    requires job.staged.Some?
  {
    State(Some(job), Prepare1, Nothing, job.staged.value, false, [])
  }

  function Run(c: Config, job: Job, moves: seq<Move>): State
    requires job.staged.Some?
  {
    if |moves| == 0 then Start(job) else Step(c, Run(c, job, moves[..|moves| - 1]), moves[|moves| - 1])
  }

  // ------------------------------------------------- what holds whatever is delivered

  /** What has been done once a point is reached. */
  datatype Phase = Early | Probing | Signing | Resigned | Publishing | Done | Failed

  function PhaseOf(p: Point): Phase {
    match p
    case Prepare1 => Early
    case Verify1 => Early
    case Check1 => Early
    case Negative => Probing
    case SignStatus => Signing
    case SignFence => Signing
    case Sign => Signing
    case Prepare2 => Resigned
    case Verify2 => Resigned
    case Check2 => Resigned
    case PublishStatus => Publishing
    case PublishFence => Publishing
    case Promote => Publishing
    case Finished => Done
    case Broken => Failed
  }

  predicate UpdatePoint(p: Point) {
    p.Verify1? || p.Verify2? || p.SignStatus? || p.PublishStatus?
  }

  predicate ProbePoint(p: Point) {
    p.Check1? || p.Check2? || p.Negative?
  }

  /** A job that still has a staged set has the current one. */
  predicate SetFits(s: State, job: Job) {
    job.staged.Some? ==> job.staged.value == s.current
  }

  /** The first set passed a check and was then refused under the signed policy. */
  predicate Refusal(log: seq<Entry>) {
    |log| >= 2 && log[0].Checked? && log[1] == Refused(log[0].generation)
  }

  /** The set passed its last install check, with signing on after the first set was refused. */
  predicate Shape(c: Config, log: seq<Entry>, current: Generation) {
    if c.gpg then |log| == 3 && Refusal(log) && log[2].Checked? && log[2].generation == current
    else |log| == 1 && log[0].Checked? && log[0].generation == current
  }

  predicate LogFits(c: Config, s: State) {
    match PhaseOf(s.point)
    case Early => s.log == [] && !s.adopted
    case Probing => c.gpg && !s.adopted && |s.log| == 1 && s.log[0].Checked? && s.log[0].generation == s.current
    case Signing => c.gpg && !s.adopted && |s.log| == 2 && Refusal(s.log)
    case Resigned => c.gpg && s.adopted && |s.log| == 2 && Refusal(s.log)
    case Publishing => Shape(c, s.log, s.current) && s.adopted == c.gpg
    case Done => s.log != [] && s.log[|s.log| - 1] == Promoted(s.current)
                 && Shape(c, s.log[..|s.log| - 1], s.current) && s.adopted == c.gpg
    case Failed => forall k :: 0 <= k < |s.log| ==> !s.log[k].Promoted?
  }

  predicate HeldFits(s: State) {
    match s.held
    case Nothing => true
    case Update(before, after) =>
      && UpdatePoint(s.point) && SetFits(s, before) && before.row.attempt != ""
      && after == before.(row := before.row.(status := Target(s.point)))
    case Probe(generation, flag) => ProbePoint(s.point) && generation == s.current && (s.point.Negative? ==> !flag)
  }

  predicate Base(c: Config, s: State) {
    LogFits(c, s) && (s.job.Some? ==> SetFits(s, s.job.value)) && HeldFits(s)
  }

  lemma FailBase(c: Config, s: State)
    requires Base(c, s) && !s.point.Finished?
    ensures Base(c, Fail(s))
  {
  }

  lemma UpdateBase(c: Config, s: State, ok: bool)
    requires Base(c, s) && UpdatePoint(s.point)
    ensures Base(c, UpdateStep(c, s, ok))
  {
    FailBase(c, s);
  }

  lemma CheckBase(c: Config, s: State, ok: bool)
    requires Base(c, s) && (s.point.Check1? || s.point.Check2?)
    ensures Base(c, CheckStep(c, s, ok))
  {
    FailBase(c, s);
  }

  lemma PromoteBase(c: Config, s: State, ok: bool)
    requires Base(c, s) && s.point.Promote?
    ensures Base(c, PromoteStep(c, s, ok))
  {
    FailBase(c, s);
    if s.job.Some? && s.job.value.staged.Some? {
      assert (s.log + [Promoted(s.job.value.staged.value)])[..|s.log|] == s.log;
    }
  }

  lemma OtherBase(c: Config, s: State, o: Outcome)
    requires Base(c, s) && !UpdatePoint(s.point) && !s.point.Check1? && !s.point.Check2? && !s.point.Promote?
    ensures Base(c, AdvanceStep(c, s, o))
  {
    if !s.point.Finished? {
      FailBase(c, s);
    }
  }

  lemma AdvanceBase(c: Config, s: State, o: Outcome)
    requires Base(c, s)
    ensures Base(c, AdvanceStep(c, s, o))
  {
    if UpdatePoint(s.point) {
      UpdateBase(c, s, o.ok);
    } else if s.point.Check1? || s.point.Check2? {
      CheckBase(c, s, o.ok);
    } else if s.point.Promote? {
      PromoteBase(c, s, o.ok);
    } else {
      OtherBase(c, s, o);
    }
  }

  lemma TickBase(c: Config, s: State, row: Option<Row>)
    requires Base(c, s)
    ensures Base(c, Step(c, s, Tick(row)))
  {
  }

  lemma {:induction false} RunBase(c: Config, job: Job, moves: seq<Move>)
    requires job.staged.Some?
    ensures Base(c, Run(c, job, moves))
  {
    if |moves| > 0 {
      var n := |moves| - 1;
      RunBase(c, job, moves[..n]);
      var s := Run(c, job, moves[..n]);
      match moves[n]
      case Tick(row) => TickBase(c, s, row);
      case Advance(o) => AdvanceBase(c, s, o);
    }
  }

  lemma PromotionIsLast(c: Config, s: State, k: nat)
    requires LogFits(c, s) && k < |s.log| && s.log[k].Promoted?
    ensures s.point.Finished? && k == |s.log| - 1 && s.log[k].generation == s.current && Shape(c, s.log[..k], s.current)
  {
    if s.point.Finished? {
      var front := s.log[..|s.log| - 1];
      assert forall j :: 0 <= j < |front| ==> front[j] == s.log[j];
    }
  }

  /** On every run, whatever rows the ticks deliver: what is promoted passed an install check as the last thing before,
      and with signing enabled another set had passed a check and been refused under the signed policy. */
  lemma PromotedSetWasChecked(c: Config, job: Job, moves: seq<Move>, k: nat)
    requires job.staged.Some? && k < |Run(c, job, moves).log| && Run(c, job, moves).log[k].Promoted?
    ensures var log := Run(c, job, moves).log;
            k == |log| - 1 && Shape(c, log[..k], log[k].generation)
  {
    RunBase(c, job, moves);
    PromotionIsLast(c, Run(c, job, moves), k);
  }

  // ----------------------------------------------- rows that keep the signature

  /** The rows a run delivers. */
  function Delivered(moves: seq<Move>): set<Row> {
    set m | m in moves && m.Tick? && m.row.Some? :: m.row.value
  }

  predicate AllSigned(rows: set<Row>) {
    forall r :: r in rows ==> r.signed
  }

  predicate AllOf(rows: set<Row>, attempt: string) {
    forall r :: r in rows ==> r.attempt == attempt
  }

  /** Every row is signed, or all belong to one attempt: the job's own, or no attempt at all, or the first one the job
      gets. */
  ghost predicate Trusted(attempt: string, rows: set<Row>) {
    AllSigned(rows) || exists a :: AllOf(rows, a) && (a == attempt || a == "" || attempt == "")
  }

  /** Why the delivered rows keep the signature: they carry it, they belong to one attempt, or they take the claim. */
  datatype Mode = Carrying | Single(attempt: string) | Claimless

  predicate ModeFits(mode: Mode, row: Row) {
    match mode
    case Carrying => row.signed
    case Single(a) => row.attempt == a
    case Claimless => row.attempt == ""
  }

  predicate Sealed(s: State) {
    || s.adopted
    || (s.held.Probe? && s.held.signed)
    || (|s.log| >= 1 && s.log[0].Checked? && s.log[0].signature)
  }

  /** A row of the job, in memory or waiting to be written back, keeps a flag once it has been seen. */
  predicate Keeps(mode: Mode, start: string, s: State, job: Job) {
    match mode
    case Carrying => Sealed(s) ==> job.row.signed
    case Single(a) =>
      && (job.row.attempt == a || (job.row.attempt == "" && !job.row.signed && !Sealed(s)))
      && (Sealed(s) && job.staged.Some? ==> job.row.signed)
      && (s.adopted && job.staged.Some? ==> job.row.keyId != "")
    case Claimless =>
      && (job.row.attempt == start || job.row.attempt == "")
      && (Sealed(s) && job.staged.Some? && job.row.attempt != "" ==> job.row.signed)
  }

  /** No claim is left, and none can come back. */
  predicate Dead(mode: Mode, s: State) {
    mode.Claimless? && (s.job.Some? ==> s.job.value.row.attempt == "")
  }

  /** The first check saw no signature. */
  predicate Unsigned(s: State) {
    |s.log| >= 1 && s.log[0].Checked? && !s.log[0].signature
  }

  /** The last check saw one. */
  predicate LastSigned(s: State) {
    |s.log| >= 3 && s.log[2].Checked? && s.log[2].signature
  }

  /** At the signer the job has the one attempt. */
  predicate HasAttempt(mode: Mode, s: State) {
    mode.Single? && s.job.Some? ==> s.job.value.row.attempt == mode.attempt
  }

  predicate FlagsFit(mode: Mode, s: State) {
    match PhaseOf(s.point)
    case Early => true
    case Probing => true
    case Signing => (Unsigned(s) || (!s.point.Sign? && Dead(mode, s))) && (s.point.Sign? ==> HasAttempt(mode, s))
    case Resigned => Unsigned(s)
    case Publishing => Unsigned(s) && (LastSigned(s) || (!s.point.Promote? && Dead(mode, s)))
    case Done => Unsigned(s) && LastSigned(s)
    case Failed => true
  }

  predicate HeldKeeps(mode: Mode, start: string, s: State) {
    match s.held
    case Nothing => true
    case Update(before, after) => Keeps(mode, start, s, before)
    case Probe(generation, flag) =>
      && (s.point.Negative? ==> Unsigned(s) || Dead(mode, s))
      && (s.point.Check2? ==> flag || Dead(mode, s))
  }

  predicate JobKeeps(mode: Mode, start: string, s: State) {
    s.job.Some? ==> Keeps(mode, start, s, s.job.value)
  }

  /** With signing on. */
  predicate Inv(mode: Mode, start: string, s: State) {
    Base(SIGNING, s) && FlagsFit(mode, s) && JobKeeps(mode, start, s) && HeldKeeps(mode, start, s)
  }

  predicate ModeStarts(mode: Mode, job: Job) {
    && (job.row.attempt == "" ==> !job.row.signed)
    && (mode.Single? ==> mode.attempt != "" && (job.row.attempt == mode.attempt || job.row.attempt == ""))
  }

  lemma TickKeepsJob(mode: Mode, start: string, s: State, row: Row)
    requires JobKeeps(mode, start, s) && ModeFits(mode, row) && (mode.Single? ==> mode.attempt != "")
    ensures JobKeeps(mode, start, Step(SIGNING, s, Tick(Some(row))))
  {
  }

  lemma TickKeeps(mode: Mode, start: string, s: State, row: Option<Row>)
    requires Inv(mode, start, s) && (row.Some? ==> ModeFits(mode, row.value)) && (mode.Single? ==> mode.attempt != "")
    ensures Inv(mode, start, Step(SIGNING, s, Tick(row)))
  {
    TickBase(SIGNING, s, row);
    if row.Some? {
      TickKeepsJob(mode, start, s, row.value);
    }
  }

  lemma WriteBackKeeps(mode: Mode, start: string, s: State, ok: bool)
    requires Inv(mode, start, s) && UpdatePoint(s.point) && s.held.Update?
    ensures Inv(mode, start, UpdateStep(SIGNING, s, ok))
  {
    UpdateBase(SIGNING, s, ok);
    assert JobKeeps(mode, start, UpdateStep(SIGNING, s, ok));
  }

  lemma CopyKeeps(mode: Mode, start: string, s: State, ok: bool)
    requires Inv(mode, start, s) && UpdatePoint(s.point) && !s.held.Update?
    ensures Inv(mode, start, UpdateStep(SIGNING, s, ok))
  {
    UpdateBase(SIGNING, s, ok);
  }

  lemma UpdateKeeps(mode: Mode, start: string, s: State, ok: bool)
    requires Inv(mode, start, s) && UpdatePoint(s.point)
    ensures Inv(mode, start, UpdateStep(SIGNING, s, ok))
  {
    if s.held.Update? {
      WriteBackKeeps(mode, start, s, ok);
    } else {
      CopyKeeps(mode, start, s, ok);
    }
  }

  lemma ProbeKeeps(mode: Mode, start: string, s: State, ok: bool)
    requires Inv(mode, start, s) && (s.point.Check1? || s.point.Check2?) && !s.held.Probe?
    ensures Inv(mode, start, CheckStep(SIGNING, s, ok))
  {
    CheckBase(SIGNING, s, ok);
  }

  lemma AnswerKeeps(mode: Mode, start: string, s: State, ok: bool)
    requires Inv(mode, start, s) && (s.point.Check1? || s.point.Check2?) && s.held.Probe?
    ensures Inv(mode, start, CheckStep(SIGNING, s, ok))
  {
    CheckBase(SIGNING, s, ok);
  }

  lemma CheckKeeps(mode: Mode, start: string, s: State, ok: bool)
    requires Inv(mode, start, s) && (s.point.Check1? || s.point.Check2?)
    ensures Inv(mode, start, CheckStep(SIGNING, s, ok))
  {
    if s.held.Probe? {
      AnswerKeeps(mode, start, s, ok);
    } else {
      ProbeKeeps(mode, start, s, ok);
    }
  }

  lemma NegativeKeeps(mode: Mode, start: string, s: State, refused: bool)
    requires Inv(mode, start, s) && s.point.Negative?
    ensures Inv(mode, start, NegativeStep(SIGNING, s, refused))
  {
    OtherBase(SIGNING, s, Outcome(refused, s.current, ""));
  }

  lemma FenceKeeps(mode: Mode, start: string, s: State, ok: bool)
    requires Inv(mode, start, s) && (s.point.SignFence? || s.point.PublishFence?)
    ensures Inv(mode, start, FenceStep(SIGNING, s, ok))
  {
    OtherBase(SIGNING, s, Outcome(ok, s.current, ""));
  }

  lemma SignKeeps(mode: Mode, start: string, s: State, o: Outcome)
    requires Inv(mode, start, s) && s.point.Sign?
    ensures Inv(mode, start, SignStep(SIGNING, s, o))
  {
    OtherBase(SIGNING, s, o);
  }

  lemma PromoteKeeps(mode: Mode, start: string, s: State, ok: bool)
    requires Inv(mode, start, s) && s.point.Promote?
    ensures Inv(mode, start, PromoteStep(SIGNING, s, ok))
  {
    PromoteBase(SIGNING, s, ok);
  }

  lemma StillKeeps(mode: Mode, start: string, s: State, o: Outcome)
    requires Inv(mode, start, s)
    requires s.point.Prepare1? || s.point.Prepare2? || s.point.Finished? || s.point.Broken?
    ensures Inv(mode, start, AdvanceStep(SIGNING, s, o))
  {
    OtherBase(SIGNING, s, o);
  }

  lemma AdvanceKeeps(mode: Mode, start: string, s: State, o: Outcome)
    requires Inv(mode, start, s)
    ensures Inv(mode, start, AdvanceStep(SIGNING, s, o))
  {
    match s.point
    case Check1 => CheckKeeps(mode, start, s, o.ok);
    case Check2 => CheckKeeps(mode, start, s, o.ok);
    case Negative => NegativeKeeps(mode, start, s, o.ok);
    case SignFence => FenceKeeps(mode, start, s, o.ok);
    case PublishFence => FenceKeeps(mode, start, s, o.ok);
    case Sign => SignKeeps(mode, start, s, o);
    case Promote => PromoteKeeps(mode, start, s, o.ok);
    case Verify1 => UpdateKeeps(mode, start, s, o.ok);
    case Verify2 => UpdateKeeps(mode, start, s, o.ok);
    case SignStatus => UpdateKeeps(mode, start, s, o.ok);
    case PublishStatus => UpdateKeeps(mode, start, s, o.ok);
    case _ => StillKeeps(mode, start, s, o);
  }

  lemma {:induction false} RunKeeps(mode: Mode, job: Job, moves: seq<Move>)
    requires job.staged.Some? && ModeStarts(mode, job) && (forall r :: r in Delivered(moves) ==> ModeFits(mode, r))
    ensures Inv(mode, job.row.attempt, Run(SIGNING, job, moves))
  {
    if |moves| > 0 {
      var n := |moves| - 1;
      assert Delivered(moves[..n]) <= Delivered(moves);
      RunKeeps(mode, job, moves[..n]);
      var s := Run(SIGNING, job, moves[..n]);
      match moves[n]
      case Tick(row) =>
        assert moves[n] in moves;
        assert row.Some? ==> row.value in Delivered(moves);
        TickKeeps(mode, job.row.attempt, s, row);
      case Advance(o) => AdvanceKeeps(mode, job.row.attempt, s, o);
    }
  }

  /** What signing promises of a promotion: the unsigned set passed a check and was refused under the signed policy, and
      the promoted set then passed a check that saw its signature. */
  predicate Verified(log: seq<Entry>, generation: Generation) {
    Shape(SIGNING, log, generation) && !log[0].signature && log[2].signature
  }

  predicate Guarded(log: seq<Entry>) {
    forall k :: 0 <= k < |log| && log[k].Promoted? ==> Verified(log[..k], log[k].generation)
  }

  lemma ModeGuards(mode: Mode, job: Job, moves: seq<Move>)
    requires job.staged.Some? && ModeStarts(mode, job) && (forall r :: r in Delivered(moves) ==> ModeFits(mode, r))
    ensures Guarded(Run(SIGNING, job, moves).log)
  {
    RunKeeps(mode, job, moves);
    var s := Run(SIGNING, job, moves);
    forall k | 0 <= k < |s.log| && s.log[k].Promoted?
      ensures Verified(s.log[..k], s.log[k].generation)
    {
      PromotionIsLast(SIGNING, s, k);
      assert s.log[..k][0] == s.log[0] && s.log[..k][2] == s.log[2];
    }
  }

  /** With signing on, a promotion is backed by all three checks on every run whose delivered rows are trusted. */
  lemma PromotedOnlyAfterCheck(job: Job, moves: seq<Move>)
    requires job.staged.Some? && (job.row.attempt == "" ==> !job.row.signed)
    requires Trusted(job.row.attempt, Delivered(moves))
    ensures Guarded(Run(SIGNING, job, moves).log)
  {
    var rows := Delivered(moves);
    if AllSigned(rows) {
      ModeGuards(Carrying, job, moves);
    } else {
      var a :| AllOf(rows, a) && (a == job.row.attempt || a == "" || job.row.attempt == "");
      ModeGuards(if a == "" then Claimless else Single(a), job, moves);
    }
  }

  /** After adoption the rows of one attempt cannot take the signature or the key back. */
  lemma SignedFactsStay(job: Job, moves: seq<Move>, attempt: string)
    requires job.staged.Some? && ModeStarts(Single(attempt), job) && AllOf(Delivered(moves), attempt)
    ensures var s := Run(SIGNING, job, moves);
            s.adopted && s.job.Some? && s.job.value.staged.Some? ==>
              s.job.value.row.signed && s.job.value.row.keyId != "" && s.job.value.staged.value == s.current
  {
    RunKeeps(Single(attempt), job, moves);
  }

  // ------------------------------------------------- rows that lose the signature

  /** The states of a run from any state on. */
  function Follow(s: State, moves: seq<Move>): State {
    if |moves| == 0 then s else Step(SIGNING, Follow(s, moves[..|moves| - 1]), moves[|moves| - 1])
  }

  lemma {:induction false} RunFollows(job: Job, moves: seq<Move>)
    requires job.staged.Some?
    ensures Run(SIGNING, job, moves) == Follow(Start(job), moves)
  {
    if |moves| > 0 {
      RunFollows(job, moves[..|moves| - 1]);
    }
  }

  lemma {:induction false} FollowConcat(s: State, a: seq<Move>, b: seq<Move>)
    ensures Follow(s, a + b) == Follow(Follow(s, a), b)
  {
    if |b| == 0 {
      assert a + b == a;
    } else {
      var n := |b| - 1;
      assert (a + b)[..|a + b| - 1] == a + b[..n];
      FollowConcat(s, a, b[..n]);
    }
  }

  lemma DeliveredConcat(a: seq<Move>, b: seq<Move>)
    ensures Delivered(a + b) == Delivered(a) + Delivered(b)
  {
  }

  /** A run that ends in t and delivers only the given rows. */
  ghost predicate Reaches(s: State, moves: seq<Move>, rows: set<Row>, t: State) {
    Follow(s, moves) == t && Delivered(moves) <= rows
  }

  lemma Then(s: State, a: seq<Move>, t: State, b: seq<Move>, u: State, rows: set<Row>)
    requires Reaches(s, a, rows, t) && Reaches(t, b, rows, u)
    ensures Reaches(s, a + b, rows, u)
  {
    FollowConcat(s, a, b);
    DeliveredConcat(a, b);
  }

  function Go(generation: Generation, keyId: string): Move {
    Advance(Outcome(true, generation, keyId))
  }

  lemma One(s: State, move: Move, rows: set<Row>)
    requires move.Tick? && move.row.Some? ==> move.row.value in rows
    ensures Reaches(s, [move], rows, Step(SIGNING, s, move))
  {
    assert [move][..0] == [];
    assert Follow(s, []) == s;
  }

  lemma Two(s: State, move: Move, rows: set<Row>)
    requires move.Advance?
    ensures Reaches(s, [move, move], rows, Step(SIGNING, Step(SIGNING, s, move), move))
  {
    One(s, move, rows);
    One(Step(SIGNING, s, move), move, rows);
    Then(s, [move], Step(SIGNING, s, move), [move], Step(SIGNING, Step(SIGNING, s, move), move), rows);
    assert [move] + [move] == [move, move];
  }

  lemma PassUpdate(s: State, rows: set<Row>) returns (moves: seq<Move>, t: State)
    requires UpdatePoint(s.point) && s.held.Nothing? && s.job.Some?
    ensures Reaches(s, moves, rows, t)
    ensures t == s.(point := NextPoint(SIGNING, s.point),
                    job := Some(s.job.value.(row := s.job.value.row.(status := Target(s.point)))))
  {
    var move := Go(s.current, "");
    if s.job.value.row.attempt == "" {
      One(s, move, rows);
      moves, t := [move], Step(SIGNING, s, move);
    } else {
      Two(s, move, rows);
      moves, t := [move, move], Step(SIGNING, Step(SIGNING, s, move), move);
    }
  }

  lemma PassCheck(s: State, rows: set<Row>) returns (moves: seq<Move>, t: State)
    requires (s.point.Check1? || s.point.Check2?) && s.held.Nothing? && s.job.Some? && s.job.value.staged.Some?
    ensures Reaches(s, moves, rows, t)
    ensures t == s.(point := NextPoint(SIGNING, s.point),
                    log := s.log + [Checked(s.job.value.staged.value, s.job.value.row.signed)])
  {
    var move := Go(s.current, "");
    Two(s, move, rows);
    moves, t := [move, move], Step(SIGNING, Step(SIGNING, s, move), move);
  }

  lemma PassNegative(s: State, rows: set<Row>) returns (moves: seq<Move>, t: State)
    requires s.point.Negative? && s.held.Nothing? && s.job.Some? && s.job.value.staged.Some? && !s.job.value.row.signed
    ensures Reaches(s, moves, rows, t)
    ensures t == s.(point := SignStatus, log := s.log + [Refused(s.job.value.staged.value)])
  {
    var move := Go(s.current, "");
    Two(s, move, rows);
    moves, t := [move, move], Step(SIGNING, Step(SIGNING, s, move), move);
  }

  /** From the start to the signer's fence, with no tick. */
  lemma ReachFence(job: Job, rows: set<Row>) returns (moves: seq<Move>, t: State)
    requires job.staged.Some? && !job.row.signed
    ensures Reaches(Start(job), moves, rows, t)
    ensures t.point.SignFence? && t.held.Nothing? && t.log == [Checked(job.staged.value, false),
            Refused(job.staged.value)]
    ensures t.job.Some? && t.job.value.staged.Some? && t.job.value.row == job.row.(status := "signing")
  {
    var s0 := Start(job);
    var prepare := Go(s0.current, "");
    One(s0, prepare, rows);
    var s1 := Step(SIGNING, s0, prepare);
    var a, s2 := PassUpdate(s1, rows);
    Then(s0, [prepare], s1, a, s2, rows);
    var b, s3 := PassCheck(s2, rows);
    Then(s0, [prepare] + a, s2, b, s3, rows);
    var c, s4 := PassNegative(s3, rows);
    Then(s0, [prepare] + a + b, s3, c, s4, rows);
    var d, s5 := PassUpdate(s4, rows);
    Then(s0, [prepare] + a + b + c, s4, d, s5, rows);
    moves, t := [prepare] + a + b + c + d, s5;
  }

  /** From the signer's fence, claim in hand, to the probe of the second check. */
  lemma PassSigner(s: State, rows: set<Row>) returns (moves: seq<Move>, t: State)
    requires s.point.SignFence? && s.held.Nothing? && s.job.Some? && Issued(s.job.value.row)
             && s.job.value.row.attempt != ""
    ensures Reaches(s, moves, rows, t)
    ensures t.point.Check2? && t.held.Nothing? && t.log == s.log && t.job.Some? && t.job.value.staged.Some?
    ensures t.job.value.row.attempt == s.job.value.row.attempt && Issued(t.job.value.row)
  {
    var fence := Go(s.current, "");
    One(s, fence, rows);
    var s1 := Step(SIGNING, s, fence);
    assert TrimSpace("K") == "K" by {
      assert !IsSpace('K');
    }
    var sign := Go(s.current, "K");
    One(s1, sign, rows);
    var s2 := Step(SIGNING, s1, sign);
    Then(s, [fence], s1, [sign], s2, rows);
    One(s2, fence, rows);
    var s3 := Step(SIGNING, s2, fence);
    Then(s, [fence] + [sign], s2, [fence], s3, rows);
    var a, s4 := PassUpdate(s3, rows);
    Then(s, [fence] + [sign] + [fence], s3, a, s4, rows);
    moves, t := [fence] + [sign] + [fence] + a, s4;
  }

  /** A tick of a row of another attempt leaves that row. */
  lemma TickReplaces(s: State, row: Row, rows: set<Row>) returns (t: State)
    requires s.job.Some? && row in rows
    ensures Reaches(s, [Tick(Some(row))], rows, t)
    ensures t == s.(job := Some(Projected(row, s.job))) && t.job.value.row.attempt == row.attempt
    ensures s.job.value.row.attempt != row.attempt ==> t.job.value.row == row
    ensures Issued(row) ==> Issued(t.job.value.row)
  {
    One(s, Tick(Some(row)), rows);
    t := Step(SIGNING, s, Tick(Some(row)));
  }

  /** From the second check with an unsigned row to the publication fence. */
  lemma PassUnsigned(s: State, rows: set<Row>) returns (moves: seq<Move>, t: State)
    requires s.point.Check2? && s.held.Nothing? && s.job.Some? && s.job.value.staged.Some? && !s.job.value.row.signed
    ensures Reaches(s, moves, rows, t)
    ensures t.point.PublishFence? && t.held.Nothing?
    ensures t.log == s.log + [Checked(s.job.value.staged.value, false)]
    ensures t.job == Some(s.job.value.(row := s.job.value.row.(status := "publishing")))
  {
    var a, s1 := PassCheck(s, rows);
    var b, s2 := PassUpdate(s1, rows);
    Then(s, a, s1, b, s2, rows);
    moves, t := a + b, s2;
  }

  /** From the publication fence, claim in hand, to the promotion. */
  lemma PassPromotion(s: State, rows: set<Row>) returns (moves: seq<Move>, t: State)
    requires s.point.PublishFence? && s.job.Some? && s.job.value.staged.Some?
    requires Issued(s.job.value.row) && s.job.value.row.attempt != ""
    ensures Reaches(s, moves, rows, t)
    ensures t.log == s.log + [Promoted(s.job.value.staged.value)]
  {
    var move := Go(s.current, "");
    Two(s, move, rows);
    moves, t := [move, move], Step(SIGNING, Step(SIGNING, s, move), move);
  }

  /** The runs that lose the signature go through a second check that does not see it. */
  lemma LostLog(log: seq<Entry>, generation: Generation)
    requires |log| == 4 && log[3] == Promoted(generation) && log[2].Checked? && !log[2].signature
    ensures !Guarded(log)
  {
    assert log[..3][2] == log[2];
  }

  /** All rows of one other attempt, one of them unsigned: it arrives between adoption and the second check. */
  lemma OtherAttemptLoses(job: Job, r: Row, rows: set<Row>) returns (moves: seq<Move>)
    requires job.staged.Some? && !job.row.signed && Issued(job.row) && job.row.attempt != ""
    requires r in rows && !r.signed && Issued(r) && r.attempt != "" && r.attempt != job.row.attempt
    ensures Delivered(moves) <= rows && !Guarded(Run(SIGNING, job, moves).log)
  {
    var s := Start(job);
    var a, s1 := ReachFence(job, rows);
    var b, s2 := PassSigner(s1, rows);
    Then(s, a, s1, b, s2, rows);
    var s3 := TickReplaces(s2, r, rows);
    Then(s, a + b, s2, [Tick(Some(r))], s3, rows);
    var c, s4 := PassUnsigned(s3, rows);
    Then(s, a + b + [Tick(Some(r))], s3, c, s4, rows);
    var d, s5 := PassPromotion(s4, rows);
    moves := a + b + [Tick(Some(r))] + c + d;
    Then(s, a + b + [Tick(Some(r))] + c, s4, d, s5, rows);
    RunFollows(job, moves);
    LostLog(s5.log, s4.job.value.staged.value);
  }

  /** Rows of two attempts, one unsigned: the other one makes room for it, and a claimed one passes both fences. */
  lemma TwoAttemptsLose(job: Job, x: Row, y: Row, r: Row, rows: set<Row>) returns (moves: seq<Move>)
    requires job.staged.Some? && !job.row.signed
    requires x in rows && Issued(x) && x.attempt != ""
    requires y in rows && r in rows && !r.signed && y.attempt != r.attempt
    ensures Delivered(moves) <= rows && !Guarded(Run(SIGNING, job, moves).log)
  {
    var s := Start(job);
    var tx, ty, tr := [Tick(Some(x))], [Tick(Some(y))], [Tick(Some(r))];
    var a, s1 := ReachFence(job, rows);
    var s2 := TickReplaces(s1, x, rows);
    Then(s, a, s1, tx, s2, rows);
    var b, s3 := PassSigner(s2, rows);
    Then(s, a + tx, s2, b, s3, rows);
    var s4 := TickReplaces(s3, y, rows);
    Then(s, a + tx + b, s3, ty, s4, rows);
    var s5 := TickReplaces(s4, r, rows);
    Then(s, a + tx + b + ty, s4, tr, s5, rows);
    var c, s6 := PassUnsigned(s5, rows);
    Then(s, a + tx + b + ty + tr, s5, c, s6, rows);
    var s7 := TickReplaces(s6, x, rows);
    Then(s, a + tx + b + ty + tr + c, s6, tx, s7, rows);
    var d, s8 := PassPromotion(s7, rows);
    moves := a + tx + b + ty + tr + c + tx + d;
    Then(s, a + tx + b + ty + tr + c + tx, s7, d, s8, rows);
    RunFollows(job, moves);
    LostLog(s8.log, s7.job.value.staged.value);
  }

  lemma UntrustedLoses(job: Job, rows: set<Row>) returns (moves: seq<Move>)
    requires job.staged.Some? && !job.row.signed && Issued(job.row) && (forall r :: r in rows ==> Issued(r))
    requires !Trusted(job.row.attempt, rows)
    ensures Delivered(moves) <= rows && !Guarded(Run(SIGNING, job, moves).log)
  {
    var r :| r in rows && !r.signed;
    if AllOf(rows, r.attempt) {
      moves := OtherAttemptLoses(job, r, rows);
    } else {
      var y :| y in rows && y.attempt != r.attempt;
      moves := TwoAttemptsLose(job, if r.attempt != "" then r else y, y, r, rows);
    }
  }

  /** The signing promise holds on every run over a set of rows exactly when that set is trusted. */
  lemma SigningHoldsExactly(job: Job, rows: set<Row>)
    requires job.staged.Some? && !job.row.signed && Issued(job.row) && (forall r :: r in rows ==> Issued(r))
    ensures (forall moves :: Delivered(moves) <= rows ==> Guarded(Run(SIGNING, job, moves).log))
            <==> Trusted(job.row.attempt, rows)
  {
    if Trusted(job.row.attempt, rows) {
      forall moves | Delivered(moves) <= rows
        ensures Guarded(Run(SIGNING, job, moves).log)
      {
        TrustedSubset(job.row.attempt, Delivered(moves), rows);
        PromotedOnlyAfterCheck(job, moves);
      }
    } else {
      var moves := UntrustedLoses(job, rows);
    }
  }

  lemma TrustedSubset(attempt: string, some: set<Row>, rows: set<Row>)
    requires some <= rows && Trusted(attempt, rows)
    ensures Trusted(attempt, some)
  {
    if !AllSigned(rows) {
      var a :| AllOf(rows, a) && (a == attempt || a == "" || attempt == "");
      assert AllOf(some, a);
    }
  }

  /** A job claimed for one attempt, whose ledger row comes back under the next attempt: the new row is unsigned. */
  lemma ReclaimedRowLosesTheSignature() returns (moves: seq<Move>)
    ensures var job := Job(Row("attempt-1", 1, "manager-1", "verifying", false, ""), Some(Generation("token",
            ["a/b-1.gpkg.tar"])));
            Delivered(moves) <= {Row("attempt-2", 2, "manager-2", "verifying", false, "")}
            && !Guarded(Run(SIGNING, job, moves).log)
  {
    var job := Job(Row("attempt-1", 1, "manager-1", "verifying", false, ""), Some(Generation("token",
               ["a/b-1.gpkg.tar"])));
    var r := Row("attempt-2", 2, "manager-2", "verifying", false, "");
    assert "attempt-1"[8] != "attempt-2"[8];
    moves := OtherAttemptLoses(job, r, {r});
  }
}
