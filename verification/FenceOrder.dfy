/** The signing promise of verifyAndPublish when rows arrive as the ledger's fences order them
    (internal/builder/manager.go,
    internal/persistence/scheduler.go): an attempt that has been left does not come back. */
module FenceOrder {
  import opened Text
  import opened Pipeline

  // ------------------------------------------------------------------------ order

  /** The fence last seen, and whether its claim has been seen to lapse. */
  datatype Clock = Clock(top: nat, gone: bool)

  function Ticked(c: Clock, row: Row): Clock {
    if row.attempt == "" then c.(gone := true) else Clock(row.fence, false)
  }

  /** A claim is the last one while it lasts, or a later one; a row without a claim may come at any time. */
  predicate Admissible(c: Clock, row: Row) {
    row.attempt == "" || row.fence > c.top || (row.fence == c.top && !c.gone)
  }

  function ClockOf(start: Row, list: seq<Row>): Clock {
    if |list| == 0 then Clock(start.fence, start.attempt == "")
    else Ticked(ClockOf(start, list[..|list| - 1]), list[|list| - 1])
  }

  predicate InOrder(start: Row, list: seq<Row>) {
    |list| == 0
    || (InOrder(start, list[..|list| - 1]) && Admissible(ClockOf(start, list[..|list| - 1]), list[|list| - 1]))
  }

  /** The rows a run delivers, in order. */
  function Rows(moves: seq<Move>): seq<Row> {
    if |moves| == 0 then []
    else
      var last := moves[|moves| - 1];
      Rows(moves[..|moves| - 1]) + if last.Tick? && last.row.Some? then [last.row.value] else []
  }

  ghost predicate From(start: Row, rows: set<Row>, x: Row) {
    x in rows || x == start
  }

  /** Rows as the ledger issues them: a claim is whole, and the fence tells the attempt. */
  ghost predicate Coherent(start: Row, rows: set<Row>) {
    && (forall a :: From(start, rows, a) ==> Issued(a))
    && (forall a, b :: From(start, rows, a) && From(start, rows, b) ==> (a.fence == b.fence
       <==> a.attempt == b.attempt))
  }

  // -------------------------------------------------------------------- condition

  ghost predicate ClaimlessAreSigned(rows: set<Row>) {
    forall c :: c in rows && c.attempt == "" ==> c.signed
  }

  /** Once a claim can be followed by a later one, the later one is signed and so is every row without a claim. */
  ghost predicate LaterAreSigned(start: Row, rows: set<Row>) {
    forall x, r :: From(start, rows, x) && r in rows && x.attempt != "" && start.fence <= x.fence < r.fence
                   ==> r.signed && ClaimlessAreSigned(rows)
  }

  ghost predicate SignedClaimless(rows: set<Row>) {
    exists u :: u in rows && u.attempt == "" && u.signed
  }

  ghost predicate SomeClaim(rows: set<Row>) {
    exists z :: z in rows && z.attempt != ""
  }

  /** A job without a claim that may show a signature before it gets one gets only signed rows. */
  ghost predicate EarlySignature(start: Row, rows: set<Row>) {
    start.attempt == "" && SignedClaimless(rows) && SomeClaim(rows) ==> AllSigned(rows)
  }

  ghost predicate TrustedInOrder(start: Row, rows: set<Row>) {
    LaterAreSigned(start, rows) && EarlySignature(start, rows)
  }

  // -------------------------------------------------------------------- invariant

  /** No claim can come any more. */
  ghost predicate NoMore(rows: set<Row>, c: Clock) {
    c.gone && forall z :: z in rows && z.attempt != "" ==> z.fence <= c.top
  }

  /** A claim has been seen. */
  ghost predicate ClaimSeen(start: Row, rows: set<Row>, c: Clock) {
    exists x :: From(start, rows, x) && x.attempt != "" && start.fence <= x.fence <= c.top
  }

  ghost predicate Lapsed(rows: set<Row>, c: Clock, s: State) {
    NoMore(rows, c) && (s.job.Some? ==> s.job.value.row.attempt == "")
  }

  /** A flag once seen is kept, unless nothing will be published. */
  ghost predicate Kept(rows: set<Row>, c: Clock, s: State, job: Job) {
    Sealed(s) && job.staged.Some? && !job.row.signed ==> job.row.attempt == "" && NoMore(rows, c)
  }

  ghost predicate Traced(start: Row, rows: set<Row>, row: Row) {
    exists x :: From(start, rows, x) && x.attempt == row.attempt && x.fence == row.fence
  }

  /** The job in memory shows the last claim, or none when that has lapsed. */
  ghost predicate Live(start: Row, rows: set<Row>, c: Clock, s: State) {
    && c.top >= start.fence
    && (s.job.Some? ==>
          var row := s.job.value.row;
          && (row.attempt != "" ==> row.fence == c.top && !c.gone && Traced(start, rows, row))
          && (row.attempt == "" ==> c.gone)
          && (row.attempt == "" && row.signed && !s.adopted ==> SignedClaimless(rows)))
  }

  /** Where a signature that was seen can have come from. */
  ghost predicate Explained(start: Row, rows: set<Row>, c: Clock, s: State) {
    Sealed(s) ==> ClaimSeen(start, rows, c) || SignedClaimless(rows)
  }

  ghost predicate Flags(start: Row, rows: set<Row>, c: Clock, s: State) {
    match PhaseOf(s.point)
    case Early => true
    case Probing => true
    case Signing =>
      && (Unsigned(s) || (!s.point.Sign? && Lapsed(rows, c, s)))
      && (s.point.Sign? ==> ClaimSeen(start, rows, c))
    case Resigned => Unsigned(s)
    case Publishing => Unsigned(s) && (LastSigned(s) || (!s.point.Promote? && Lapsed(rows, c, s)))
    case Done => Unsigned(s) && LastSigned(s)
    case Failed => true
  }

  ghost predicate HeldKept(rows: set<Row>, c: Clock, s: State) {
    match s.held
    case Nothing => true
    case Update(before, after) => Sealed(s) && before.staged.Some? ==> before.row.signed
    case Probe(generation, flag) =>
      && (s.point.Negative? ==> Unsigned(s) || Lapsed(rows, c, s))
      && (s.point.Check2? ==> flag || Lapsed(rows, c, s))
  }

  ghost predicate JobKept(rows: set<Row>, c: Clock, s: State) {
    s.job.Some? ==> Kept(rows, c, s, s.job.value)
  }

  ghost predicate Orderly(start: Row, rows: set<Row>, c: Clock, s: State) {
    && Base(SIGNING, s) && Flags(start, rows, c, s) && JobKept(rows, c, s) && HeldKept(rows, c, s)
    && Live(start, rows, c, s) && Explained(start, rows, c, s)
  }

  // ------------------------------------------------------------------------- ticks

  /** A claim that is seen stays seen. */
  lemma SeenStays(start: Row, rows: set<Row>, c: Clock, row: Row)
    requires ClaimSeen(start, rows, c) && Admissible(c, row)
    ensures ClaimSeen(start, rows, Ticked(c, row))
  {
    var x :| From(start, rows, x) && x.attempt != "" && start.fence <= x.fence <= c.top;
    assert x.fence <= Ticked(c, row).top;
  }

  lemma LapsedStays(rows: set<Row>, c: Clock, s: State, row: Row)
    requires Lapsed(rows, c, s) && Admissible(c, row) && row in rows
    ensures Lapsed(rows, Ticked(c, row), Step(SIGNING, s, Tick(Some(row))))
  {
  }

  /** An unsigned row that replaces a seen signature: after a claim. */
  lemma LostAfterClaim(start: Row, rows: set<Row>, c: Clock, local: Row, row: Row)
    requires Coherent(start, rows) && LaterAreSigned(start, rows) && ClaimSeen(start, rows, c)
    requires row in rows && Admissible(c, row) && !row.signed && local.signed
    requires local.attempt != "" ==> local.fence == c.top && Traced(start, rows, local)
    requires local.attempt == "" ==> c.gone
    requires local.attempt == "" || local.attempt != row.attempt
    ensures row.attempt == "" && NoMore(rows, Ticked(c, row))
  {
    var x :| From(start, rows, x) && x.attempt != "" && start.fence <= x.fence <= c.top;
    assert From(start, rows, row);
    assert row.fence <= x.fence;
    assert row.attempt == "";
    forall z | z in rows && z.attempt != "" ensures z.fence <= c.top {
      assert z.fence <= x.fence || ClaimlessAreSigned(rows);
    }
  }

  /** The same before any claim: then none can come. */
  lemma LostBeforeClaim(start: Row, rows: set<Row>, c: Clock, row: Row)
    requires EarlySignature(start, rows) && SignedClaimless(rows) && !ClaimSeen(start, rows, c)
    requires c.top >= start.fence && row in rows && !row.signed
    ensures row.attempt == "" && NoMore(rows, Ticked(c, row))
  {
    assert start.attempt == "" by {
      if start.attempt != "" {
        assert From(start, rows, start);
      }
    }
    assert !SomeClaim(rows);
  }

  lemma TickKeepsJob(start: Row, rows: set<Row>, c: Clock, s: State, row: Row)
    requires Coherent(start, rows) && TrustedInOrder(start, rows) && row in rows && Admissible(c, row)
    requires JobKept(rows, c, s) && Live(start, rows, c, s) && Explained(start, rows, c, s)
    ensures JobKept(rows, Ticked(c, row), Step(SIGNING, s, Tick(Some(row))))
  {
    var t := Step(SIGNING, s, Tick(Some(row)));
    if Sealed(s) && s.job.Some? && s.job.value.staged.Some? && !t.job.value.row.signed {
      var local := s.job.value.row;
      if local.signed {
        if ClaimSeen(start, rows, c) {
          LostAfterClaim(start, rows, c, local, row);
        } else {
          LostBeforeClaim(start, rows, c, row);
        }
      } else {
        assert row.attempt == "";
      }
    }
  }

  lemma TickKeepsLive(start: Row, rows: set<Row>, c: Clock, s: State, row: Row)
    requires row in rows && Admissible(c, row) && Live(start, rows, c, s)
    ensures Live(start, rows, Ticked(c, row), Step(SIGNING, s, Tick(Some(row))))
  {
    var t := Step(SIGNING, s, Tick(Some(row)));
    assert t.job.value.row.attempt == row.attempt && t.job.value.row.fence == row.fence;
    assert From(start, rows, row);
  }

  lemma TickKeepsFlags(start: Row, rows: set<Row>, c: Clock, s: State, row: Row)
    requires row in rows && Admissible(c, row) && Flags(start, rows, c, s) && HeldKept(rows, c, s)
    ensures var t := Step(SIGNING, s, Tick(Some(row)));
            Flags(start, rows, Ticked(c, row), t) && HeldKept(rows, Ticked(c, row), t)
  {
    if Lapsed(rows, c, s) {
      LapsedStays(rows, c, s, row);
    }
    if ClaimSeen(start, rows, c) {
      SeenStays(start, rows, c, row);
    }
  }

  lemma TickKeeps(start: Row, rows: set<Row>, c: Clock, s: State, row: Row)
    requires Coherent(start, rows) && TrustedInOrder(start, rows) && row in rows && Admissible(c, row)
    requires Orderly(start, rows, c, s)
    ensures Orderly(start, rows, Ticked(c, row), Step(SIGNING, s, Tick(Some(row))))
  {
    TickBase(SIGNING, s, Some(row));
    TickKeepsJob(start, rows, c, s, row);
    TickKeepsLive(start, rows, c, s, row);
    TickKeepsFlags(start, rows, c, s, row);
    if ClaimSeen(start, rows, c) {
      SeenStays(start, rows, c, row);
    }
  }

  lemma RemovalKeeps(start: Row, rows: set<Row>, c: Clock, s: State)
    requires Orderly(start, rows, c, s)
    ensures Orderly(start, rows, c, Step(SIGNING, s, Tick(None)))
  {
    TickBase(SIGNING, s, None);
  }

  // ------------------------------------------------------------------ the pipeline

  lemma WriteBackKeeps(start: Row, rows: set<Row>, c: Clock, s: State, ok: bool)
    requires Orderly(start, rows, c, s) && UpdatePoint(s.point) && s.held.Update?
    ensures Orderly(start, rows, c, UpdateStep(SIGNING, s, ok))
  {
    UpdateBase(SIGNING, s, ok);
  }

  lemma CopyKeeps(start: Row, rows: set<Row>, c: Clock, s: State, ok: bool)
    requires Orderly(start, rows, c, s) && UpdatePoint(s.point) && !s.held.Update?
    ensures Orderly(start, rows, c, UpdateStep(SIGNING, s, ok))
  {
    UpdateBase(SIGNING, s, ok);
  }

  /** A signed row before adoption has a claim or came without one. */
  lemma SignedIsExplained(start: Row, rows: set<Row>, c: Clock, s: State)
    requires Live(start, rows, c, s) && s.job.Some? && s.job.value.row.signed && !s.adopted
    ensures ClaimSeen(start, rows, c) || SignedClaimless(rows)
  {
    ClaimIsSeen(start, rows, c, s);
  }

  lemma ClaimIsSeen(start: Row, rows: set<Row>, c: Clock, s: State)
    requires Live(start, rows, c, s) && s.job.Some?
    ensures s.job.value.row.attempt != "" ==> ClaimSeen(start, rows, c)
  {
    var row := s.job.value.row;
    if row.attempt != "" {
      var x :| From(start, rows, x) && x.attempt == row.attempt && x.fence == row.fence;
      assert start.fence <= x.fence <= c.top;
    }
  }

  lemma ProbeKeeps(start: Row, rows: set<Row>, c: Clock, s: State, ok: bool)
    requires Orderly(start, rows, c, s) && (s.point.Check1? || s.point.Check2?) && !s.held.Probe?
    ensures Orderly(start, rows, c, CheckStep(SIGNING, s, ok))
  {
    CheckBase(SIGNING, s, ok);
    if s.job.Some? && s.job.value.row.signed && !s.adopted {
      SignedIsExplained(start, rows, c, s);
    }
  }

  lemma AnswerKeeps(start: Row, rows: set<Row>, c: Clock, s: State, ok: bool)
    requires Orderly(start, rows, c, s) && (s.point.Check1? || s.point.Check2?) && s.held.Probe?
    ensures Orderly(start, rows, c, CheckStep(SIGNING, s, ok))
  {
    CheckBase(SIGNING, s, ok);
  }

  lemma NegativeKeeps(start: Row, rows: set<Row>, c: Clock, s: State, refused: bool)
    requires Orderly(start, rows, c, s) && s.point.Negative?
    ensures Orderly(start, rows, c, NegativeStep(SIGNING, s, refused))
  {
    OtherBase(SIGNING, s, Outcome(refused, s.current, ""));
  }

  lemma FenceKeeps(start: Row, rows: set<Row>, c: Clock, s: State, ok: bool)
    requires Orderly(start, rows, c, s) && (s.point.SignFence? || s.point.PublishFence?)
    ensures Orderly(start, rows, c, FenceStep(SIGNING, s, ok))
  {
    OtherBase(SIGNING, s, Outcome(ok, s.current, ""));
    if s.job.Some? {
      ClaimIsSeen(start, rows, c, s);
    }
  }

  lemma SignKeeps(start: Row, rows: set<Row>, c: Clock, s: State, o: Outcome)
    requires Orderly(start, rows, c, s) && s.point.Sign?
    ensures Orderly(start, rows, c, SignStep(SIGNING, s, o))
  {
    OtherBase(SIGNING, s, o);
  }

  lemma PromoteKeeps(start: Row, rows: set<Row>, c: Clock, s: State, ok: bool)
    requires Orderly(start, rows, c, s) && s.point.Promote?
    ensures Orderly(start, rows, c, PromoteStep(SIGNING, s, ok))
  {
    PromoteBase(SIGNING, s, ok);
  }

  lemma StillKeeps(start: Row, rows: set<Row>, c: Clock, s: State, o: Outcome)
    requires Orderly(start, rows, c, s)
    requires s.point.Prepare1? || s.point.Prepare2? || s.point.Finished? || s.point.Broken?
    ensures Orderly(start, rows, c, AdvanceStep(SIGNING, s, o))
  {
    OtherBase(SIGNING, s, o);
  }

  lemma AdvanceKeeps(start: Row, rows: set<Row>, c: Clock, s: State, o: Outcome)
    requires Orderly(start, rows, c, s)
    ensures Orderly(start, rows, c, AdvanceStep(SIGNING, s, o))
  {
    match s.point
    case Negative => NegativeKeeps(start, rows, c, s, o.ok);
    case SignFence => FenceKeeps(start, rows, c, s, o.ok);
    case PublishFence => FenceKeeps(start, rows, c, s, o.ok);
    case Sign => SignKeeps(start, rows, c, s, o);
    case Promote => PromoteKeeps(start, rows, c, s, o.ok);
    case _ =>
      if UpdatePoint(s.point) {
        if s.held.Update? {
          WriteBackKeeps(start, rows, c, s, o.ok);
        } else {
          CopyKeeps(start, rows, c, s, o.ok);
        }
      } else if s.point.Check1? || s.point.Check2? {
        if s.held.Probe? {
          AnswerKeeps(start, rows, c, s, o.ok);
        } else {
          ProbeKeeps(start, rows, c, s, o.ok);
        }
      } else {
        StillKeeps(start, rows, c, s, o);
      }
  }

  lemma StartIsOrderly(job: Job, rows: set<Row>)
    requires job.staged.Some? && !job.row.signed
    ensures Orderly(job.row, rows, ClockOf(job.row, []), Start(job))
  {
    assert From(job.row, rows, job.row);
  }

  ghost predicate RowsIn(moves: seq<Move>, rows: set<Row>) {
    forall r :: r in Rows(moves) ==> r in rows
  }

  lemma RowsNext(moves: seq<Move>, n: nat)
    requires |moves| == n + 1
    ensures Rows(moves) == if moves[n].Tick? && moves[n].row.Some? then Rows(moves[..n]) + [moves[n].row.value]
                           else Rows(moves[..n])
  {
  }

  lemma OrderNext(start: Row, list: seq<Row>, row: Row)
    ensures InOrder(start, list + [row]) == (InOrder(start, list) && Admissible(ClockOf(start, list), row))
    ensures ClockOf(start, list + [row]) == Ticked(ClockOf(start, list), row)
  {
    assert (list + [row])[..|list|] == list;
  }

  lemma {:induction false} RunKeepsOrder(job: Job, rows: set<Row>, moves: seq<Move>)
    requires job.staged.Some? && !job.row.signed && Coherent(job.row, rows) && TrustedInOrder(job.row, rows)
    requires RowsIn(moves, rows) && InOrder(job.row, Rows(moves))
    ensures Orderly(job.row, rows, ClockOf(job.row, Rows(moves)), Run(SIGNING, job, moves))
  {
    if |moves| == 0 {
      StartIsOrderly(job, rows);
    } else {
      var n := |moves| - 1;
      RowsNext(moves, n);
      if moves[n].Tick? && moves[n].row.Some? {
        OrderNext(job.row, Rows(moves[..n]), moves[n].row.value);
        assert moves[n].row.value in Rows(moves);
      }
      RunKeepsOrder(job, rows, moves[..n]);
      var c, s := ClockOf(job.row, Rows(moves[..n])), Run(SIGNING, job, moves[..n]);
      match moves[n]
      case Tick(None) => RemovalKeeps(job.row, rows, c, s);
      case Tick(Some(row)) => TickKeeps(job.row, rows, c, s, row);
      case Advance(o) => AdvanceKeeps(job.row, rows, c, s, o);
    }
  }

  /** With trusted rows in order, every promotion had its first check without and its last check with a signature. */
  lemma OrderedRunsAreGuarded(job: Job, rows: set<Row>, moves: seq<Move>)
    requires job.staged.Some? && !job.row.signed && Coherent(job.row, rows) && TrustedInOrder(job.row, rows)
    requires RowsIn(moves, rows) && InOrder(job.row, Rows(moves))
    ensures Guarded(Run(SIGNING, job, moves).log)
  {
    RunKeepsOrder(job, rows, moves);
    var s := Run(SIGNING, job, moves);
    forall k | 0 <= k < |s.log| && s.log[k].Promoted?
      ensures Verified(s.log[..k], s.log[k].generation)
    {
      PromotionIsLast(SIGNING, s, k);
      assert s.log[..k][0] == s.log[0] && s.log[..k][2] == s.log[2];
    }
  }

  // ---------------------------------------------------- ordered runs that lose it

  /** A run from s to t that delivers exactly the given rows. */
  ghost predicate Leads(s: State, moves: seq<Move>, list: seq<Row>, t: State) {
    Follow(s, moves) == t && Rows(moves) == list
  }

  lemma {:induction false} RowsConcat(a: seq<Move>, b: seq<Move>)
    ensures Rows(a + b) == Rows(a) + Rows(b)
    decreases |b|
  {
    if |b| == 0 {
      assert a + b == a;
    } else {
      var n := |b| - 1;
      assert (a + b)[..|a + b| - 1] == a + b[..n];
      RowsConcat(a, b[..n]);
      RowsNext(b, n);
      RowsNext(a + b, |a| + n);
    }
  }

  lemma {:induction false} RowsDelivered(moves: seq<Move>)
    ensures forall r :: r in Rows(moves) <==> r in Delivered(moves)
  {
    if |moves| > 0 {
      var n := |moves| - 1;
      RowsDelivered(moves[..n]);
      assert moves == moves[..n] + [moves[n]];
      DeliveredConcat(moves[..n], [moves[n]]);
    }
  }

  /** A stretch without ticks. */
  lemma Quietly(s: State, moves: seq<Move>, t: State)
    requires Reaches(s, moves, {}, t)
    ensures Leads(s, moves, [], t)
  {
    RowsDelivered(moves);
    assert |Rows(moves)| > 0 ==> Rows(moves)[0] in Rows(moves);
  }

  lemma Onward(s: State, a: seq<Move>, x: seq<Row>, t: State, b: seq<Move>, y: seq<Row>, u: State)
    requires Leads(s, a, x, t) && Leads(t, b, y, u)
    ensures Leads(s, a + b, x + y, u)
  {
    FollowConcat(s, a, b);
    RowsConcat(a, b);
  }

  lemma OneTick(s: State, row: Row) returns (t: State)
    requires s.job.Some?
    ensures Leads(s, [Tick(Some(row))], [row], t)
    ensures t == s.(job := Some(Projected(row, s.job))) && t.job.value.row.attempt == row.attempt
    ensures s.job.value.row.attempt != row.attempt || s.job.value.row.attempt == "" ==> t.job.value.row == row
    ensures Issued(row) ==> Issued(t.job.value.row)
  {
    One(s, Tick(Some(row)), {row});
    assert [Tick(Some(row))][..0] == [];
    assert Rows([]) == [];
    t := Step(SIGNING, s, Tick(Some(row)));
  }

  /** From the start to the signer's fence, and past it under a claim that may be delivered there. */
  lemma ReachSigned(job: Job, pre: seq<Row>) returns (moves: seq<Move>, t: State)
    requires job.staged.Some? && !job.row.signed && |pre| <= 1
    requires if pre == [] then Issued(job.row) && job.row.attempt != "" else Issued(pre[0]) && pre[0].attempt != ""
    ensures Leads(Start(job), moves, pre, t)
    ensures t.point.Check2? && t.held.Nothing? && t.job.Some? && t.job.value.staged.Some?
    ensures t.job.value.row.attempt == if pre == [] then job.row.attempt else pre[0].attempt
    ensures t.log == [Checked(job.staged.value, false), Refused(job.staged.value)]
  {
    var s := Start(job);
    var a, s1 := ReachFence(job, {});
    Quietly(s, a, s1);
    if pre == [] {
      var b, s2 := PassSigner(s1, {});
      Quietly(s1, b, s2);
      Onward(s, a, [], s1, b, [], s2);
      moves, t := a + b, s2;
    } else {
      var s2 := OneTick(s1, pre[0]);
      Onward(s, a, [], s1, [Tick(Some(pre[0]))], [pre[0]], s2);
      var b, s3 := PassSigner(s2, {});
      Quietly(s2, b, s3);
      Onward(s, a + [Tick(Some(pre[0]))], [] + [pre[0]], s2, b, [], s3);
      assert [] + [pre[0]] + [] == pre;
      moves, t := a + [Tick(Some(pre[0]))] + b, s3;
    }
  }

  /** From the second check, an unsigned row of another attempt, and after it a claim, lead to a promotion. */
  lemma LosesAfterwards(s: State, r: Row, post: seq<Row>) returns (moves: seq<Move>, t: State)
    requires s.point.Check2? && s.held.Nothing? && s.job.Some? && s.job.value.staged.Some? && |s.log| == 2
             && |post| <= 1
    requires !r.signed && r.attempt != s.job.value.row.attempt
    requires if post == [] then Issued(r) && r.attempt != "" else Issued(post[0]) && post[0].attempt != ""
    ensures Leads(s, moves, [r] + post, t) && !Guarded(t.log)
  {
    var s1 := OneTick(s, r);
    var b, s2 := PassUnsigned(s1, {});
    Quietly(s1, b, s2);
    Onward(s, [Tick(Some(r))], [r], s1, b, [], s2);
    if post == [] {
      var d, s3 := PassPromotion(s2, {});
      Quietly(s2, d, s3);
      Onward(s, [Tick(Some(r))] + b, [r] + [], s2, d, [], s3);
      assert [r] + [] + [] == [r] + post;
      LostLog(s3.log, s2.job.value.staged.value);
      moves, t := [Tick(Some(r))] + b + d, s3;
    } else {
      var s3 := OneTick(s2, post[0]);
      Onward(s, [Tick(Some(r))] + b, [r] + [], s2, [Tick(Some(post[0]))], [post[0]], s3);
      var d, s4 := PassPromotion(s3, {});
      Quietly(s3, d, s4);
      Onward(s, [Tick(Some(r))] + b + [Tick(Some(post[0]))], [r] + [] + [post[0]], s3, d, [], s4);
      assert [r] + [] + [post[0]] + [] == [r] + post;
      LostLog(s4.log, s3.job.value.staged.value);
      moves, t := [Tick(Some(r))] + b + [Tick(Some(post[0]))] + d, s4;
    }
  }

  lemma LostFirst(log: seq<Entry>)
    requires |log| == 4 && log[3].Promoted? && log[0].Checked? && log[0].signature
    ensures !Guarded(log)
  {
    assert log[..3][0] == log[0];
  }

  /** A job without a claim, a signed row for the first check, and an unsigned one for the refusal. */
  lemma ReachEarly(job: Job, u: Row, v: Row) returns (moves: seq<Move>, t: State)
    requires job.staged.Some? && job.row.attempt == "" && u.attempt == "" && u.signed && !v.signed
    ensures Leads(Start(job), moves, [u, v], t)
    ensures t.point.SignFence? && t.held.Nothing? && t.job.Some? && t.job.value.row == v.(status := "signing")
    ensures |t.log| == 2 && t.log[0].Checked? && t.log[0].signature && t.job.value.staged.Some?
  {
    var s, a0 := Start(job), [Go(job.staged.value, "")];
    var s1 := Step(SIGNING, s, a0[0]);
    One(s, a0[0], {});
    Quietly(s, a0, s1);
    var a1, s2 := PassUpdate(s1, {});
    Quietly(s1, a1, s2);
    Onward(s, a0, [], s1, a1, [], s2);
    var s3 := OneTick(s2, u);
    Onward(s, a0 + a1, [] + [], s2, [Tick(Some(u))], [u], s3);
    var a3, s4 := PassCheck(s3, {});
    Quietly(s3, a3, s4);
    Onward(s, a0 + a1 + [Tick(Some(u))], [] + [] + [u], s3, a3, [], s4);
    var b, t0 := RefuseEarly(s4, v);
    Onward(s, a0 + a1 + [Tick(Some(u))] + a3, [] + [] + [u] + [], s4, b, [v], t0);
    assert [] + [] + [u] + [] + [v] == [u, v];
    moves, t := a0 + a1 + [Tick(Some(u))] + a3 + b, t0;
  }

  lemma RefuseEarly(s: State, v: Row) returns (moves: seq<Move>, t: State)
    requires s.point.Negative? && s.held.Nothing? && s.job.Some? && s.job.value.staged.Some?
             && s.job.value.row.attempt == ""
    requires !v.signed && |s.log| == 1
    ensures Leads(s, moves, [v], t)
    ensures t.point.SignFence? && t.held.Nothing? && t.job.Some? && t.job.value.row == v.(status := "signing")
    ensures |t.log| == 2 && t.log[0] == s.log[0] && t.job.value.staged.Some?
  {
    var s1 := OneTick(s, v);
    var a, s2 := PassNegative(s1, {});
    Quietly(s1, a, s2);
    Onward(s, [Tick(Some(v))], [v], s1, a, [], s2);
    var b, s3 := PassUpdate(s2, {});
    Quietly(s2, b, s3);
    Onward(s, [Tick(Some(v))] + a, [v] + [], s2, b, [], s3);
    assert [v] + [] + [] == [v];
    moves, t := [Tick(Some(v))] + a + b, s3;
  }

  /** From the signer's fence under a claim to the promotion. */
  lemma PublishesOn(s: State) returns (moves: seq<Move>, t: State)
    requires s.point.SignFence? && s.held.Nothing? && s.job.Some? && Issued(s.job.value.row)
             && s.job.value.row.attempt != ""
    requires |s.log| == 2
    ensures Leads(s, moves, [], t) && |t.log| == 4 && t.log[0] == s.log[0] && t.log[3].Promoted?
  {
    var a, s1 := PassSigner(s, {});
    Quietly(s, a, s1);
    var b, s2 := PassCheck(s1, {});
    Quietly(s1, b, s2);
    Onward(s, a, [], s1, b, [], s2);
    var d, s3 := PassUpdate(s2, {});
    Quietly(s2, d, s3);
    Onward(s, a + b, [] + [], s2, d, [], s3);
    var e, s4 := PassPromotion(s3, {});
    Quietly(s3, e, s4);
    Onward(s, a + b + d, [] + [] + [], s3, e, [], s4);
    moves, t := a + b + d + e, s4;
  }

  lemma EarlyLoses(job: Job, u: Row, v: Row, z: Row) returns (moves: seq<Move>, list: seq<Row>)
    requires job.staged.Some? && !job.row.signed && job.row.attempt == "" && u.attempt == "" && u.signed && !v.signed
    requires Issued(v) && Issued(z) && z.attempt != ""
    ensures list == (if v.attempt != "" then [u, v] else [u, v, z]) && Rows(moves) == list
    ensures !Guarded(Run(SIGNING, job, moves).log)
  {
    var s := Start(job);
    var a, s1 := ReachEarly(job, u, v);
    if v.attempt != "" {
      var b, s2 := PublishesOn(s1);
      Onward(s, a, [u, v], s1, b, [], s2);
      moves, list := a + b, [u, v] + [];
      LostFirst(s2.log);
    } else {
      var s2 := OneTick(s1, z);
      Onward(s, a, [u, v], s1, [Tick(Some(z))], [z], s2);
      var b, s3 := PublishesOn(s2);
      Onward(s, a + [Tick(Some(z))], [u, v] + [z], s2, b, [], s3);
      moves, list := a + [Tick(Some(z))] + b, [u, v] + [z] + [];
      LostFirst(s3.log);
    }
    RunFollows(job, moves);
  }

  // ------------------------------------------------------------ the exact condition

  lemma OrderOfThree(start: Row, a: Row, b: Row, d: Row)
    ensures InOrder(start, [a]) == Admissible(ClockOf(start, []), a)
    ensures InOrder(start, [a, b]) == (InOrder(start, [a]) && Admissible(Ticked(ClockOf(start, []), a), b))
    ensures InOrder(start, [a, b, d])
         == (InOrder(start, [a, b]) && Admissible(Ticked(Ticked(ClockOf(start, []), a), b), d))
  {
    OrderNext(start, [], a);
    OrderNext(start, [a], b);
    OrderNext(start, [a, b], d);
    assert [] + [a] == [a] && [a] + [b] == [a, b] && [a, b] + [d] == [a, b, d];
  }

  /** A run of ordered rows that promotes without the signature checks. */
  ghost predicate Loses(job: Job, rows: set<Row>, moves: seq<Move>)
    requires job.staged.Some?
  {
    RowsIn(moves, rows) && InOrder(job.row, Rows(moves)) && !Guarded(Run(SIGNING, job, moves).log)
  }

  lemma LeadsToLoss(job: Job, rows: set<Row>, moves: seq<Move>, list: seq<Row>, t: State)
    requires job.staged.Some? && Leads(Start(job), moves, list, t) && !Guarded(t.log)
    requires InOrder(job.row, list) && forall r :: r in list ==> r in rows
    ensures Loses(job, rows, moves)
  {
    RunFollows(job, moves);
  }

  /** The row that loses the signature: the later claim itself, or a row without a claim and then the later claim. */
  ghost predicate LostBy(rows: set<Row>, r: Row, lost: Row, post: seq<Row>) {
    && lost in rows && !lost.signed
    && ((lost == r && post == []) || (lost.attempt == "" && post == [r]))
  }

  lemma PickLost(rows: set<Row>, r: Row) returns (lost: Row, post: seq<Row>)
    requires r in rows && (!r.signed || !ClaimlessAreSigned(rows))
    ensures LostBy(rows, r, lost, post)
  {
    if !r.signed {
      lost, post := r, [];
    } else {
      var c :| c in rows && c.attempt == "" && !c.signed;
      lost, post := c, [r];
    }
  }

  lemma LaterLoses(job: Job, rows: set<Row>, x: Row, r: Row) returns (moves: seq<Move>)
    requires job.staged.Some? && !job.row.signed && Coherent(job.row, rows)
    requires From(job.row, rows, x) && r in rows && x.attempt != "" && job.row.fence <= x.fence < r.fence
    requires !r.signed || !ClaimlessAreSigned(rows)
    ensures Loses(job, rows, moves)
  {
    assert From(job.row, rows, job.row) && From(job.row, rows, r);
    var lost, post := PickLost(rows, r);
    if job.row.attempt != "" && x.fence == job.row.fence {
      moves := LosesAtOnce(job, rows, r, lost, post);
    } else {
      moves := LosesUnder(job, rows, x, r, lost, post);
    }
  }

  /** The job signs under its own claim. */
  lemma LosesAtOnce(job: Job, rows: set<Row>, r: Row, lost: Row, post: seq<Row>) returns (moves: seq<Move>)
    requires job.staged.Some? && !job.row.signed && Issued(job.row) && job.row.attempt != ""
    requires r in rows && Issued(r) && job.row.fence < r.fence && r.attempt != job.row.attempt
             && LostBy(rows, r, lost, post)
    ensures Loses(job, rows, moves)
  {
    var a, s1 := ReachSigned(job, []);
    var b, s2 := LosesAfterwards(s1, lost, post);
    Onward(Start(job), a, [], s1, b, [lost] + post, s2);
    moves := a + b;
    OrderOfThree(job.row, lost, r, r);
    assert [] + ([lost] + post) == if post == [] then [lost] else [lost, r];
    LeadsToLoss(job, rows, moves, [] + ([lost] + post), s2);
  }

  /** The job signs under a claim that is delivered to it. */
  lemma LosesUnder(job: Job, rows: set<Row>, x: Row, r: Row, lost: Row, post: seq<Row>) returns (moves: seq<Move>)
    requires job.staged.Some? && !job.row.signed && Issued(job.row) && x in rows && Issued(x) && x.attempt != ""
    requires job.row.fence < x.fence < r.fence && r in rows && Issued(r) && r.attempt != x.attempt
    requires LostBy(rows, r, lost, post)
    ensures Loses(job, rows, moves)
  {
    var a, s1 := ReachSigned(job, [x]);
    var b, s2 := LosesAfterwards(s1, lost, post);
    Onward(Start(job), a, [x], s1, b, [lost] + post, s2);
    moves := a + b;
    OrderOfThree(job.row, x, lost, r);
    assert [x] + ([lost] + post) == if post == [] then [x, lost] else [x, lost, r];
    LeadsToLoss(job, rows, moves, [x] + ([lost] + post), s2);
  }

  lemma EarlyLosesInOrder(job: Job, rows: set<Row>, u: Row, v: Row, z: Row) returns (moves: seq<Move>)
    requires job.staged.Some? && !job.row.signed && Issued(job.row) && job.row.attempt == ""
    requires u in rows && u.attempt == "" && u.signed && v in rows && !v.signed && z in rows && z.attempt != ""
    requires Issued(v) && Issued(z)
    ensures Loses(job, rows, moves)
  {
    var list;
    moves, list := EarlyLoses(job, u, v, z);
    OrderOfThree(job.row, u, v, z);
  }

  lemma UntrustedLosesInOrder(job: Job, rows: set<Row>) returns (moves: seq<Move>)
    requires job.staged.Some? && !job.row.signed && Coherent(job.row, rows) && !TrustedInOrder(job.row, rows)
    ensures Loses(job, rows, moves)
  {
    if !LaterAreSigned(job.row, rows) {
      var x, r :| From(job.row, rows, x) && r in rows && x.attempt != "" && job.row.fence <= x.fence < r.fence
                  && !(r.signed && ClaimlessAreSigned(rows));
      moves := LaterLoses(job, rows, x, r);
    } else {
      var u :| u in rows && u.attempt == "" && u.signed;
      var z :| z in rows && z.attempt != "";
      var v :| v in rows && !v.signed;
      assert From(job.row, rows, v) && From(job.row, rows, z) && From(job.row, rows, job.row);
      moves := EarlyLosesInOrder(job, rows, u, v, z);
    }
  }

  ghost predicate AlwaysGuarded(job: Job, rows: set<Row>)
    requires job.staged.Some?
  {
    forall moves :: RowsIn(moves, rows) && InOrder(job.row, Rows(moves)) ==> Guarded(Run(SIGNING, job, moves).log)
  }

  /** The signing promise holds on every run over a set of rows that arrive in fence order exactly when that set is
      trusted: whatever can follow a claim is signed, and a job without a claim sees no signature before it gets one
      unless all its rows are signed. */
  lemma SigningHoldsInOrder(job: Job, rows: set<Row>)
    requires job.staged.Some? && !job.row.signed && Coherent(job.row, rows)
    ensures AlwaysGuarded(job, rows) <==> TrustedInOrder(job.row, rows)
  {
    if TrustedInOrder(job.row, rows) {
      forall moves | RowsIn(moves, rows) && InOrder(job.row, Rows(moves))
        ensures Guarded(Run(SIGNING, job, moves).log)
      {
        OrderedRunsAreGuarded(job, rows, moves);
      }
    } else {
      var moves := UntrustedLosesInOrder(job, rows);
    }
  }
}
