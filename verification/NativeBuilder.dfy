/** The single-use native builder (internal/builder/local.go): several processes sharing one data directory,
    with failing system calls, crashes, restarts, power loss and redelivered commands. */
module NativeBuilder {
  import opened Text

  // ------------------------------------------------------------------ requests

  /** A list that may be nil; the JSON encoding leaves an empty one out. */
  type Omittable<T> = Option<seq<T>>

  datatype Spec = Spec(atom: string, version: string, useFlags: Omittable<string>, keywords: Omittable<string>)

  /** The package list of a bundle is always written, nil or empty; the lists of its metadata are not. */
  datatype Bundle = Bundle(
    packages: Option<seq<Spec>>, parents: Omittable<string>, features: Omittable<string>, settings: string)

  datatype Request = Request(
    executionId: string, package: string, version: string, useFlags: map<string, string>,
    repositories: Omittable<string>, specs: Omittable<Spec>, bundle: Option<Bundle>)

  datatype Status = Queued | Building | Success | Failed

  /** A recorded job: the request as it was submitted, the request object the build works on, and whether that has
      been through the job file. */
  datatype Job = Job(submitted: Request, request: Request, status: Status, executed: bool, reloaded: bool)

  /** A configuration bundle without packages is completed in place when the build starts. */
  predicate Fillable(r: Request) {
    r.bundle.Some? && (r.bundle.value.packages.None? || r.bundle.value.packages.value == [])
  }

  /** The flags come from a map, so their order is whatever the iteration gives; without flags the list stays nil. */
  function Filled(r: Request, flags: seq<string>): Request {
    if Fillable(r) then
      var spec := Spec(r.package, r.version, if flags == [] then None else Some(flags), None);
      r.(bundle := Some(r.bundle.value.(packages := Some([spec]))))
    else r
  }

  // ------------------------------------------------------- through the job file

  function Kept<T>(list: Omittable<T>): Omittable<T> {
    if list == Some([]) then None else list
  }

  function ReloadSpec(spec: Spec): Spec {
    spec.(useFlags := Kept(spec.useFlags), keywords := Kept(spec.keywords))
  }

  function ReloadSpecs(specs: seq<Spec>): (r: seq<Spec>)
    ensures |r| == |specs| && forall k :: 0 <= k < |r| ==> r[k] == ReloadSpec(specs[k])
  {
    seq(|specs|, k requires 0 <= k < |specs| => ReloadSpec(specs[k]))
  }

  function ReloadList(specs: Option<seq<Spec>>): Option<seq<Spec>> {
    if specs.None? then None else Some(ReloadSpecs(specs.value))
  }

  function ReloadBundle(b: Bundle): Bundle {
    b.(packages := ReloadList(b.packages), parents := Kept(b.parents), features := Kept(b.features))
  }

  /** Writing a request to the job file and reading it back turns empty omittable lists into nil. */
  function Reload(r: Request): Request {
    r.(repositories := Kept(r.repositories), specs := Kept(ReloadList(r.specs)),
       bundle := if r.bundle.None? then None else Some(ReloadBundle(r.bundle.value)))
  }

  predicate SpecOmits(spec: Spec) {
    spec.useFlags == Some([]) || spec.keywords == Some([])
  }

  predicate SpecsOmit(specs: Option<seq<Spec>>) {
    specs.Some? && exists k :: 0 <= k < |specs.value| && SpecOmits(specs.value[k])
  }

  /** Somewhere in the request an omittable list is present and empty. */
  predicate Omits(r: Request) {
    || r.repositories == Some([]) || r.specs == Some([]) || SpecsOmit(r.specs)
    || (r.bundle.Some? && (r.bundle.value.parents == Some([]) || r.bundle.value.features == Some([])
                           || SpecsOmit(r.bundle.value.packages)))
  }

  lemma ReloadListStays(specs: Option<seq<Spec>>)
    ensures ReloadList(specs) == specs <==> !SpecsOmit(specs)
  {
    if specs.Some? {
      var r := ReloadSpecs(specs.value);
      if !SpecsOmit(specs) {
        assert r == specs.value;
      } else {
        var k :| 0 <= k < |specs.value| && SpecOmits(specs.value[k]);
        assert r[k] != specs.value[k];
      }
    }
  }

  /** A request survives the job file unchanged exactly when it has no empty omittable list. */
  lemma ReloadStays(r: Request)
    ensures Reload(r) == r <==> !Omits(r)
  {
    ReloadListStays(r.specs);
    if r.bundle.Some? {
      ReloadListStays(r.bundle.value.packages);
    }
  }

  lemma ReloadListTwice(specs: Option<seq<Spec>>)
    ensures ReloadList(ReloadList(specs)) == ReloadList(specs)
  {
    if specs.Some? {
      assert ReloadSpecs(ReloadSpecs(specs.value)) == ReloadSpecs(specs.value);
    }
  }

  lemma ReloadTwice(r: Request)
    ensures Reload(Reload(r)) == Reload(r)
  {
    ReloadListTwice(r.specs);
    if r.bundle.Some? {
      ReloadListTwice(r.bundle.value.packages);
    }
  }

  type Jobs = map<nat, Job>

  predicate SameExecution(job: Job, req: Request) {
    req.executionId != "" && job.request.executionId == req.executionId
  }

  datatype Answer = Redelivered(id: nat) | Reused | Fresh

  /** The scan at the head of SubmitBuild, whichever matching job the map iteration meets first. */
  ghost predicate Answers(jobs: Jobs, req: Request, answer: Answer) {
    match answer
    case Redelivered(id) => id in jobs && SameExecution(jobs[id], req) && jobs[id].request == req
    case Reused => exists id :: id in jobs && SameExecution(jobs[id], req) && jobs[id].request != req
    case Fresh => forall id :: id in jobs ==> !SameExecution(jobs[id], req)
  }

  // ------------------------------------------------------------------- machine

  /** The marker file: which process created it, and whether it has been synced. */
  datatype Marker = Absent | Present(creator: nat, durable: bool)

  /** How far a SubmitBuild call has come; calls of one process are serialized. */
  datatype Submit =
    | Ready
    | Creating(id: nat, req: Request)
    | Marked(id: nat, req: Request)
    | Written(id: nat, req: Request)
    | Synced(id: nat, req: Request)
    | Reserved(id: nat, req: Request)
    | Registered(id: nat, req: Request)
    | Rejected(id: nat, req: Request)

  datatype Process =
    | Down
    | Up(consumed: bool, owner: Option<nat>, jobs: Jobs, queue: seq<nat>, submit: Submit)

  /** System calls carry their outcome. */
  datatype Event =
    | Begin(req: Request)
    | Create(ok: bool) | Write(ok: bool) | Sync(ok: bool) | Close(ok: bool)
    | Register | Enqueue(full: bool) | Release(ok: bool)
    | Take | Fill(job: nat, flags: seq<string>) | Finish(job: nat, ok: bool)
    | Persist | Crash | Restart(readable: bool)
    | PowerLoss(kept: bool)

  datatype Admission = Admission(process: nat, id: nat)

  datatype State = State(
    marker: Marker, processes: map<nat, Process>, disk: Jobs, next: nat, admitted: seq<Admission>, started: seq<nat>)

  const INITIAL := State(Absent, map[], map[], 0, [], [])

  function At(s: State, p: nat): Process {
    if p in s.processes then s.processes[p] else Down
  }

  function Set(s: State, p: nat, x: Process): State {
    s.(processes := s.processes[p := x])
  }

  function ReloadJob(job: Job): Job {
    job.(request := Reload(job.request), reloaded := true,
         status := if job.status.Queued? || job.status.Building? then Failed else job.status)
  }

  /** The job file read back, and reconcileLoadedJobs: what was queued or building did not survive. */
  function Reconciled(jobs: Jobs): Jobs {
    map id | id in jobs :: ReloadJob(jobs[id])
  }

  ghost function BeginStep(s: State, p: nat, x: Process, req: Request): State
    requires x.Up?
  {
    if !x.submit.Ready? || !Answers(x.jobs, req, Fresh) || x.consumed then s
    else Set(s, p, x.(submit := Creating(s.next, req))).(next := s.next + 1)
  }

  /** The exclusive creation of the marker. */
  function CreateStep(s: State, p: nat, x: Process, ok: bool): State
    requires x.Up? && x.submit.Creating?
  {
    if !ok then Set(s, p, x.(submit := Ready))
    else if s.marker.Present? then Set(s, p, x.(submit := Ready, consumed := true))
    else Set(s, p, x.(submit := Marked(x.submit.id, x.submit.req), consumed := true, owner := Some(x.submit.id)))
         .(marker := Present(p, false))
  }

  function EnqueueStep(s: State, p: nat, x: Process, full: bool): State
    requires x.Up? && x.submit.Registered?
  {
    if full then Set(s, p, x.(submit := Rejected(x.submit.id, x.submit.req), jobs := x.jobs - {x.submit.id}))
    else Set(s, p, x.(submit := Ready, queue := x.queue + [x.submit.id]))
         .(admitted := s.admitted + [Admission(p, x.submit.id)])
  }

  /** releaseNativeLifetime. */
  function ReleaseStep(s: State, p: nat, x: Process, ok: bool): State
    requires x.Up? && x.submit.Rejected?
  {
    if !x.consumed || x.owner != Some(x.submit.id) then Set(s, p, x.(submit := Ready))
    else if !ok then Set(s, p, x.(submit := Ready))
    else Set(s, p, x.(submit := Ready, consumed := false, owner := None)).(marker := Absent)
  }

  function TakeStep(s: State, p: nat, x: Process): State
    requires x.Up? && x.queue != []
  {
    var id := x.queue[0];
    var jobs := if id in x.jobs then x.jobs[id := x.jobs[id].(status := Building)] else x.jobs;
    Set(s, p, x.(queue := x.queue[1..], jobs := jobs)).(started := s.started + [id])
  }

  function FillStep(s: State, p: nat, x: Process, id: nat, flags: seq<string>): State
    requires x.Up?
  {
    if id !in x.jobs || !x.jobs[id].status.Building? then s
    else
      var job := x.jobs[id];
      Set(s, p, x.(jobs := x.jobs[id := job.(request := Filled(job.request, flags), executed := true)]))
  }

  function FinishStep(s: State, p: nat, x: Process, id: nat, ok: bool): State
    requires x.Up?
  {
    if id !in x.jobs || !x.jobs[id].status.Building? then s
    else Set(s, p, x.(jobs := x.jobs[id := x.jobs[id].(status := if ok then Success else Failed)]))
  }

  ghost function RunningStep(s: State, p: nat, x: Process, event: Event): State
    requires x.Up?
  {
    match event
    case Begin(req) => BeginStep(s, p, x, req)
    case Create(ok) => if x.submit.Creating? then CreateStep(s, p, x, ok) else s
    case Write(ok) =>
      if x.submit.Marked? then
        Set(s, p, x.(submit := if ok then Written(x.submit.id, x.submit.req) else Ready))
      else s
    case Sync(ok) =>
      if x.submit.Written? then
        var t := Set(s, p, x.(submit := if ok then Synced(x.submit.id, x.submit.req) else Ready));
        if ok && s.marker.Present? then t.(marker := s.marker.(durable := true)) else t
      else s
    case Close(ok) =>
      if x.submit.Synced? then
        Set(s, p, x.(submit := if ok then Reserved(x.submit.id, x.submit.req) else Ready))
      else s
    case Register =>
      if x.submit.Reserved? then
        Set(s, p, x.(submit := Registered(x.submit.id, x.submit.req),
                     jobs := x.jobs[x.submit.id := Job(x.submit.req, x.submit.req, Queued, false, false)]))
      else s
    case Enqueue(full) => if x.submit.Registered? then EnqueueStep(s, p, x, full) else s
    case Release(ok) => if x.submit.Rejected? then ReleaseStep(s, p, x, ok) else s
    case Take => if x.queue != [] then TakeStep(s, p, x) else s
    case Fill(id, flags) => FillStep(s, p, x, id, flags)
    case Finish(id, ok) => FinishStep(s, p, x, id, ok)
    case Persist => s.(disk := x.jobs)
    case Crash => Set(s, p, Down)
    case Restart(readable) => s
    case PowerLoss(kept) => s
  }

  /** Every process dies; only a synced marker is certain to be found where it was. */
  function AfterPowerLoss(s: State, kept: bool): State {
    var marker :=
      match s.marker
      case Absent => if kept then Present(0, false) else Absent
      case Present(creator, durable) => if durable || kept then s.marker else Absent;
    s.(marker := marker, processes := map[])
  }

  ghost function Step(s: State, p: nat, event: Event): State {
    if event.PowerLoss? then AfterPowerLoss(s, event.kept)
    else
      match At(s, p)
      case Down =>
        if event.Restart? then
          Set(s, p, Up(s.marker.Present? || !event.readable, None, Reconciled(s.disk), [], Ready))
        else s
      case Up(_, _, _, _, _) => RunningStep(s, p, At(s, p), event)
  }

  datatype Move = Move(process: nat, event: Event)

  ghost function Run(moves: seq<Move>): State {
    if |moves| == 0 then INITIAL
    else Step(Run(moves[..|moves| - 1]), moves[|moves| - 1].process, moves[|moves| - 1].event)
  }

  // ------------------------------------------------------- at most one job starts

  predicate Holding(x: Process) {
    x.Up? && (x.submit.Marked? || x.submit.Written? || x.submit.Synced? || x.submit.Reserved?
              || x.submit.Registered? || x.submit.Rejected?)
  }

  predicate PastSync(x: Process) {
    Holding(x) && !x.submit.Marked? && !x.submit.Written?
  }

  ghost predicate ProcessSafe(s: State, p: nat, x: Process) {
    && (Holding(x) ==> s.marker.Present? && s.marker.creator == p && s.admitted == [])
    && (PastSync(x) ==> s.marker.Present? && s.marker.durable)
    && (x.Up? && x.queue != [] ==>
          s.started == [] && s.admitted == [Admission(p, x.queue[0])] && |x.queue| == 1)
    && (x.Up? && x.owner.Some? ==> s.marker.Present? && s.marker.creator == p)
  }

  ghost predicate Safe(s: State) {
    && |s.admitted| <= 1
    && (s.admitted != [] ==> s.marker.Present? && s.marker.durable)
    && |s.started| <= |s.admitted|
    && (forall p :: p in s.processes ==> ProcessSafe(s, p, s.processes[p]))
  }

  lemma SafeAt(s: State, p: nat)
    requires Safe(s)
    ensures ProcessSafe(s, p, At(s, p))
  {
  }

  /** A step of one process that leaves marker, admissions and starts alone. */
  lemma LocalStep(s: State, p: nat, x: Process)
    requires Safe(s) && ProcessSafe(s, p, x)
    ensures Safe(Set(s, p, x))
  {
    var t := Set(s, p, x);
    forall q | q in t.processes ensures ProcessSafe(t, q, t.processes[q]) {
      assert q != p ==> ProcessSafe(s, q, s.processes[q]);
    }
  }

  lemma CreateSafe(s: State, p: nat, x: Process, ok: bool)
    requires Safe(s) && x == At(s, p) && x.Up? && x.submit.Creating?
    ensures Safe(CreateStep(s, p, x, ok))
  {
    SafeAt(s, p);
    var t := CreateStep(s, p, x, ok);
    if !ok || s.marker.Present? {
      LocalStep(s, p, t.processes[p]);
    } else {
      forall q | q in t.processes ensures ProcessSafe(t, q, t.processes[q]) {
        assert q != p ==> ProcessSafe(s, q, s.processes[q]);
      }
    }
  }

  lemma EnqueueSafe(s: State, p: nat, x: Process, full: bool)
    requires Safe(s) && x == At(s, p) && x.Up? && x.submit.Registered?
    ensures Safe(EnqueueStep(s, p, x, full))
  {
    SafeAt(s, p);
    var t := EnqueueStep(s, p, x, full);
    forall q | q in t.processes ensures ProcessSafe(t, q, t.processes[q]) {
      assert q != p ==> ProcessSafe(s, q, s.processes[q]);
    }
  }

  lemma ReleaseSafe(s: State, p: nat, x: Process, ok: bool)
    requires Safe(s) && x == At(s, p) && x.Up? && x.submit.Rejected?
    ensures Safe(ReleaseStep(s, p, x, ok))
  {
    SafeAt(s, p);
    var t := ReleaseStep(s, p, x, ok);
    forall q | q in t.processes ensures ProcessSafe(t, q, t.processes[q]) {
      assert q != p ==> ProcessSafe(s, q, s.processes[q]);
    }
  }

  lemma TakeSafe(s: State, p: nat, x: Process)
    requires Safe(s) && x == At(s, p) && x.Up? && x.queue != []
    ensures Safe(TakeStep(s, p, x))
  {
    SafeAt(s, p);
    var t := TakeStep(s, p, x);
    forall q | q in t.processes ensures ProcessSafe(t, q, t.processes[q]) {
      assert q != p ==> ProcessSafe(s, q, s.processes[q]);
    }
  }

  lemma SyncSafe(s: State, p: nat, x: Process, ok: bool)
    requires Safe(s) && x == At(s, p) && x.Up?
    ensures Safe(RunningStep(s, p, x, Sync(ok)))
  {
    SafeAt(s, p);
    var t := RunningStep(s, p, x, Sync(ok));
    forall q | q in t.processes ensures ProcessSafe(t, q, t.processes[q]) {
      assert q != p ==> ProcessSafe(s, q, s.processes[q]);
    }
  }

  lemma RunningSafe(s: State, p: nat, event: Event)
    requires Safe(s) && At(s, p).Up?
    ensures Safe(RunningStep(s, p, At(s, p), event))
  {
    var x := At(s, p);
    SafeAt(s, p);
    var t := RunningStep(s, p, x, event);
    match event
    case Create(ok) => if x.submit.Creating? { CreateSafe(s, p, x, ok); }
    case Sync(ok) => SyncSafe(s, p, x, ok);
    case Enqueue(full) => if x.submit.Registered? { EnqueueSafe(s, p, x, full); }
    case Release(ok) => if x.submit.Rejected? { ReleaseSafe(s, p, x, ok); }
    case Take => if x.queue != [] { TakeSafe(s, p, x); }
    case _ => QuietSafe(s, p, event);
  }

  /** The other events leave marker, admissions and starts alone. */
  lemma QuietSafe(s: State, p: nat, event: Event)
    requires Safe(s) && At(s, p).Up?
    requires !event.Create? && !event.Sync? && !event.Enqueue? && !event.Release? && !event.Take?
    ensures Safe(RunningStep(s, p, At(s, p), event))
  {
    SafeAt(s, p);
    LocalStep(s, p, At(RunningStep(s, p, At(s, p), event), p));
  }

  lemma StepSafe(s: State, p: nat, event: Event)
    requires Safe(s)
    ensures Safe(Step(s, p, event))
  {
    if !event.PowerLoss? {
      if At(s, p).Up? {
        RunningSafe(s, p, event);
      } else if event.Restart? {
        LocalStep(s, p, At(Step(s, p, event), p));
      }
    }
  }

  lemma {:induction false} RunSafe(moves: seq<Move>)
    ensures Safe(Run(moves))
  {
    if |moves| > 0 {
      var n := |moves| - 1;
      RunSafe(moves[..n]);
      StepSafe(Run(moves[..n]), moves[n].process, moves[n].event);
    }
  }

  /** Over every run of any number of processes at most one job ever starts executing, and once one is admitted
      the marker is on disk for good. */
  lemma AtMostOneJobStarts(moves: seq<Move>)
    ensures |Run(moves).started| <= |Run(moves).admitted| <= 1
    ensures Run(moves).admitted != [] ==> Run(moves).marker.Present? && Run(moves).marker.durable
  {
    RunSafe(moves);
  }

  // -------------------------------------------------------------- redelivery

  predicate JobShape(job: Job) {
    && job.request.executionId == job.submitted.executionId
    && if Fillable(job.submitted) && job.executed then job.request.bundle.Some? && !Fillable(job.request)
       else job.request == if job.reloaded then Reload(job.submitted) else job.submitted
  }

  /** The recorded request is no longer the submitted one exactly when the build has completed its bundle, or it has
      been read back without an empty list it had. */
  predicate Changed(job: Job) {
    (Fillable(job.submitted) && job.executed) || (job.reloaded && Omits(job.submitted))
  }

  lemma ShapeChanges(job: Job)
    requires JobShape(job)
    ensures job.request != job.submitted <==> Changed(job)
  {
    ReloadStays(job.submitted);
  }

  lemma ReloadShape(job: Job)
    requires JobShape(job)
    ensures JobShape(ReloadJob(job))
  {
    ReloadTwice(job.submitted);
  }

  ghost predicate JobsShaped(jobs: Jobs) {
    && (forall id :: id in jobs ==> JobShape(jobs[id]))
    && (forall a, b :: a in jobs && b in jobs && a != b ==> !SameExecution(jobs[a], jobs[b].request))
  }

  ghost predicate ProcessShaped(x: Process) {
    x.Up? ==>
      && JobsShaped(x.jobs)
      && (x.submit.Registered? ==>
            x.submit.id in x.jobs && x.jobs[x.submit.id].request.executionId == x.submit.req.executionId)
      && (!x.submit.Ready? && !x.submit.Registered? ==> Answers(x.jobs, x.submit.req, Fresh))
  }

  ghost predicate Shaped(s: State) {
    JobsShaped(s.disk) && forall p :: p in s.processes ==> ProcessShaped(s.processes[p])
  }

  lemma ReconciledShaped(jobs: Jobs)
    requires JobsShaped(jobs)
    ensures JobsShaped(Reconciled(jobs))
  {
    var r := Reconciled(jobs);
    forall id | id in r ensures JobShape(r[id]) {
      ReloadShape(jobs[id]);
    }
    forall a, b | a in r && b in r && a != b ensures !SameExecution(r[a], r[b].request) {
      assert !SameExecution(jobs[a], jobs[b].request);
    }
  }

  /** Changing one job without touching its execution ID keeps the table in shape. */
  lemma UpdateShaped(x: Process, id: nat, job: Job)
    requires ProcessShaped(x) && x.Up? && id in x.jobs && JobShape(job)
    requires job.request.executionId == x.jobs[id].request.executionId
    ensures ProcessShaped(x.(jobs := x.jobs[id := job]))
  {
    var jobs := x.jobs[id := job];
    forall a, b | a in jobs && b in jobs && a != b ensures !SameExecution(jobs[a], jobs[b].request) {
      assert !SameExecution(x.jobs[a], x.jobs[b].request);
    }
  }

  lemma FilledShape(job: Job, flags: seq<string>)
    requires JobShape(job)
    ensures JobShape(job.(request := Filled(job.request, flags), executed := true))
  {
  }

  lemma RegisterShaped(x: Process)
    requires ProcessShaped(x) && x.Up? && x.submit.Reserved?
    ensures ProcessShaped(x.(submit := Registered(x.submit.id, x.submit.req),
                             jobs := x.jobs[x.submit.id := Job(x.submit.req, x.submit.req, Queued, false, false)]))
  {
  }

  lemma RejectShaped(x: Process)
    requires ProcessShaped(x) && x.Up? && x.submit.Registered?
    ensures ProcessShaped(x.(submit := Rejected(x.submit.id, x.submit.req), jobs := x.jobs - {x.submit.id}))
  {
    forall id | id in x.jobs && id != x.submit.id ensures !SameExecution(x.jobs[id], x.submit.req) {
      assert !SameExecution(x.jobs[id], x.jobs[x.submit.id].request);
    }
  }

  lemma FillShaped(x: Process, id: nat, flags: seq<string>)
    requires ProcessShaped(x) && x.Up? && id in x.jobs
    ensures ProcessShaped(x.(jobs := x.jobs[id := x.jobs[id].(request := Filled(x.jobs[id].request, flags),
                                                             executed := true)]))
  {
    FilledShape(x.jobs[id], flags);
    UpdateShaped(x, id, x.jobs[id].(request := Filled(x.jobs[id].request, flags), executed := true));
  }

  lemma SetShaped(s: State, t: State, p: nat, x: Process)
    requires Shaped(s) && ProcessShaped(x) && t.disk == s.disk && t.processes == s.processes[p := x]
    ensures Shaped(t)
  {
  }

  /** Moving a submission on, or ending it, without touching the jobs. */
  lemma SubmitKept(x: Process, y: Process)
    requires ProcessShaped(x) && x.Up? && y.Up? && y.jobs == x.jobs
    requires || y.submit.Ready?
             || (!y.submit.Registered? && Answers(x.jobs, y.submit.req, Fresh))
             || (!y.submit.Registered? && !x.submit.Ready? && !x.submit.Registered? && y.submit.req == x.submit.req)
    ensures ProcessShaped(y)
  {
  }

  lemma StartShaped(s: State, p: nat, event: Event)
    requires Shaped(s) && At(s, p).Up? && (event.Begin? || event.Create?)
    ensures Shaped(RunningStep(s, p, At(s, p), event))
  {
    var x := At(s, p);
    var t := RunningStep(s, p, x, event);
    if t != s {
      SubmitKept(x, t.processes[p]);
      SetShaped(s, t, p, t.processes[p]);
    }
  }

  lemma SubmitShaped(s: State, p: nat, event: Event)
    requires Shaped(s) && At(s, p).Up?
    requires event.Write? || event.Sync? || event.Close? || event.Release? || event.Crash?
    ensures Shaped(RunningStep(s, p, At(s, p), event))
  {
    var x := At(s, p);
    var t := RunningStep(s, p, x, event);
    if t != s {
      if !event.Crash? {
        SubmitKept(x, t.processes[p]);
      }
      SetShaped(s, t, p, t.processes[p]);
    }
  }

  lemma JobsShapedStep(s: State, p: nat, event: Event)
    requires Shaped(s) && At(s, p).Up? && (event.Register? || event.Enqueue? || event.Take?)
    ensures Shaped(RunningStep(s, p, At(s, p), event))
  {
    var x := At(s, p);
    if event.Register? && x.submit.Reserved? {
      RegisterShaped(x);
    } else if event.Enqueue? && x.submit.Registered? && event.full {
      RejectShaped(x);
    } else if event.Take? && x.queue != [] && x.queue[0] in x.jobs {
      UpdateShaped(x, x.queue[0], x.jobs[x.queue[0]].(status := Building));
    }
    var t := RunningStep(s, p, x, event);
    SetShaped(s, t, p, t.processes[p]);
  }

  lemma WorkShaped(s: State, p: nat, event: Event)
    requires Shaped(s) && At(s, p).Up? && (event.Fill? || event.Finish?)
    ensures Shaped(RunningStep(s, p, At(s, p), event))
  {
    var x := At(s, p);
    if event.job in x.jobs && x.jobs[event.job].status.Building? {
      if event.Fill? {
        FillShaped(x, event.job, event.flags);
      } else {
        UpdateShaped(x, event.job, x.jobs[event.job].(status := if event.ok then Success else Failed));
      }
      var t := RunningStep(s, p, x, event);
      SetShaped(s, t, p, t.processes[p]);
    }
  }

  lemma RunningShaped(s: State, p: nat, event: Event)
    requires Shaped(s) && At(s, p).Up?
    ensures Shaped(RunningStep(s, p, At(s, p), event))
  {
    match event
    case Begin(req) => StartShaped(s, p, event);
    case Create(ok) => StartShaped(s, p, event);
    case Register => JobsShapedStep(s, p, event);
    case Enqueue(full) => JobsShapedStep(s, p, event);
    case Take => JobsShapedStep(s, p, event);
    case Fill(id, flags) => WorkShaped(s, p, event);
    case Finish(id, ok) => WorkShaped(s, p, event);
    case Persist =>
    case Restart(readable) =>
    case PowerLoss(kept) =>
    case _ => SubmitShaped(s, p, event);
  }

  lemma {:induction false} RunShaped(moves: seq<Move>)
    ensures Shaped(Run(moves))
  {
    if |moves| > 0 {
      var n := |moves| - 1;
      RunShaped(moves[..n]);
      var s := Run(moves[..n]);
      var p, event := moves[n].process, moves[n].event;
      if !event.PowerLoss? && At(s, p).Up? {
        RunningShaped(s, p, event);
      } else {
        ReconciledShaped(s.disk);
      }
    }
  }

  /** Redelivering a recorded job's own request: the first submission's ID comes back, unless the request held an
      empty bundle that the build has completed in place, or an empty list that was lost when the jobs were read back;
      then the redelivery is refused. Either way nothing is enqueued. */
  lemma RedeliveryReturnsTheJob(moves: seq<Move>, p: nat, id: nat, answer: Answer)
    requires At(Run(moves), p).Up? && id in At(Run(moves), p).jobs
    requires At(Run(moves), p).jobs[id].submitted.executionId != ""
    requires Answers(At(Run(moves), p).jobs, At(Run(moves), p).jobs[id].submitted, answer)
    ensures var job := At(Run(moves), p).jobs[id];
            && (answer == Redelivered(id) <==> !Changed(job))
            && (answer == Reused <==> Changed(job))
            && Step(Run(moves), p, Begin(job.submitted)) == Run(moves)
  {
    RunShaped(moves);
    var jobs := At(Run(moves), p).jobs;
    var job := jobs[id];
    ShapeChanges(job);
    assert SameExecution(job, job.submitted);
    forall other | other in jobs && other != id ensures !SameExecution(jobs[other], job.submitted) {
      assert !SameExecution(jobs[other], job.request);
    }
  }

  // ---------------------------------------------------------- the Go routines

  datatype SubmitError = ReusedExecution | Draining | Storage | QueueFull

  /** Which system calls of one submission fail. */
  datatype Faults = Faults(create: bool, write: bool, sync: bool, close: bool, remove: bool)

  /** What one submission can see and change: the marker, the builder's lifetime, its jobs and its queue. */
  datatype Core = Core(present: bool, consumed: bool, owner: Option<nat>, jobs: Jobs, queue: seq<nat>)

  /** reserveNativeLifetime on a core. */
  function Reserving(c: Core, id: nat, faults: Faults): (Core, Result<bool, SubmitError>) {
    if c.consumed then (c, Err(Draining))
    else if faults.create then (c, Err(Storage))
    else if c.present then (c.(consumed := true), Err(Draining))
    else (c.(present := true, consumed := true, owner := Some(id)),
          if faults.write || faults.sync || faults.close then Err(Storage) else Ok(true))
  }

  /** A submission of a new request: the core it leaves and what it answers. */
  function Submitting(c: Core, req: Request, id: nat, capacity: nat, faults: Faults): (Core, Result<nat, SubmitError>) {
    var (held, reserved) := Reserving(c, id, faults);
    if reserved.Err? then (held, Err(reserved.error))
    else if |c.queue| < capacity then
      (held.(jobs := c.jobs[id := Job(req, req, Queued, false, false)], queue := c.queue + [id]), Ok(id))
    else if faults.remove then (held, Err(QueueFull))
    else (held.(present := false, consumed := false, owner := None), Err(QueueFull))
  }

  // ------------------------------------------- one submission among other processes

  predicate SubmitEvent(e: Event) {
    e.Begin? || e.Create? || e.Write? || e.Sync? || e.Close? || e.Register? || e.Enqueue? || e.Release?
  }

  /** A call of a process, with the next job number and the marker as it finds them. */
  datatype Sight = Sight(event: Event, next: nat, present: bool)

  /** The position a call leads to. */
  ghost function Position(x: Process, sight: Sight): Submit
    requires x.Up?
  {
    match sight.event
    case Begin(req) => if x.submit.Ready? && Answers(x.jobs, req, Fresh) && !x.consumed then Creating(sight.next, req)
        else x.submit
    case Create(ok) => if !x.submit.Creating? then x.submit
                       else if ok && !sight.present then Marked(x.submit.id, x.submit.req) else Ready
    case Write(ok) => if !x.submit.Marked? then x.submit else if ok then Written(x.submit.id, x.submit.req) else Ready
    case Sync(ok) => if !x.submit.Written? then x.submit else if ok then Synced(x.submit.id, x.submit.req) else Ready
    case Close(ok) => if !x.submit.Synced? then x.submit else if ok then Reserved(x.submit.id, x.submit.req) else Ready
    case Register => if !x.submit.Reserved? then x.submit else Registered(x.submit.id, x.submit.req)
    case Enqueue(full) => if !x.submit.Registered? then x.submit
                          else if full then Rejected(x.submit.id, x.submit.req) else Ready
    case Release(ok) => if x.submit.Rejected? then Ready else x.submit
    case _ => x.submit
  }

  /** The process after a call. */
  ghost function Local(x: Process, sight: Sight): Process {
    if !x.Up? then x
    else
      var e, y := sight.event, x.(submit := Position(x, sight));
      if e.Create? && e.ok && x.submit.Creating? then
        y.(consumed := true, owner := if sight.present then x.owner else Some(x.submit.id))
      else if e.Register? && x.submit.Reserved? then
        y.(jobs := x.jobs[x.submit.id := Job(x.submit.req, x.submit.req, Queued, false, false)])
      else if e.Enqueue? && x.submit.Registered? then
        if e.full then y.(jobs := x.jobs - {x.submit.id}) else y.(queue := x.queue + [x.submit.id])
      else if e.Release? && x.submit.Rejected? && e.ok && x.consumed && x.owner == Some(x.submit.id) then
        y.(consumed := false, owner := None)
      else y
  }

  ghost function LocalRun(x: Process, sights: seq<Sight>): Process {
    if |sights| == 0 then x else Local(LocalRun(x, sights[..|sights| - 1]), sights[|sights| - 1])
  }

  /** The job a call admits. */
  function Admits(x: Process, e: Event): seq<nat> {
    if x.Up? && x.submit.Registered? && e.Enqueue? && !e.full then [x.submit.id] else []
  }

  ghost function LocalAdmits(x: Process, sights: seq<Sight>): seq<nat> {
    if |sights| == 0 then []
    else
      var n := |sights| - 1;
      LocalAdmits(x, sights[..n]) + Admits(LocalRun(x, sights[..n]), sights[n].event)
  }

  /** A call depends on the rest of the world only through what it sees. */
  lemma StepIsLocal(s: State, p: nat, e: Event)
    requires At(s, p).Up? && SubmitEvent(e)
    ensures At(Step(s, p, e), p) == Local(At(s, p), Sight(e, s.next, s.marker.Present?)) && At(Step(s, p, e), p).Up?
  {
  }

  lemma OthersStepAside(s: State, q: nat, e: Event, p: nat)
    requires q != p && !e.PowerLoss?
    ensures At(Step(s, q, e), p) == At(s, p)
  {
  }

  function AdmissionsOf(p: nat, list: seq<Admission>): seq<nat> {
    if |list| == 0 then []
    else AdmissionsOf(p, list[..|list| - 1]) + if list[|list| - 1].process == p then [list[|list| - 1].id] else []
  }

  lemma AdmissionsNext(p: nat, list: seq<Admission>, a: Admission)
    ensures AdmissionsOf(p, list + [a]) == AdmissionsOf(p, list) + if a.process == p then [a.id] else []
  {
    assert (list + [a])[..|list|] == list;
  }

  lemma StepAdmits(s: State, q: nat, e: Event, p: nat)
    requires !e.PowerLoss?
    ensures AdmissionsOf(p, Step(s, q, e).admitted)
         == AdmissionsOf(p, s.admitted) + if q == p then Admits(At(s, p), e) else []
  {
    var x := At(s, q);
    if x.Up? && x.submit.Registered? && e.Enqueue? && !e.full {
      AdmissionsNext(p, s.admitted, Admission(q, x.submit.id));
    }
  }

  /** The events of one process in a list of moves. */
  function Own(p: nat, moves: seq<Move>): seq<Event> {
    if |moves| == 0 then []
    else Own(p, moves[..|moves| - 1]) + if moves[|moves| - 1].process == p then [moves[|moves| - 1].event] else []
  }

  /** What the process sees at each of its calls in a continuation of a run. */
  ghost function Seen(moves: seq<Move>, p: nat, more: seq<Move>): (sights: seq<Sight>)
    ensures |sights| == |Own(p, more)| && forall k :: 0 <= k < |sights| ==> sights[k].event == Own(p, more)[k]
  {
    if |more| == 0 then []
    else
      var n := |more| - 1;
      var s := Run(moves + more[..n]);
      Seen(moves, p, more[..n])
      + if more[n].process == p then [Sight(more[n].event, s.next, s.marker.Present?)] else []
  }

  ghost predicate Powered(moves: seq<Move>) {
    forall k :: 0 <= k < |moves| ==> !moves[k].event.PowerLoss?
  }

  ghost predicate AllSubmit(events: seq<Event>) {
    forall k :: 0 <= k < |events| ==> SubmitEvent(events[k])
  }

  lemma OwnNext(p: nat, more: seq<Move>, n: nat)
    requires |more| == n + 1 && AllSubmit(Own(p, more))
    ensures AllSubmit(Own(p, more[..n])) && (more[n].process == p ==> SubmitEvent(more[n].event))
  {
    var front := Own(p, more[..n]);
    forall k | 0 <= k < |front| ensures SubmitEvent(front[k]) {
      assert front[k] == Own(p, more)[k];
    }
    if more[n].process == p {
      assert Own(p, more)[|front|] == more[n].event;
    }
  }

  lemma SightsNext(x: Process, sights: seq<Sight>, sight: Sight)
    ensures LocalRun(x, sights + [sight]) == Local(LocalRun(x, sights), sight)
    ensures LocalAdmits(x, sights + [sight]) == LocalAdmits(x, sights) + Admits(LocalRun(x, sights), sight.event)
  {
    assert (sights + [sight])[..|sights|] == sights;
  }

  lemma RunThen(moves: seq<Move>, move: Move)
    ensures Run(moves + [move]) == Step(Run(moves), move.process, move.event)
  {
    assert (moves + [move])[..|moves|] == moves;
  }

  /** The process is where its sights take it, and has the admissions they give. */
  ghost predicate Led(x: Process, before: seq<nat>, sights: seq<Sight>, t: State, p: nat) {
    At(t, p) == LocalRun(x, sights) && At(t, p).Up? && AdmissionsOf(p, t.admitted) == before + LocalAdmits(x, sights)
  }

  lemma OwnStepLeads(x: Process, before: seq<nat>, sights: seq<Sight>, s: State, p: nat, e: Event)
    requires Led(x, before, sights, s, p) && SubmitEvent(e)
    ensures Led(x, before, sights + [Sight(e, s.next, s.marker.Present?)], Step(s, p, e), p)
  {
    StepIsLocal(s, p, e);
    StepAdmits(s, p, e, p);
    SightsNext(x, sights, Sight(e, s.next, s.marker.Present?));
  }

  lemma OtherStepLeads(x: Process, before: seq<nat>, sights: seq<Sight>, s: State, p: nat, q: nat, e: Event)
    requires Led(x, before, sights, s, p) && q != p && !e.PowerLoss?
    ensures Led(x, before, sights, Step(s, q, e), p)
  {
    OthersStepAside(s, q, e, p);
    StepAdmits(s, q, e, p);
  }

  lemma SeenNext(moves: seq<Move>, p: nat, more: seq<Move>, n: nat)
    requires |more| == n + 1
    ensures var s := Run(moves + more[..n]);
            Seen(moves, p, more) == if more[n].process != p then Seen(moves, p, more[..n])
                                    else Seen(moves, p, more[..n]) + [Sight(more[n].event, s.next, s.marker.Present?)]
  {
  }

  lemma RunLonger(moves: seq<Move>, more: seq<Move>, n: nat)
    requires |more| == n + 1
    ensures Run(moves + more) == Step(Run(moves + more[..n]), more[n].process, more[n].event)
  {
    RunThen(moves + more[..n], more[n]);
    assert moves + more == moves + more[..n] + [more[n]];
  }

  /** Whatever the other processes do, a process that only submits is where its own calls take it, and its admissions
      are those of its own calls. */
  lemma {:induction false} RunIsLocal(moves: seq<Move>, p: nat, more: seq<Move>)
    requires At(Run(moves), p).Up? && Powered(more) && AllSubmit(Own(p, more))
    ensures Led(At(Run(moves), p), AdmissionsOf(p, Run(moves).admitted), Seen(moves, p, more), Run(moves + more), p)
    decreases |more|
  {
    if |more| == 0 {
      assert moves + more == moves;
    } else {
      var n := |more| - 1;
      var x, before, s := At(Run(moves), p), AdmissionsOf(p, Run(moves).admitted), Run(moves + more[..n]);
      OwnNext(p, more, n);
      RunIsLocal(moves, p, more[..n]);
      RunLonger(moves, more, n);
      SeenNext(moves, p, more, n);
      if more[n].process == p {
        OwnStepLeads(x, before, Seen(moves, p, more[..n]), s, p, more[n].event);
      } else {
        OtherStepLeads(x, before, Seen(moves, p, more[..n]), s, p, more[n].process, more[n].event);
      }
    }
  }

  /** The calls of one submission, in order. */
  function Submission(req: Request, full: bool, faults: Faults): seq<Event> {
    [Begin(req), Create(!faults.create), Write(!faults.write), Sync(!faults.sync), Close(!faults.close),
     Register, Enqueue(full), Release(!faults.remove)]
  }

  // ------------------------------------------------------ what the calls come to

  lemma WaitingIgnores(x: Process, sight: Sight)
    requires x.Up? && x.submit.Ready? && SubmitEvent(sight.event) && !sight.event.Begin?
    ensures Local(x, sight) == x
  {
  }

  /** After k sights the process is y and has admitted the given jobs. */
  ghost predicate Stands(x: Process, sights: seq<Sight>, k: nat, y: Process, jobs: seq<nat>)
    requires k <= |sights|
  {
    LocalRun(x, sights[..k]) == y && LocalAdmits(x, sights[..k]) == jobs
  }

  lemma CallLeads(x: Process, sights: seq<Sight>, k: nat, y: Process, jobs: seq<nat>, z: Process)
    requires k < |sights| && Stands(x, sights, k, y, jobs) && z == Local(y, sights[k])
    ensures Stands(x, sights, k + 1, z, jobs + Admits(y, sights[k].event))
  {
    assert sights[..k + 1] == sights[..k] + [sights[k]];
    SightsNext(x, sights[..k], sights[k]);
  }

  lemma BeginLeads(x: Process, sights: seq<Sight>, k: nat, y: Process, req: Request)
    requires k < |sights| && sights[k].event == Begin(req) && Stands(x, sights, k, y, [])
    requires y.Up? && y.submit.Ready? && Answers(y.jobs, req, Fresh)
    ensures Stands(x, sights, k + 1, if y.consumed then y else y.(submit := Creating(sights[k].next, req)), [])
  {
    CallLeads(x, sights, k, y, [], Local(y, sights[k]));
  }

  lemma CreateLeads(x: Process, sights: seq<Sight>, k: nat, y: Process, ok: bool)
    requires k < |sights| && sights[k].event == Create(ok) && Stands(x, sights, k, y, []) && y.Up? && y.submit.Creating?
    ensures var id := y.submit.id;
            Stands(x, sights, k + 1,
                   if !ok then y.(submit := Ready)
                   else if sights[k].present then y.(submit := Ready, consumed := true)
                   else y.(submit := Marked(id, y.submit.req), consumed := true, owner := Some(id)), [])
  {
    CallLeads(x, sights, k, y, [], Local(y, sights[k]));
  }

  /** A call on the marker file that fails ends the submission. */
  lemma MarkerLeads(x: Process, sights: seq<Sight>, k: nat, y: Process, ok: bool, next: Submit)
    requires k < |sights| && Stands(x, sights, k, y, []) && y.Up?
    requires || (sights[k].event == Write(ok) && y.submit.Marked? && next == Written(y.submit.id, y.submit.req))
             || (sights[k].event == Sync(ok) && y.submit.Written? && next == Synced(y.submit.id, y.submit.req))
             || (sights[k].event == Close(ok) && y.submit.Synced? && next == Reserved(y.submit.id, y.submit.req))
    ensures Stands(x, sights, k + 1, y.(submit := if ok then next else Ready), [])
  {
    CallLeads(x, sights, k, y, [], Local(y, sights[k]));
  }

  lemma RegisterLeads(x: Process, sights: seq<Sight>, k: nat, y: Process, id: nat, req: Request)
    requires k < |sights| && sights[k].event == Register && Stands(x, sights, k, y, [])
    requires y.Up? && y.submit == Reserved(id, req)
    ensures var job := Job(req, req, Queued, false, false);
            Stands(x, sights, k + 1, y.(submit := Registered(id, req), jobs := y.jobs[id := job]), [])
  {
    CallLeads(x, sights, k, y, [], Local(y, sights[k]));
  }

  lemma EnqueueLeads(x: Process, sights: seq<Sight>, k: nat, y: Process, id: nat, req: Request, full: bool)
    requires k < |sights| && sights[k].event == Enqueue(full) && Stands(x, sights, k, y, [])
    requires y.Up? && y.submit == Registered(id, req)
    ensures if full then Stands(x, sights, k + 1, y.(submit := Rejected(id, req), jobs := y.jobs - {id}), [])
            else Stands(x, sights, k + 1, y.(submit := Ready, queue := y.queue + [id]), [id])
  {
    CallLeads(x, sights, k, y, [], Local(y, sights[k]));
  }

  lemma ReleaseLeads(x: Process, sights: seq<Sight>, k: nat, y: Process, id: nat, req: Request, ok: bool)
    requires k < |sights| && sights[k].event == Release(ok) && Stands(x, sights, k, y, [])
    requires y.Up? && y.submit == Rejected(id, req) && y.consumed && y.owner == Some(id)
    ensures Stands(x, sights, k + 1,
                   if ok then y.(submit := Ready, consumed := false, owner := None) else y.(submit := Ready), [])
  {
    CallLeads(x, sights, k, y, [], Local(y, sights[k]));
  }

  ghost predicate Calls(sights: seq<Sight>, req: Request, full: bool, faults: Faults) {
    |sights| == 8 && forall k :: 0 <= k < 8 ==> sights[k].event == Submission(req, full, faults)[k]
  }

  /** A submission that has come to rest stays there. */
  lemma {:induction false} RestsFrom(x: Process, sights: seq<Sight>, k: nat, y: Process, jobs: seq<nat>)
    requires k <= |sights| && Stands(x, sights, k, y, jobs) && y.Up? && y.submit.Ready?
    requires forall i :: k <= i < |sights| ==> SubmitEvent(sights[i].event) && !sights[i].event.Begin?
    ensures Stands(x, sights, |sights|, y, jobs)
    decreases |sights| - k
  {
    if k < |sights| {
      WaitingIgnores(y, sights[k]);
      CallLeads(x, sights, k, y, jobs, y);
      RestsFrom(x, sights, k + 1, y, jobs);
    }
  }

  lemma RestsInCalls(
    x: Process, sights: seq<Sight>, k: nat, y: Process, jobs: seq<nat>, req: Request, full: bool, faults: Faults)
    requires Calls(sights, req, full, faults) && 1 <= k <= 8 && Stands(x, sights, k, y, jobs) && y.Up?
             && y.submit.Ready?
    ensures Stands(x, sights, 8, y, jobs)
  {
    RestsFrom(x, sights, k, y, jobs);
  }

  /** A call on the marker file leads on, or ends the submission. */
  lemma MarkerCall(
    x: Process, sights: seq<Sight>, k: nat, y: Process, ok: bool, next: Submit, req: Request, full: bool,
        faults: Faults)
    requires Calls(sights, req, full, faults) && 1 <= k < 8 && Stands(x, sights, k, y, []) && y.Up?
    requires || (sights[k].event == Write(ok) && y.submit.Marked? && next == Written(y.submit.id, y.submit.req))
             || (sights[k].event == Sync(ok) && y.submit.Written? && next == Synced(y.submit.id, y.submit.req))
             || (sights[k].event == Close(ok) && y.submit.Synced? && next == Reserved(y.submit.id, y.submit.req))
    ensures if ok then Stands(x, sights, k + 1, y.(submit := next), [])
            else Stands(x, sights, 8, y.(submit := Ready), [])
  {
    MarkerLeads(x, sights, k, y, ok, next);
    if !ok {
      RestsInCalls(x, sights, k + 1, y.(submit := Ready), [], req, full, faults);
    }
  }

  /** Registration, and the queue taking the job or giving the marker back. */
  lemma QueueLocal(x: Process, sights: seq<Sight>, y: Process, id: nat, req: Request, full: bool, faults: Faults)
    requires Calls(sights, req, full, faults) && Stands(x, sights, 5, y, [])
    requires y.Up? && y.submit == Reserved(id, req) && id !in y.jobs && y.consumed && y.owner == Some(id)
    ensures var job := Job(req, req, Queued, false, false);
            if !full then
              Stands(x, sights, 8, y.(submit := Ready, jobs := y.jobs[id := job], queue := y.queue + [id]), [id])
            else
              Stands(x, sights, 8, if faults.remove then y.(submit := Ready)
                                   else y.(submit := Ready, consumed := false, owner := None), [])
  {
    var job := Job(req, req, Queued, false, false);
    var z := y.(submit := Registered(id, req), jobs := y.jobs[id := job]);
    RegisterLeads(x, sights, 5, y, id, req);
    EnqueueLeads(x, sights, 6, z, id, req, full);
    if full {
      assert y.jobs[id := job] - {id} == y.jobs;
      ReleaseLeads(x, sights, 7, z.(submit := Rejected(id, req), jobs := y.jobs), id, req, !faults.remove);
    } else {
      RestsInCalls(x, sights, 7, z.(submit := Ready, queue := y.queue + [id]), [id], req, full, faults);
    }
  }

  lemma SyncLocal(x: Process, sights: seq<Sight>, y: Process, id: nat, req: Request, full: bool, faults: Faults)
    requires Calls(sights, req, full, faults) && Stands(x, sights, 2, y, []) && y.Up? && y.submit == Marked(id, req)
    ensures if faults.write || faults.sync then Stands(x, sights, 8, y.(submit := Ready), [])
            else Stands(x, sights, 4, y.(submit := Synced(id, req)), [])
  {
    MarkerCall(x, sights, 2, y, !faults.write, Written(id, req), req, full, faults);
    if !faults.write {
      MarkerCall(x, sights, 3, y.(submit := Written(id, req)), !faults.sync, Synced(id, req), req, full, faults);
    }
  }

  /** Writing, syncing and closing the marker. */
  lemma WriteLocal(x: Process, sights: seq<Sight>, y: Process, id: nat, req: Request, full: bool, faults: Faults)
    requires Calls(sights, req, full, faults) && Stands(x, sights, 2, y, []) && y.Up? && y.submit == Marked(id, req)
    ensures if faults.write || faults.sync || faults.close then Stands(x, sights, 8, y.(submit := Ready), [])
            else Stands(x, sights, 5, y.(submit := Reserved(id, req)), [])
  {
    SyncLocal(x, sights, y, id, req, full, faults);
    if !faults.write && !faults.sync {
      MarkerCall(x, sights, 4, y.(submit := Synced(id, req)), !faults.close, Reserved(id, req), req, full, faults);
    }
  }

  /** The exclusive creation. */
  lemma CreateLocal(x: Process, sights: seq<Sight>, y: Process, id: nat, req: Request, full: bool, faults: Faults)
    requires Calls(sights, req, full, faults) && Stands(x, sights, 1, y, []) && y.Up? && y.submit == Creating(id, req)
    ensures if faults.create then Stands(x, sights, 8, y.(submit := Ready), [])
            else if sights[1].present then Stands(x, sights, 8, y.(submit := Ready, consumed := true), [])
            else Stands(x, sights, 2, y.(submit := Marked(id, req), consumed := true, owner := Some(id)), [])
  {
    CreateLeads(x, sights, 1, y, !faults.create);
    if faults.create {
      RestsInCalls(x, sights, 2, y.(submit := Ready), [], req, full, faults);
    } else if sights[1].present {
      RestsInCalls(x, sights, 2, y.(submit := Ready, consumed := true), [], req, full, faults);
    }
  }

  lemma BeginLocal(x: Process, sights: seq<Sight>, req: Request, full: bool, faults: Faults)
    requires x.Up? && x.submit.Ready? && Answers(x.jobs, req, Fresh) && Calls(sights, req, full, faults)
    ensures if x.consumed then Stands(x, sights, 8, x, [])
            else Stands(x, sights, 1, x.(submit := Creating(sights[0].next, req)), [])
  {
    assert sights[..0] == [];
    BeginLeads(x, sights, 0, x, req);
    if x.consumed {
      RestsInCalls(x, sights, 1, x, [], req, full, faults);
    }
  }

  /** Everything after the creation of the marker. */
  lemma MarkedLocal(x: Process, sights: seq<Sight>, y: Process, id: nat, req: Request, full: bool, faults: Faults)
    requires Calls(sights, req, full, faults) && Stands(x, sights, 2, y, []) && y.Up? && y.submit == Marked(id, req)
    requires id !in y.jobs && y.consumed && y.owner == Some(id)
    ensures var job := Job(req, req, Queued, false, false);
            if faults.write || faults.sync || faults.close then Stands(x, sights, 8, y.(submit := Ready), [])
            else if !full then
              Stands(x, sights, 8, y.(submit := Ready, jobs := y.jobs[id := job], queue := y.queue + [id]), [id])
            else
              Stands(x, sights, 8, if faults.remove then y.(submit := Ready)
                                   else y.(submit := Ready, consumed := false, owner := None), [])
  {
    WriteLocal(x, sights, y, id, req, full, faults);
    if !faults.write && !faults.sync && !faults.close {
      QueueLocal(x, sights, y.(submit := Reserved(id, req)), id, req, full, faults);
    }
  }

  /** A submission's calls come to what its contract says, with the marker as it stood at the creation. */
  lemma SubmissionLocal(x: Process, sights: seq<Sight>, req: Request, capacity: nat, faults: Faults)
    requires x.Up? && x.submit.Ready? && Answers(x.jobs, req, Fresh)
             && Calls(sights, req, |x.queue| >= capacity, faults)
    requires sights[0].next !in x.jobs
    ensures var c := Core(sights[1].present, x.consumed, x.owner, x.jobs, x.queue);
            var (d, r) := Submitting(c, req, sights[0].next, capacity, faults);
            Stands(x, sights, 8, Up(d.consumed, d.owner, d.jobs, d.queue, Ready),
                   if r.Ok? then [sights[0].next] else [])
  {
    var id, full := sights[0].next, |x.queue| >= capacity;
    BeginLocal(x, sights, req, full, faults);
    if !x.consumed {
      CreateLocal(x, sights, x.(submit := Creating(id, req)), id, req, full, faults);
      if !faults.create && !sights[1].present {
        var y := x.(submit := Marked(id, req), consumed := true, owner := Some(id));
        MarkedLocal(x, sights, y, id, req, full, faults);
      }
    }
  }

  // ------------------------------------------------------- job numbers are new

  ghost predicate Below(jobs: Jobs, next: nat) {
    forall id :: id in jobs ==> id < next
  }

  ghost predicate ProcessNumbered(x: Process, next: nat) {
    x.Up? ==> Below(x.jobs, next) && (x.submit.Ready? || x.submit.id < next)
  }

  ghost predicate Numbered(s: State) {
    Below(s.disk, s.next) && forall p :: ProcessNumbered(At(s, p), s.next)
  }

  /** A step of one process creates numbers below the next one only. */
  ghost predicate StillNumbered(s: State, t: State, p: nat) {
    && t.next >= s.next && Below(t.disk, t.next) && ProcessNumbered(At(t, p), t.next)
    && forall q :: q != p ==> At(t, q) == At(s, q)
  }

  lemma JobNumbered(s: State, p: nat, event: Event)
    requires At(s, p).Up? && ProcessNumbered(At(s, p), s.next) && Below(s.disk, s.next)
    requires event.Take? || event.Fill? || event.Finish? || event.Register? || event.Enqueue?
    ensures StillNumbered(s, RunningStep(s, p, At(s, p), event), p)
  {
  }

  lemma RunningNumbered(s: State, p: nat, event: Event)
    requires At(s, p).Up? && ProcessNumbered(At(s, p), s.next) && Below(s.disk, s.next)
    ensures StillNumbered(s, RunningStep(s, p, At(s, p), event), p)
  {
    if event.Take? || event.Fill? || event.Finish? || event.Register? || event.Enqueue? {
      JobNumbered(s, p, event);
    }
  }

  lemma StepNumbered(s: State, p: nat, event: Event)
    requires Numbered(s)
    ensures Numbered(Step(s, p, event))
  {
    assert ProcessNumbered(At(s, p), s.next);
    var t := Step(s, p, event);
    if !event.PowerLoss? && At(s, p).Up? {
      RunningNumbered(s, p, event);
      forall q ensures ProcessNumbered(At(t, q), t.next) {
        assert ProcessNumbered(At(s, q), s.next);
      }
    } else {
      forall q ensures ProcessNumbered(At(t, q), t.next) {
        assert ProcessNumbered(At(s, q), s.next);
      }
    }
  }

  lemma {:induction false} RunNumbered(moves: seq<Move>)
    ensures Numbered(Run(moves))
  {
    if |moves| > 0 {
      var n := |moves| - 1;
      RunNumbered(moves[..n]);
      StepNumbered(Run(moves[..n]), moves[n].process, moves[n].event);
    }
  }

  lemma NumberGrows(s: State, p: nat, e: Event)
    ensures Step(s, p, e).next >= s.next
  {
  }

  lemma {:induction false} NextGrows(moves: seq<Move>, more: seq<Move>)
    ensures Run(moves + more).next >= Run(moves).next
    decreases |more|
  {
    if |more| == 0 {
      assert moves + more == moves;
    } else {
      var n := |more| - 1;
      NextGrows(moves, more[..n]);
      RunLonger(moves, more, n);
      NumberGrows(Run(moves + more[..n]), more[n].process, more[n].event);
    }
  }

  lemma {:induction false} SeenNumbers(moves: seq<Move>, p: nat, more: seq<Move>)
    ensures forall k :: 0 <= k < |Seen(moves, p, more)| ==> Seen(moves, p, more)[k].next >= Run(moves).next
    decreases |more|
  {
    if |more| > 0 {
      SeenNumbers(moves, p, more[..|more| - 1]);
      NextGrows(moves, more[..|more| - 1]);
    }
  }

  /** A SubmitBuild call among any moves of other processes, short of a power loss: it leaves its own builder exactly as
      the method's contract says, with the marker as it stood when the call tried to create it; it is admitted exactly
      when the contract says so; and while the builder counts as the owner the marker is there and is its own. */
  lemma SubmitBuildIsARun(moves: seq<Move>, p: nat, req: Request, capacity: nat, faults: Faults, more: seq<Move>)
    requires At(Run(moves), p).Up? && At(Run(moves), p).submit.Ready? && Answers(At(Run(moves), p).jobs, req, Fresh)
    requires Powered(more) && Own(p, more) == Submission(req, |At(Run(moves), p).queue| >= capacity, faults)
    ensures var x, s, t := At(Run(moves), p), Run(moves), Run(moves + more); var sights := Seen(moves, p, more);
            var c := Core(sights[1].present, x.consumed, x.owner, x.jobs, x.queue);
            var (d, r) := Submitting(c, req, sights[0].next, capacity, faults);
            && At(t, p) == Up(d.consumed, d.owner, d.jobs, d.queue, Ready)
            && AdmissionsOf(p, t.admitted) == AdmissionsOf(p, s.admitted) + (if r.Ok? then [sights[0].next] else [])
            && (d.owner.Some? ==> t.marker.Present? && t.marker.creator == p)
  {
    var x, sights := At(Run(moves), p), Seen(moves, p, more);
    assert AllSubmit(Own(p, more));
    RunIsLocal(moves, p, more);
    NumberIsNew(moves, p, more);
    SubmissionLocal(x, sights, req, capacity, faults);
    var (d, r) := Submitting(Core(sights[1].present, x.consumed, x.owner, x.jobs, x.queue), req, sights[0].next,
                             capacity, faults);
    LedStands(x, AdmissionsOf(p, Run(moves).admitted), sights, Run(moves + more), p,
              Up(d.consumed, d.owner, d.jobs, d.queue, Ready), if r.Ok? then [sights[0].next] else []);
    OwnerHasMarker(moves + more, p);
  }

  lemma LedStands(
    x: Process, before: seq<nat>, sights: seq<Sight>, t: State, p: nat, y: Process, jobs: seq<nat>)
    requires Led(x, before, sights, t, p) && |sights| == 8 && Stands(x, sights, 8, y, jobs)
    ensures At(t, p) == y && AdmissionsOf(p, t.admitted) == before + jobs
  {
    assert sights[..8] == sights;
  }

  lemma NumberIsNew(moves: seq<Move>, p: nat, more: seq<Move>)
    requires At(Run(moves), p).Up?
    ensures forall k :: 0 <= k < |Seen(moves, p, more)| ==> Seen(moves, p, more)[k].next !in At(Run(moves), p).jobs
  {
    RunNumbered(moves);
    SeenNumbers(moves, p, more);
    assert ProcessNumbered(At(Run(moves), p), Run(moves).next);
  }

  lemma OwnerHasMarker(moves: seq<Move>, p: nat)
    ensures var s := Run(moves);
            At(s, p).Up? && At(s, p).owner.Some? ==> s.marker.Present? && s.marker.creator == p
  {
    RunSafe(moves);
    SafeAt(Run(moves), p);
  }

  class MarkerFile {
    var present: bool
    constructor () ensures !present { present := false; }
  }

  class LocalBuilder {
    const marker: MarkerFile
    const capacity: nat
    var consumed: bool
    var owner: Option<nat>
    var jobs: Jobs
    var queue: seq<nat>

    /** nativeReuseState under the single-use policy: any marker, readable or not, taints the builder. */
    constructor (marker: MarkerFile, capacity: nat, readable: bool, saved: Jobs)
      ensures this.marker == marker && this.capacity == capacity
      ensures consumed == (marker.present || !readable)
      ensures jobs == Reconciled(saved) && queue == []
    {
      this.marker, this.capacity := marker, capacity;
      consumed := marker.present || !readable;
      owner := None;
      jobs := Reconciled(saved);
      queue := [];
    }

    ghost function View(): Core
      reads this, marker
    {
      Core(marker.present, consumed, owner, jobs, queue)
    }

    /** reserveNativeLifetime: success means this call created the marker; a marker once created taints the builder
        even if writing it fails. */
    method Reserve(id: nat, faults: Faults) returns (r: Result<bool, SubmitError>)
      modifies this`consumed, this`owner, marker
      ensures r.Ok? <==> !old(consumed) && !old(marker.present)
                         && !faults.create && !faults.write && !faults.sync && !faults.close
      ensures r.Err? ==> r.error == if old(consumed) || (!faults.create && old(marker.present)) then Draining
              else Storage
      ensures r.Ok? ==> r.value
      ensures marker.present == (old(marker.present) || (!old(consumed) && !faults.create))
      ensures consumed == (old(consumed) || !faults.create)
      ensures owner == if old(consumed) || old(marker.present) || faults.create then old(owner) else Some(id)
    {
      if consumed {
        return Err(Draining);
      }
      if faults.create {
        return Err(Storage);
      }
      if marker.present {
        consumed := true;
        return Err(Draining);
      }
      marker.present := true;
      consumed := true;
      owner := Some(id);
      if faults.write || faults.sync || faults.close {
        return Err(Storage);
      }
      return Ok(true);
    }

    method Release(id: nat, faults: Faults)
      modifies this`consumed, this`owner, marker
      ensures if old(consumed) && old(owner) == Some(id) && !faults.remove
              then !consumed && owner == None && !marker.present
              else consumed == old(consumed) && owner == old(owner) && marker.present == old(marker.present)
    {
      if !consumed || owner != Some(id) || faults.remove {
        return;
      }
      marker.present := false;
      consumed := false;
      owner := None;
    }

    /** The redelivery scan, in map order. */
    method Lookup(req: Request) returns (answer: Answer)
      ensures Answers(jobs, req, answer)
    {
      var left := jobs.Keys;
      while left != {} && req.executionId != ""
        invariant left <= jobs.Keys
        invariant forall id :: id in jobs && id !in left ==> !SameExecution(jobs[id], req)
        decreases left
      {
        var id :| id in left;
        if jobs[id].request.executionId == req.executionId {
          return if jobs[id].request == req then Redelivered(id) else Reused;
        }
        left := left - {id};
      }
      return Fresh;
    }

    /** SubmitBuild, for a request that passed validation and a new job ID. */
    method SubmitBuild(req: Request, id: nat, faults: Faults) returns (r: Result<nat, SubmitError>)
      requires id !in jobs
      modifies this, marker
      ensures !Answers(old(jobs), req, Fresh) ==>
                View() == old(View()) && Answers(old(jobs), req, if r.Ok? then Redelivered(r.value) else Reused)
      ensures !Answers(old(jobs), req, Fresh) && r.Err? ==> r.error.ReusedExecution?
      ensures Answers(old(jobs), req, Fresh) ==> (View(), r) == Submitting(old(View()), req, id, capacity, faults)
      ensures Answers(old(jobs), req, Fresh) ==>
                (r.Ok? <==> !old(consumed) && !old(marker.present) && |old(queue)| < capacity
                            && !faults.create && !faults.write && !faults.sync && !faults.close)
      ensures Answers(old(jobs), req, Fresh) && r.Err? ==> jobs == old(jobs) && queue == old(queue)
      ensures r == Err(QueueFull) ==> (marker.present <==> faults.remove) && (consumed <==> faults.remove)
      ensures r == Err(Storage) && !faults.create ==> marker.present && consumed && owner == Some(id)
      ensures r == Err(Draining) ==> consumed && marker.present == old(marker.present) && owner == old(owner)
      ensures old(marker.present) ==> marker.present
    {
      var answer := Lookup(req);
      if answer.Redelivered? {
        return Ok(answer.id);
      }
      if answer.Reused? {
        return Err(ReusedExecution);
      }
      var reserved := Reserve(id, faults);
      if reserved.Err? {
        return Err(reserved.error);
      }
      ghost var before := jobs;
      jobs := jobs[id := Job(req, req, Queued, false, false)];
      if |queue| < capacity {
        queue := queue + [id];
        return Ok(id);
      }
      jobs := jobs - {id};
      assert jobs == before;
      Release(id, faults);
      return Err(QueueFull);
    }
  }
}
