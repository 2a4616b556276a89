/** The provisioning job queue: worker processes claim a job, run its six steps, retry
    with bounded attempts, and may die at any point; a reconciler resets rows whose worker
    looks dead.  (backend/internal/jobs/provisioner.go, reconciler.go and
    backend/internal/db/queries.go)

    The row statements and the program of one worker are given first.  The state machine
    then lets any number of workers interleave on one job row; rows do not interact. */
module Jobs {
  import opened Options
  import opened Sets

  datatype JobStatus = Pending | Running | Completed | Failed | Dead

  /** A row of provisioning_jobs; `step` is an index into the six steps. */
  datatype Job = Job(status: JobStatus, step: Option<nat>, attempts: nat, maxAttempts: nat)

  const STEPS: nat := 6
  const CREATE_SERVER: nat := 1

  predicate Claimable(job: Job) {
    job.status in {Pending, Failed} && job.attempts < job.maxAttempts
  }

  function ClaimRow(job: Job): Job { job.(status := Running, attempts := job.attempts + 1) }

  /** The two updates of reconcileStaleRunningJobs on one stale row. */
  function ResetRow(job: Job): Job {
    if job.status != Running then job
    else if job.attempts < job.maxAttempts then job.(status := Failed)
    else job.(status := Dead)
  }

  // ---------------------------------------------------------------------------
  // The program of one worker

  /** Where a worker is inside Execute. */
  datatype Point =
    | WriteStep(i: nat) | WriteInstance(i: nat)
    | Guard | Create | Record            // inside stepCreateServer
    | Perform(i: nat) | Report(i: nat)
    | Finish | Stopped

  /** What happens next there; `ok` is the outcome of the call. */
  datatype Event =
    | StepWritten(ok: bool) | InstanceWritten(ok: bool)
    | Skipped | NotRecorded | ServerCreated(ok: bool) | ServerRecorded(ok: bool)
    | Performed(ok: bool) | Reported(ok: bool) | Finished(ok: bool)

  /** Execute starts at the recorded step, or at the first one. */
  function Start(job: Job): Point {
    if job.step.Some? && job.step.value < STEPS then WriteStep(job.step.value) else WriteStep(0)
  }

  function NextStep(i: nat): Point {
    if i + 1 < STEPS then WriteStep(i + 1) else Finish
  }

  /** One step of Execute; None when the event cannot happen there. */
  function Advance(at: Point, e: Event): Option<Point> {
    match (at, e)
    case (WriteStep(i), StepWritten(ok)) => Some(if ok then WriteInstance(i) else Stopped)
    case (WriteInstance(i), InstanceWritten(ok)) =>
      Some(if !ok then Stopped else if i == CREATE_SERVER then Guard else Perform(i))
    case (Guard, Performed(ok)) => if ok then None else Some(Report(CREATE_SERVER))
    case (Guard, Skipped) => Some(NextStep(CREATE_SERVER))
    case (Guard, NotRecorded) => Some(Create)
    case (Create, ServerCreated(ok)) => Some(if ok then Record else Report(CREATE_SERVER))
    case (Record, ServerRecorded(ok)) => Some(if ok then Perform(CREATE_SERVER) else Report(CREATE_SERVER))
    case (Perform(i), Performed(ok)) => Some(if ok then NextStep(i) else Report(i))
    case (Report(i), Reported(_)) => Some(Stopped)
    case (Finish, Finished(_)) => Some(Stopped)
    case _ => None
  }

  /** What the event writes into the job row.  handleStepError decides by the attempt
      number the worker was given when it claimed the job, not by the row. */
  function RowEffect(job: Job, attempt: nat, at: Point, e: Event): Job {
    match (at, e)
    case (WriteStep(i), StepWritten(true)) => job.(status := Running, step := Some(i))
    case (Report(i), Reported(true)) =>
      if attempt >= job.maxAttempts then job.(status := Dead, step := Some(i)) else job.(status := Failed)
    case (Finish, Finished(true)) => job.(status := Completed, step := Some(STEPS - 1))
    case _ => job
  }

  // ---------------------------------------------------------------------------
  // Any number of workers on one job

  /** A worker holds the attempt number it was given and its place in Execute. */
  datatype Worker = Worker(attempt: nat, at: Point)

  datatype Mark = Claim | FailedWrite | Other

  /** The job row, whether the instance row records a server, the live workers, and what
      an observer has seen: the steps that have succeeded in some attempt, the step
      functions started (how many, and by attempt), the steps whose status was written into
      the instance row, the servers created and lost, the writes of the job row; and whether
      a worker has marked the instance active, or the reconciler the instance or the job. */
  datatype State = State(job: Job, recorded: bool, workers: map<nat, Worker>,
                         succeeded: set<nat>, executions: nat, started: set<(nat, nat)>, entered: set<nat>,
                         created: nat, lost: nat, marks: seq<Mark>,
                         markedActive: bool, foundRunning: bool, adopted: bool)

  datatype Action =
    | ClaimJob(w: nat)
    | Work(w: nat, e: Event)
    | Crash(w: nat)
    | ResetStale
    | ActivateRunning  // reconcileStaleProvisioning marks an instance found running active
    | AdoptRunning     // and closes its job

  function Init(maxAttempts: nat): State {
    State(Job(Pending, Some(0), 0, maxAttempts), false, map[], {}, 0, {}, {}, 0, 0, [], false, false, false)
  }

  /** The event is one the stores allow: the guard of stepCreateServer tells the truth
      about the instance row. */
  predicate Truthful(s: State, e: Event) {
    (e.Skipped? ==> s.recorded) && (e.NotRecorded? ==> !s.recorded)
  }

  function WorkStep(s: State, w: nat, e: Event): Option<State>
    requires w in s.workers
  {
    var worker := s.workers[w];
    var next := Advance(worker.at, e);
    if next.None? || !Truthful(s, e) then None
    else
      var job := RowEffect(s.job, worker.attempt, worker.at, e);
      Some(s.(
        job := job,
        recorded := s.recorded || e == ServerRecorded(true),
        workers := if next.value == Stopped then s.workers - {w}
                   else s.workers[w := Worker(worker.attempt, next.value)],
        succeeded := s.succeeded + Succeeds(worker.at, e),
        executions := s.executions + |Starts(worker, next.value)|,
        started := s.started + Starts(worker, next.value),
        created := s.created + (if e == ServerCreated(true) then 1 else 0),
        lost := s.lost + (if e == ServerRecorded(false) then 1 else 0),
        marks := s.marks + [if worker.at.Report? && e == Reported(true) && job.status == Failed
                            then FailedWrite else Other],
        entered := s.entered + Enters(worker.at, e),
        markedActive := s.markedActive || (worker.at == WriteInstance(STEPS - 1) && e == InstanceWritten(true))))
  }

  /** The step whose status has just been written into the instance row. */
  function Enters(at: Point, e: Event): set<nat> {
    if at.WriteInstance? && e == InstanceWritten(true) then {at.i} else {}
  }

  /** reconcileStaleProvisioning looks at instances that are bootstrapping or installing the
      agent, the statuses of steps 2 to 4, and whose row names a server. */
  predicate Adoptable(s: State) {
    s.recorded && (2 in s.entered || 3 in s.entered || 4 in s.entered)
  }

  /** The step whose function has just returned without an error. */
  function Succeeds(at: Point, e: Event): set<nat> {
    match (at, e)
    case (Guard, Skipped) => {CREATE_SERVER}
    case (Perform(i), Performed(true)) => {i}
    case _ => {}
  }

  /** The step whose function is being entered, tagged with the attempt. */
  function Starts(worker: Worker, next: Point): set<(nat, nat)> {
    match (worker.at, next)
    case (WriteInstance(i), Guard) => {(worker.attempt, i)}
    case (WriteInstance(i), Perform(_)) => {(worker.attempt, i)}
    case _ => {}
  }

  function Next(s: State, a: Action): Option<State> {
    match a
    case ClaimJob(w) =>
      if w in s.workers || !Claimable(s.job) then None
      else Some(s.(job := ClaimRow(s.job),
                   workers := s.workers[w := Worker(s.job.attempts + 1, Start(s.job))],
                   marks := s.marks + [Claim]))
    case Work(w, e) => if w in s.workers then WorkStep(s, w, e) else None
    case Crash(w) =>
      if w !in s.workers then None
      else Some(s.(workers := s.workers - {w},
                   lost := s.lost + (if s.workers[w].at == Record then 1 else 0)))
    case ResetStale =>
      if s.job.status != Running then None
      else Some(s.(job := ResetRow(s.job),
                   marks := s.marks + [if ResetRow(s.job).status == Failed then FailedWrite else Other]))
    case ActivateRunning =>
      if !Adoptable(s) || s.foundRunning then None else Some(s.(foundRunning := true))
    case AdoptRunning =>
      if !Adoptable(s) || s.job.status !in {Pending, Running} then None
      else Some(s.(job := s.job.(status := Completed), adopted := true, marks := s.marks + [Other]))
  }

  function Run(s: State, actions: seq<Action>): Option<State>
    decreases |actions|
  {
    if actions == [] then Some(s)
    else
      var last := |actions| - 1;
      var before := Run(s, actions[..last]);
      if before.None? then None else Next(before.value, actions[last])
  }

  // ---------------------------------------------------------------------------
  // What every interleaving keeps, live workers after a reset included

  /** The step index a worker has reached: all earlier step functions have succeeded. */
  function Reached(at: Point): nat {
    match at
    case WriteStep(i) => i
    case WriteInstance(i) => i
    case Perform(i) => i
    case Report(i) => i
    case Guard => CREATE_SERVER
    case Create => CREATE_SERVER
    case Record => CREATE_SERVER
    case Finish => STEPS
    case Stopped => 0
  }

  /** The step whose function a worker will enter next. */
  function Upcoming(at: Point): nat {
    match at
    case WriteStep(i) => i
    case WriteInstance(i) => i
    case _ => Reached(at) + 1
  }

  ghost predicate UpTo(s: set<nat>, n: nat) {
    forall j :: 0 <= j < n ==> j in s
  }

  /** No claim so far, or a write of `failed` since the last one. */
  predicate Armed(marks: seq<Mark>) {
    if marks == [] then true
    else if marks[|marks| - 1] == Claim then false
    else marks[|marks| - 1] == FailedWrite || Armed(marks[..|marks| - 1])
  }

  function Claims(marks: seq<Mark>): nat {
    if marks == [] then 0
    else Claims(marks[..|marks| - 1]) + (if marks[|marks| - 1] == Claim then 1 else 0)
  }

  predicate Separated(marks: seq<Mark>) {
    marks != [] ==>
      && Separated(marks[..|marks| - 1])
      && (marks[|marks| - 1] == Claim ==> Armed(marks[..|marks| - 1]))
  }

  ghost predicate WorkerInv(s: State, w: nat)
    requires w in s.workers
  {
    var worker := s.workers[w];
    && worker.at != Stopped
    && Reached(worker.at) <= STEPS && (worker.at != Finish ==> Reached(worker.at) < STEPS)
    && UpTo(s.succeeded, Reached(worker.at))
    && 1 <= worker.attempt <= s.job.attempts
    && (forall i :: Upcoming(worker.at) <= i ==> (worker.attempt, i) !in s.started)
  }

  ghost predicate Inv(s: State) {
    RowInv(s) && StartedInv(s) && WorkersInv(s)
  }

  /** The row: its attempts, its step and its status agree with what has happened. */
  ghost predicate RowInv(s: State) {
    && s.job.attempts == Claims(s.marks) <= s.job.maxAttempts
    && Separated(s.marks)
    && (s.job.status in {Pending, Failed} ==> Armed(s.marks))
    && (s.job.step.Some? ==> s.job.step.value < STEPS && UpTo(s.succeeded, s.job.step.value))
    && (s.markedActive ==> UpTo(s.succeeded, STEPS - 1))
  }

  ghost predicate StartedInv(s: State) {
    && s.executions == |s.started|
    && (forall p :: p in s.started ==> 1 <= p.0 <= s.job.attempts && p.1 < STEPS)
  }

  ghost predicate WorkersInv(s: State) {
    && (forall w :: w in s.workers ==> WorkerInv(s, w))
    && (forall v, w :: v in s.workers && w in s.workers && v != w ==>
          s.workers[v].attempt != s.workers[w].attempt)
  }

  /** One event only moves a worker on: past a step only if that step succeeded, and into
      a step function only once. */
  lemma PointMoves(worker: Worker, e: Event)
    requires Advance(worker.at, e).Some? && worker.at != Stopped
    requires Reached(worker.at) <= STEPS && (worker.at != Finish ==> Reached(worker.at) < STEPS)
    ensures var next := Advance(worker.at, e).value;
      && Reached(next) <= STEPS && (next != Finish ==> Reached(next) < STEPS)
      && (next != Stopped ==>
            && (Reached(next) <= Reached(worker.at)
                || (Reached(next) == Reached(worker.at) + 1 && Reached(worker.at) in Succeeds(worker.at, e)))
            && Upcoming(next) >= Upcoming(worker.at))
      && (Starts(worker, next) == {}
          || (Starts(worker, next) == {(worker.attempt, Upcoming(worker.at))}
              && Upcoming(worker.at) < STEPS && Upcoming(next) == Upcoming(worker.at) + 1))
  {
  }

  /** The worker that moves has all the steps behind it. */
  lemma MovedWorker(s: State, w: nat, e: Event)
    requires w in s.workers && WorkerInv(s, w) && WorkStep(s, w, e).Some?
    ensures var s' := WorkStep(s, w, e).value;
      && (w in s'.workers ==> WorkerInv(s', w) && s'.workers[w].attempt == s.workers[w].attempt)
      && 1 <= s.workers[w].attempt <= s.job.attempts
  {
    hide Claims, Separated, Armed, Advance, RowEffect, Starts, Succeeds, Reached, Upcoming, Enters;
    PointMoves(s.workers[w], e);
    RowKeepsAttempts(s.job, s.workers[w].attempt, s.workers[w].at, e);
  }

  /** And it enters each step once per attempt. */
  lemma EntersOnce(s: State, w: nat, e: Event)
    requires w in s.workers && WorkerInv(s, w) && WorkStep(s, w, e).Some?
    ensures var s' := WorkStep(s, w, e).value;
      && Starts(s.workers[w], Advance(s.workers[w].at, e).value) !! s.started
      && (forall p :: p in s'.started && p !in s.started ==> p.0 == s.workers[w].attempt && p.1 < STEPS)
  {
    hide Advance, RowEffect, Starts, Succeeds, Reached, Upcoming, Enters, UpTo;
    PointMoves(s.workers[w], e);
  }

  lemma RowKeepsAttempts(job: Job, attempt: nat, at: Point, e: Event)
    ensures RowEffect(job, attempt, at, e).attempts == job.attempts
    ensures RowEffect(job, attempt, at, e).maxAttempts == job.maxAttempts
  {
  }

  /** A worker records no step beyond the one it has reached, and only its error report
      makes the row claimable again. */
  lemma RowWrites(job: Job, attempt: nat, at: Point, e: Event)
    requires Advance(at, e).Some? && Reached(at) <= STEPS && (at != Finish ==> Reached(at) < STEPS)
    ensures var job' := RowEffect(job, attempt, at, e);
      && job'.attempts == job.attempts && job'.maxAttempts == job.maxAttempts
      && (job'.step == job.step || (job'.step.Some? && job'.step.value < STEPS && job'.step.value <= Reached(at)))
      && (job'.status in {Pending, Failed} ==>
            job' == job || (at.Report? && e == Reported(true) && job'.status == Failed))
      && (e == Finished(true) ==> at == Finish)
      && (job'.status == Completed ==> job'.status == job.status || e == Finished(true))
  {
  }

  /** What the moving worker writes into the row is backed by steps that succeeded. */
  lemma WrittenRow(s: State, w: nat, e: Event)
    requires w in s.workers && WorkerInv(s, w) && WorkStep(s, w, e).Some?
    requires s.job.step.Some? ==> s.job.step.value < STEPS && UpTo(s.succeeded, s.job.step.value)
    requires s.markedActive ==> UpTo(s.succeeded, STEPS - 1)
    requires s.job.status in {Pending, Failed} ==> Armed(s.marks)
    requires Separated(s.marks)
    ensures var s' := WorkStep(s, w, e).value;
      && (s'.job.step.Some? ==> s'.job.step.value < STEPS && UpTo(s'.succeeded, s'.job.step.value))
      && (s'.markedActive ==> UpTo(s'.succeeded, STEPS - 1))
      && s'.job.attempts == s.job.attempts && s'.job.maxAttempts == s.job.maxAttempts
      && Claims(s'.marks) == Claims(s.marks) && Separated(s'.marks)
      && (s'.job.status in {Pending, Failed} ==> Armed(s'.marks))
  {
    hide Advance, RowEffect, Starts, Succeeds, Claims, Armed, Separated, Enters;
    RowWrites(s.job, s.workers[w].attempt, s.workers[w].at, e);
    MarkMore(s.marks, Other);
    MarkMore(s.marks, FailedWrite);
  }

  /** The others are not disturbed: attempts only grow, and the steps entered carry the
      moving worker's own attempt number. */
  lemma BystanderWorker(s: State, s': State, v: nat, attempt: nat)
    requires v in s.workers && WorkerInv(s, v) && v in s'.workers && s'.workers[v] == s.workers[v]
    requires s.succeeded <= s'.succeeded && s.job.attempts <= s'.job.attempts
    requires s.workers[v].attempt != attempt
    requires forall p :: p in s'.started && p !in s.started ==> p.0 == attempt
    ensures WorkerInv(s', v)
  {
  }

  lemma WorkKeepsWorkers(s: State, w: nat, e: Event)
    requires WorkersInv(s) && w in s.workers && WorkStep(s, w, e).Some?
    ensures WorkersInv(WorkStep(s, w, e).value)
  {
    hide Advance, RowEffect, WorkerInv, UpTo, Truthful, Succeeds, Starts, Enters;
    var s' := WorkStep(s, w, e).value;
    MovedWorker(s, w, e);
    EntersOnce(s, w, e);
    RowKeepsAttempts(s.job, s.workers[w].attempt, s.workers[w].at, e);
    forall v | v in s'.workers ensures WorkerInv(s', v) {
      if v != w {
        BystanderWorker(s, s', v, s.workers[w].attempt);
      }
    }
  }

  lemma WorkKeepsStarted(s: State, w: nat, e: Event)
    requires StartedInv(s) && w in s.workers && WorkerInv(s, w) && WorkStep(s, w, e).Some?
    ensures StartedInv(WorkStep(s, w, e).value)
  {
    hide Advance, RowEffect, WorkerInv, Truthful, Succeeds, Starts, Enters;
    EntersOnce(s, w, e);
    MovedWorker(s, w, e);
    RowKeepsAttempts(s.job, s.workers[w].attempt, s.workers[w].at, e);
  }

  lemma WorkKeepsInv(s: State, w: nat, e: Event)
    requires Inv(s) && w in s.workers && WorkStep(s, w, e).Some?
    ensures Inv(WorkStep(s, w, e).value)
    ensures WorkStep(s, w, e).value.job.maxAttempts == s.job.maxAttempts
  {
    hide WorkStep, StartedInv, WorkerInv, UpTo, Separated, Armed, Claims;
    assert WorkerInv(s, w);
    hide WorkersInv;
    WrittenRow(s, w, e);
    WorkKeepsStarted(s, w, e);
    WorkKeepsWorkers(s, w, e);
  }

  lemma ClaimKeepsInv(s: State, w: nat)
    requires Inv(s) && Next(s, ClaimJob(w)).Some?
    ensures Inv(Next(s, ClaimJob(w)).value)
    ensures Next(s, ClaimJob(w)).value.job.maxAttempts == s.job.maxAttempts
  {
    hide Claims, Armed, Separated;
    MarkMore(s.marks, Claim);
    var s' := Next(s, ClaimJob(w)).value;
    assert WorkerInv(s', w);
    forall v | v in s.workers ensures WorkerInv(s', v) {
      assert WorkerInv(s, v);
      BystanderWorker(s, s', v, s.job.attempts + 1);
    }
    hide WorkerInv, UpTo;
  }

  /** Nothing but the row, its log and the workers that are left. */
  predicate WorkersKept(s: State, s': State) {
    && s'.workers.Keys <= s.workers.Keys && (forall v :: v in s'.workers ==> s'.workers[v] == s.workers[v])
    && s'.succeeded == s.succeeded && s'.started == s.started && s'.executions == s.executions
    && s'.job.attempts == s.job.attempts
  }

  lemma KeptWorker(s: State, s': State, v: nat)
    requires WorkersKept(s, s') && v in s'.workers && WorkerInv(s, v)
    ensures WorkerInv(s', v)
  {
  }

  /** The reconciler's writes of the row. */
  lemma OtherStepKeepsRow(s: State, a: Action)
    requires RowInv(s) && Next(s, a).Some? && !a.Work? && !a.ClaimJob?
    ensures RowInv(Next(s, a).value)
    ensures Next(s, a).value.job.maxAttempts == s.job.maxAttempts
  {
    MarkMore(s.marks, Other);
    MarkMore(s.marks, FailedWrite);
    hide UpTo, WorkStep, Adoptable, Claims, Armed, Separated;
  }

  /** One more write in the log. */
  lemma MarkMore(marks: seq<Mark>, m: Mark)
    ensures Claims(marks + [m]) == Claims(marks) + (if m == Claim then 1 else 0)
    ensures Separated(marks + [m]) <==> Separated(marks) && (m == Claim ==> Armed(marks))
    ensures Armed(marks + [m]) <==> m == FailedWrite || (m == Other && Armed(marks))
  {
    assert (marks + [m])[..|marks|] == marks;
  }

  lemma OtherStepKeepsWorkers(s: State, a: Action)
    requires WorkersInv(s) && Next(s, a).Some? && !a.Work? && !a.ClaimJob?
    ensures WorkersInv(Next(s, a).value) && WorkersKept(s, Next(s, a).value)
  {
    hide WorkerInv, UpTo, WorkStep, Adoptable;
    var s' := Next(s, a).value;
    forall v | v in s'.workers ensures WorkerInv(s', v) {
      KeptWorker(s, s', v);
    }
  }

  lemma OtherStepKeepsInv(s: State, a: Action)
    requires Inv(s) && Next(s, a).Some? && !a.Work? && !a.ClaimJob?
    ensures Inv(Next(s, a).value)
    ensures Next(s, a).value.job.maxAttempts == s.job.maxAttempts
  {
    hide Next, RowInv, WorkersInv;
    OtherStepKeepsRow(s, a);
    OtherStepKeepsWorkers(s, a);
  }

  lemma StepKeepsInv(s: State, a: Action)
    requires Inv(s) && Next(s, a).Some?
    ensures Inv(Next(s, a).value)
    ensures Next(s, a).value.job.maxAttempts == s.job.maxAttempts
  {
    hide Inv;
    if a.Work? {
      WorkKeepsInv(s, a.w, a.e);
    } else if a.ClaimJob? {
      ClaimKeepsInv(s, a.w);
    } else {
      OtherStepKeepsInv(s, a);
    }
  }

  lemma InitInv(maxAttempts: nat)
    ensures Inv(Init(maxAttempts))
  {
  }

  lemma {:induction false} RunKeepsInv(maxAttempts: nat, actions: seq<Action>)
    requires Run(Init(maxAttempts), actions).Some?
    ensures Inv(Run(Init(maxAttempts), actions).value)
    ensures Run(Init(maxAttempts), actions).value.job.maxAttempts == maxAttempts
    decreases |actions|
  {
    hide Inv, Next;
    if actions == [] {
      InitInv(maxAttempts);
    } else {
      var last := |actions| - 1;
      RunKeepsInv(maxAttempts, actions[..last]);
      StepKeepsInv(Run(Init(maxAttempts), actions[..last]).value, actions[last]);
    }
  }

  // ---------------------------------------------------------------------------
  // Main results for every interleaving

  lemma {:induction false} ArmedMeansFailedSinceClaim(marks: seq<Mark>, i: nat)
    requires Armed(marks) && i < |marks| && marks[i] == Claim
    ensures exists k :: i < k < |marks| && marks[k] == FailedWrite
  {
    var last := |marks| - 1;
    if marks[last] != FailedWrite {
      ArmedMeansFailedSinceClaim(marks[..last], i);
      var k :| i < k < last && marks[..last][k] == FailedWrite;
      assert marks[k] == FailedWrite;
    }
  }

  lemma {:induction false} SeparatedMeansFailedBetween(marks: seq<Mark>, i: nat, j: nat)
    requires Separated(marks) && i < j < |marks| && marks[i] == marks[j] == Claim
    ensures exists k :: i < k < j && marks[k] == FailedWrite
  {
    var last := |marks| - 1;
    if j < last {
      SeparatedMeansFailedBetween(marks[..last], i, j);
      var k :| i < k < j && marks[..last][k] == FailedWrite;
      assert marks[k] == FailedWrite;
    } else {
      ArmedMeansFailedSinceClaim(marks[..last], i);
      var k :| i < k < last && marks[..last][k] == FailedWrite;
      assert marks[k] == FailedWrite;
    }
  }

  /** Attempts counts the claims and is bounded, and between two claims of the job there
      is always a write of `failed`. */
  lemma ClaimsAreCountedAndSeparated(maxAttempts: nat, actions: seq<Action>)
    requires Run(Init(maxAttempts), actions).Some?
    ensures var s := Run(Init(maxAttempts), actions).value;
      && s.job.attempts == Claims(s.marks) <= maxAttempts
      && forall i, j :: 0 <= i < j < |s.marks| && s.marks[i] == Claim && s.marks[j] == Claim ==>
           exists k :: i < k < j && s.marks[k] == FailedWrite
  {
    RunKeepsInv(maxAttempts, actions);
    var s := Run(Init(maxAttempts), actions).value;
    forall i, j | 0 <= i < j < |s.marks| && s.marks[i] == Claim && s.marks[j] == Claim
      ensures exists k :: i < k < j && s.marks[k] == FailedWrite
    {
      SeparatedMeansFailedBetween(s.marks, i, j);
    }
  }

  /** What stands behind a completed job and an active instance. */
  ghost predicate Earned(s: State) {
    && (forall i :: i in s.entered ==> UpTo(s.succeeded, i))
    && (s.adopted || s.foundRunning ==> s.recorded && UpTo(s.succeeded, 2))
    && (s.job.status == Completed ==> UpTo(s.succeeded, STEPS) || s.adopted)
  }

  lemma WorkKeepsEarned(s: State, w: nat, e: Event)
    requires w in s.workers && WorkerInv(s, w) && Earned(s) && WorkStep(s, w, e).Some?
    ensures Earned(WorkStep(s, w, e).value)
  {
    hide Advance, RowEffect, Starts, Succeeds;
    RowWrites(s.job, s.workers[w].attempt, s.workers[w].at, e);
  }

  lemma {:induction false} RunsAreEarned(maxAttempts: nat, actions: seq<Action>)
    requires Run(Init(maxAttempts), actions).Some?
    ensures Earned(Run(Init(maxAttempts), actions).value)
    decreases |actions|
  {
    if actions != [] {
      var last := |actions| - 1;
      RunsAreEarned(maxAttempts, actions[..last]);
      RunKeepsInv(maxAttempts, actions[..last]);
      hide Run, WorkStep;
      var s := Run(Init(maxAttempts), actions[..last]).value;
      EarnedStep(s, actions[last]);
    }
  }

  lemma EarnedStep(s: State, a: Action)
    requires Inv(s) && Earned(s) && Next(s, a).Some?
    ensures Earned(Next(s, a).value)
  {
    hide Inv, WorkStep, WorkerInv;
    if a.Work? {
      WorkersAreConsistent(s, a.w);
      WorkKeepsEarned(s, a.w, a.e);
    }
  }

  lemma WorkersAreConsistent(s: State, w: nat)
    requires Inv(s) && w in s.workers
    ensures WorkerInv(s, w)
  {
  }

  /** A row that records step i is backed by step functions that returned success, whoever
      ran them and in which attempt.  So is a completed job by all six, and an active
      instance by the first five, unless the reconciler found the server running and closed
      the job or marked the instance itself; then a server is recorded and the first two
      steps, the selection of the provider and the creation of the server, succeeded. */
  lemma ProgressIsEarned(maxAttempts: nat, actions: seq<Action>)
    requires Run(Init(maxAttempts), actions).Some?
    ensures var s := Run(Init(maxAttempts), actions).value;
      && (s.job.step.Some? ==> UpTo(s.succeeded, s.job.step.value))
      && (s.job.status == Completed ==> UpTo(s.succeeded, STEPS) || s.adopted)
      && (s.markedActive ==> UpTo(s.succeeded, STEPS - 1))
      && (s.adopted || s.foundRunning ==> s.recorded && UpTo(s.succeeded, 2))
  {
    RunKeepsInv(maxAttempts, actions);
    RunsAreEarned(maxAttempts, actions);
  }

  /** A step completes a job without six successes if and only if it is the reconciler's. */
  lemma CompletionIsExact(s: State, a: Action)
    requires Inv(s) && s.job.status != Completed && Next(s, a).Some?
    ensures var t := Next(s, a).value;
      t.job.status == Completed && !UpTo(t.succeeded, STEPS) <==> a == AdoptRunning && !UpTo(s.succeeded, STEPS)
  {
    hide WorkStep, UpTo;
    if a.Work? {
      WorkersAreConsistent(s, a.w);
      hide Inv;
      WorkersFinishWithAll(s, a.w, a.e);
    }
  }

  lemma WorkersFinishWithAll(s: State, w: nat, e: Event)
    requires w in s.workers && WorkerInv(s, w) && WorkStep(s, w, e).Some? && s.job.status != Completed
    ensures var t := WorkStep(s, w, e).value; t.job.status == Completed ==> UpTo(t.succeeded, STEPS)
  {
    hide Advance, RowEffect, Starts, Succeeds, Enters;
    RowWrites(s.job, s.workers[w].attempt, s.workers[w].at, e);
  }

  ghost function Grid(n: nat): set<(nat, nat)> {
    set a: nat, i: nat | 1 <= a <= n && i < STEPS :: (a, i)
  }

  ghost function Row(n: nat, k: nat): set<(nat, nat)> {
    set i: nat | i < k :: (n, i)
  }

  lemma {:induction false} RowSize(n: nat, k: nat)
    ensures |Row(n, k)| == k
  {
    if k > 0 {
      RowSize(n, k - 1);
      assert Row(n, k) == Row(n, k - 1) + {(n, k - 1)};
    }
  }

  lemma {:induction false} GridSize(n: nat)
    ensures |Grid(n)| == STEPS * n
  {
    if n == 0 {
      assert Grid(0) == {};
    } else {
      GridSize(n - 1);
      RowSize(n, STEPS);
      assert Grid(n) == Grid(n - 1) + Row(n, STEPS);
      assert Grid(n - 1) !! Row(n, STEPS);
    }
  }

  /** At most six step functions run per attempt, so at most 6 * max_attempts in all. */
  lemma WorkIsBounded(maxAttempts: nat, actions: seq<Action>)
    requires Run(Init(maxAttempts), actions).Some?
    ensures Run(Init(maxAttempts), actions).value.executions <= STEPS * maxAttempts
  {
    RunKeepsInv(maxAttempts, actions);
    var s := Run(Init(maxAttempts), actions).value;
    forall p | p in s.started ensures p in Grid(maxAttempts) {
      assert p == (p.0, p.1);
    }
    SubsetSize(s.started, Grid(maxAttempts));
    GridSize(maxAttempts);
  }

  // ---------------------------------------------------------------------------
  // Stranding: `failed` with no attempt left, so neither claimable nor dead

  predicate Stranded(job: Job) {
    job.status == Failed && job.attempts >= job.maxAttempts
  }

  /** A job becomes stranded exactly when a worker whose claim is no longer the latest
      writes its retry after the last attempt has been claimed. */
  lemma StrandingIsExact(s: State, a: Action)
    requires Inv(s) && !Stranded(s.job) && Next(s, a).Some?
    ensures Stranded(Next(s, a).value.job) <==>
              && a.Work? && s.workers[a.w].at.Report? && a.e == Reported(true)
              && s.workers[a.w].attempt < s.job.attempts == s.job.maxAttempts
  {
    hide Claims, Armed, Separated, WorkStep;
    if a.Work? {
      WorkersAreConsistent(s, a.w);
      hide Inv;
      StrandingWrite(s, a.w, a.e);
    }
  }

  lemma StrandingWrite(s: State, w: nat, e: Event)
    requires w in s.workers && WorkerInv(s, w) && WorkStep(s, w, e).Some? && !Stranded(s.job)
    requires s.job.attempts <= s.job.maxAttempts
    ensures Stranded(WorkStep(s, w, e).value.job) <==>
              && s.workers[w].at.Report? && e == Reported(true)
              && s.workers[w].attempt < s.job.attempts == s.job.maxAttempts
  {
    hide Advance, Starts, Succeeds, Enters;
    ReportsOnly(s.workers[w].at, e);
  }

  lemma ReportsOnly(at: Point, e: Event)
    requires Advance(at, e).Some?
    ensures e.Reported? <==> at.Report?
  {
  }

  lemma RunSnoc(s: State, actions: seq<Action>, a: Action)
    requires Run(s, actions).Some?
    ensures Run(s, actions + [a]) == Next(Run(s, actions).value, a)
  {
    assert (actions + [a])[..|actions|] == actions;
  }

  lemma Extend(s: State, actions: seq<Action>, a: Action) returns (longer: seq<Action>)
    requires Run(s, actions).Some? && Next(Run(s, actions).value, a).Some?
    ensures longer == actions + [a] && Run(s, longer) == Next(Run(s, actions).value, a)
  {
    longer := actions + [a];
    RunSnoc(s, actions, a);
  }

  /** What a worker that is on its way through the steps leaves alone. */
  predicate OnTheWay(s: State, t: State, w: nat, at: Point)
    requires w in s.workers
  {
    && t.workers == s.workers[w := Worker(s.workers[w].attempt, at)]
    && t.job.attempts == s.job.attempts && t.job.maxAttempts == s.job.maxAttempts
    && t.adopted == s.adopted && t.foundRunning == s.foundRunning
  }

  /** A worker enters step i. */
  lemma EnterStep(s0: State, actions: seq<Action>, w: nat, i: nat) returns (longer: seq<Action>)
    requires Run(s0, actions).Some? && w in Run(s0, actions).value.workers
    requires Run(s0, actions).value.workers[w].at == WriteStep(i)
    ensures Run(s0, longer).Some?
    ensures var s, t := Run(s0, actions).value, Run(s0, longer).value;
      && OnTheWay(s, t, w, if i == CREATE_SERVER then Guard else Perform(i))
      && t.job == s.job.(status := Running, step := Some(i)) && t.recorded == s.recorded
      && t.succeeded == s.succeeded && t.entered == s.entered + {i}
  {
    hide Run, Starts;
    longer := Extend(s0, actions, Work(w, StepWritten(true)));
    longer := Extend(s0, longer, Work(w, InstanceWritten(true)));
  }

  /** The function of step i returns. */
  lemma FinishStep(s0: State, actions: seq<Action>, w: nat, i: nat) returns (longer: seq<Action>)
    requires Run(s0, actions).Some? && w in Run(s0, actions).value.workers
    requires Run(s0, actions).value.workers[w].at == Perform(i)
    ensures Run(s0, longer).Some?
    ensures var s, t := Run(s0, actions).value, Run(s0, longer).value;
      && OnTheWay(s, t, w, NextStep(i)) && t.job == s.job && t.recorded == s.recorded
      && t.succeeded == s.succeeded + {i} && t.entered == s.entered
  {
    hide Run, Starts;
    longer := Extend(s0, actions, Work(w, Performed(true)));
  }

  /** A worker takes step i, and it goes well. */
  lemma TakeStep(s0: State, actions: seq<Action>, w: nat, i: nat) returns (longer: seq<Action>)
    requires Run(s0, actions).Some? && w in Run(s0, actions).value.workers && i != CREATE_SERVER
    requires Run(s0, actions).value.workers[w].at == WriteStep(i)
    ensures Run(s0, longer).Some?
    ensures var s, t := Run(s0, actions).value, Run(s0, longer).value;
      && OnTheWay(s, t, w, NextStep(i))
      && t.job == s.job.(status := Running, step := Some(i)) && t.recorded == s.recorded
      && t.succeeded == s.succeeded + {i} && t.entered == s.entered + {i}
  {
    hide Run, Next;
    longer := EnterStep(s0, actions, w, i);
    longer := FinishStep(s0, longer, w, i);
  }

  /** A worker creates and records the server. */
  lemma TakeCreateStep(s0: State, actions: seq<Action>, w: nat) returns (longer: seq<Action>)
    requires Run(s0, actions).Some? && w in Run(s0, actions).value.workers && !Run(s0, actions).value.recorded
    requires Run(s0, actions).value.workers[w].at == WriteStep(CREATE_SERVER)
    ensures Run(s0, longer).Some?
    ensures var s, t := Run(s0, actions).value, Run(s0, longer).value;
      && OnTheWay(s, t, w, WriteStep(2)) && t.job == s.job.(status := Running, step := Some(1)) && t.recorded
      && t.succeeded == s.succeeded + {1} && t.entered == s.entered + {1}
  {
    hide Run, Next;
    longer := EnterStep(s0, actions, w, CREATE_SERVER);
    longer := CreateServer(s0, longer, w);
    longer := FinishStep(s0, longer, w, CREATE_SERVER);
  }

  lemma CreateServer(s0: State, actions: seq<Action>, w: nat) returns (longer: seq<Action>)
    requires Run(s0, actions).Some? && w in Run(s0, actions).value.workers && !Run(s0, actions).value.recorded
    requires Run(s0, actions).value.workers[w].at == Guard
    ensures Run(s0, longer).Some?
    ensures var s, t := Run(s0, actions).value, Run(s0, longer).value;
      && OnTheWay(s, t, w, Perform(1)) && t.job == s.job && t.recorded
      && t.succeeded == s.succeeded && t.entered == s.entered
  {
    hide Run, Starts;
    longer := AskForServer(s0, actions, w);
    longer := Extend(s0, longer, Work(w, ServerRecorded(true)));
  }

  lemma AskForServer(s0: State, actions: seq<Action>, w: nat) returns (longer: seq<Action>)
    requires Run(s0, actions).Some? && w in Run(s0, actions).value.workers && !Run(s0, actions).value.recorded
    requires Run(s0, actions).value.workers[w].at == Guard
    ensures Run(s0, longer).Some?
    ensures var s, t := Run(s0, actions).value, Run(s0, longer).value;
      && OnTheWay(s, t, w, Record) && t.job == s.job
      && t.succeeded == s.succeeded && t.entered == s.entered
  {
    hide Run, Starts;
    longer := Extend(s0, actions, Work(w, NotRecorded));
    longer := Extend(s0, longer, Work(w, ServerCreated(true)));
  }

  /** A first worker that gets as far as step 2, waiting for the server. */
  lemma ReachStepTwo(maxAttempts: nat) returns (actions: seq<Action>)
    requires maxAttempts >= 1
    ensures Run(Init(maxAttempts), actions).Some?
    ensures var s := Run(Init(maxAttempts), actions).value;
      && s.workers == map[1 := Worker(1, WriteStep(2))] && s.recorded && !s.adopted && !s.foundRunning
      && s.job == Job(Running, Some(1), 1, maxAttempts) && s.succeeded == {0, 1}
  {
    RunNothing(Init(maxAttempts));
    hide Run;
    actions := Extend(Init(maxAttempts), [], ClaimJob(1));
    hide Next;
    actions := TakeStep(Init(maxAttempts), actions, 1, 0);
    actions := TakeCreateStep(Init(maxAttempts), actions, 1);
  }

  lemma RunNothing(s: State)
    ensures Run(s, []) == Some(s)
  {
  }

  /** The reconciler finds the server running. */
  lemma Adopt(s0: State, actions: seq<Action>) returns (longer: seq<Action>)
    requires Run(s0, actions).Some?
    requires var s := Run(s0, actions).value; Adoptable(s) && !s.foundRunning && s.job.status == Running
    ensures Run(s0, longer).Some?
    ensures var s, t := Run(s0, actions).value, Run(s0, longer).value;
      t.job == s.job.(status := Completed) && t.adopted && t.foundRunning && t.succeeded == s.succeeded
  {
    hide Run, WorkStep;
    longer := Extend(s0, actions, ActivateRunning);
    longer := Extend(s0, longer, AdoptRunning);
  }

  /** A job that the reconciler completes although only two of its steps have succeeded.  The
      instance has to be idle for five minutes, the job must not be for two, or it is reset
      first.  So worker 1 dies waiting for the server and the job is reset; much later worker
      2 claims it, and dies after the job's step is written and before the instance's is;
      then the instance is old, the job is not, and the server is found running. */
  lemma CompletedByTheReconciler() returns (actions: seq<Action>)
    ensures Run(Init(2), actions).Some?
    ensures var s := Run(Init(2), actions).value;
      && s.job.status == Completed && s.adopted && s.foundRunning && s.succeeded == {0, 1}
  {
    hide Run, Next;
    actions := ReachStepTwo(2);
    actions := EnterStep(Init(2), actions, 1, 2);
    actions := TouchTheJob(actions);
    actions := Adopt(Init(2), actions);
  }

  lemma TouchTheJob(actions: seq<Action>) returns (longer: seq<Action>)
    requires Run(Init(2), actions).Some?
    requires var s := Run(Init(2), actions).value;
      s.workers == map[1 := Worker(1, Perform(2))] && s.job == Job(Running, Some(2), 1, 2)
    ensures Run(Init(2), longer).Some?
    ensures var s, t := Run(Init(2), actions).value, Run(Init(2), longer).value;
      && t.job.status == Running && t.succeeded == s.succeeded && t.recorded == s.recorded
      && t.entered == s.entered && t.foundRunning == s.foundRunning
  {
    hide Run, Starts;
    longer := Extend(Init(2), actions, Crash(1));
    longer := Extend(Init(2), longer, ResetStale);
    longer := Extend(Init(2), longer, ClaimJob(2));
    longer := Extend(Init(2), longer, Work(2, StepWritten(true)));
    longer := Extend(Init(2), longer, Crash(2));
  }

  /** A worker that fails step i and reports it, with the row in any state. */
  lemma FailStep(s0: State, actions: seq<Action>, w: nat, i: nat) returns (longer: seq<Action>)
    requires Run(s0, actions).Some? && w in Run(s0, actions).value.workers
    requires Run(s0, actions).value.workers[w].at == Perform(i)
    requires Run(s0, actions).value.workers[w].attempt < Run(s0, actions).value.job.maxAttempts
    ensures Run(s0, longer).Some?
    ensures var s, t := Run(s0, actions).value, Run(s0, longer).value;
      t.workers == s.workers - {w} && t.job == s.job.(status := Failed)
  {
    hide Run, Starts, Succeeds;
    longer := Extend(s0, actions, Work(w, Performed(false)));
    longer := Extend(s0, longer, Work(w, Reported(true)));
  }

  const BOOTSTRAP: nat := 3

  /** It does happen while a reset worker lives on: the reconciler resets rows that were
      idle for two minutes, and the bootstrap step may take ten.  Worker 1 is reset during
      its bootstrap, worker 2 claims the last attempt and dies, worker 1 reports its
      failure; nothing ever changes the job again. */
  lemma StrandedUnderZombie() returns (actions: seq<Action>)
    ensures Run(Init(2), actions).Some? && Stranded(Run(Init(2), actions).value.job)
    ensures forall more :: Run(Run(Init(2), actions).value, more).Some? ==>
              Run(Run(Init(2), actions).value, more).value.job == Run(Init(2), actions).value.job
  {
    hide Next, Run;
    actions := ReachStepTwo(2);
    actions := TakeStep(Init(2), actions, 1, 2);
    actions := EnterStep(Init(2), actions, 1, BOOTSTRAP);
    actions := LoseTheLastAttempt(actions);
    actions := FailStep(Init(2), actions, 1, BOOTSTRAP);
    var s := Run(Init(2), actions).value;
    assert s.workers == map[];
    forall more | Run(s, more).Some? ensures Run(s, more).value.job == s.job {
      StrandedForEver(s, more);
    }
  }

  lemma LoseTheLastAttempt(actions: seq<Action>) returns (longer: seq<Action>)
    requires Run(Init(2), actions).Some?
    requires var s := Run(Init(2), actions).value;
      && s.workers == map[1 := Worker(1, Perform(BOOTSTRAP))]
      && s.job.status == Running && s.job.attempts == 1 && s.job.maxAttempts == 2
    ensures Run(Init(2), longer).Some?
    ensures var s := Run(Init(2), longer).value;
      && s.workers == map[1 := Worker(1, Perform(BOOTSTRAP))]
      && s.job.attempts == 2 && s.job.maxAttempts == 2
  {
    hide Run;
    longer := Extend(Init(2), actions, ResetStale);
    longer := Extend(Init(2), longer, ClaimJob(2));
    longer := Extend(Init(2), longer, Crash(2));
  }

  /** A stranded job without workers stays as it is. */
  lemma {:induction false} StrandedForEver(s: State, more: seq<Action>)
    requires Stranded(s.job) && s.workers == map[] && Run(s, more).Some?
    ensures Run(s, more).value.job == s.job && Run(s, more).value.workers == map[]
    decreases |more|
  {
    if more != [] {
      StrandedForEver(s, more[..|more| - 1]);
    }
  }

  // ---------------------------------------------------------------------------
  // Crash-stop: a row is reset only when its worker is gone

  predicate CrashStopStep(s: State, a: Action) {
    a == ResetStale ==> s.workers == map[]
  }

  predicate CrashStopRun(s: State, actions: seq<Action>)
    decreases |actions|
  {
    actions != [] ==>
      var last := |actions| - 1;
      && CrashStopRun(s, actions[..last])
      && (Run(s, actions[..last]).Some? ==> CrashStopStep(Run(s, actions[..last]).value, actions[last]))
  }

  /** A server that exists at the provider and is on its way into the row. */
  function InFlight(s: State): nat {
    if exists w :: w in s.workers && s.workers[w].at == Record then 1 else 0
  }

  predicate Recorded(at: Point) {
    match at
    case WriteStep(i) => i > CREATE_SERVER
    case WriteInstance(i) => i > CREATE_SERVER
    case Perform(i) => i >= CREATE_SERVER
    case Report(i) => i > CREATE_SERVER
    case Finish => true
    case _ => false
  }

  /** The single worker of a job: it works on the latest attempt, keeps the row from being
      claimed, and is past stepCreateServer only if the server is recorded. */
  predicate SoloWorker(job: Job, recorded: bool, worker: Worker) {
    && worker.at != Stopped && worker.attempt == job.attempts <= job.maxAttempts
    && job.status in {Running, Completed}
    && (Recorded(worker.at) ==> recorded)
    && (worker.at in {Create, Record} ==> !recorded)
  }

  predicate SoloRow(job: Job, recorded: bool) {
    && (job.status in {Pending, Failed} ==> job.attempts < job.maxAttempts)
    && (job.step.Some? && job.step.value > CREATE_SERVER ==> recorded)
  }

  /** At most one worker, and every created server is recorded, lost or in flight. */
  ghost predicate SoloInv(s: State) {
    && (forall v, w :: v in s.workers && w in s.workers ==> v == w)
    && (forall w :: w in s.workers ==> SoloWorker(s.job, s.recorded, s.workers[w]))
    && SoloRow(s.job, s.recorded)
    && s.created == (if s.recorded then 1 else 0) + s.lost + InFlight(s)
  }

  /** One event of the single worker, on the parts of the state it concerns. */
  lemma SoloEvent(job: Job, recorded: bool, worker: Worker, e: Event)
    requires SoloWorker(job, recorded, worker) && SoloRow(job, recorded)
    requires Advance(worker.at, e).Some? && (e.Skipped? ==> recorded) && (e.NotRecorded? ==> !recorded)
    ensures var job', recorded', at' := RowEffect(job, worker.attempt, worker.at, e),
                                        recorded || e == ServerRecorded(true), Advance(worker.at, e).value;
      && SoloRow(job', recorded')
      && (at' != Stopped ==> SoloWorker(job', recorded', Worker(worker.attempt, at')))
      && (e == ServerCreated(true) <==> worker.at != Record && at' == Record)
      && (e.ServerRecorded? <==> worker.at == Record) && (worker.at == Record ==> at' != Record && !recorded)
      && (e.ServerCreated? ==> !recorded)
  {
  }

  lemma SoloWork(s: State, w: nat, e: Event)
    requires SoloInv(s) && w in s.workers && WorkStep(s, w, e).Some?
    ensures SoloInv(WorkStep(s, w, e).value)
    ensures s.recorded ==> WorkStep(s, w, e).value.recorded && WorkStep(s, w, e).value.created == s.created
  {
    hide Advance, RowEffect, SoloWorker, SoloRow, Starts, Succeeds;
    var s' := WorkStep(s, w, e).value;
    SoloEvent(s.job, s.recorded, s.workers[w], e);
    assert s.workers.Keys == {w};
    assert InFlight(s) == if s.workers[w].at == Record then 1 else 0;
    assert InFlight(s') == if w in s'.workers && s'.workers[w].at == Record then 1 else 0;
  }

  lemma SoloStep(s: State, a: Action)
    requires SoloInv(s) && CrashStopStep(s, a) && Next(s, a).Some?
    ensures SoloInv(Next(s, a).value)
    ensures s.recorded ==> Next(s, a).value.recorded && Next(s, a).value.created == s.created
  {
    if a.Work? {
      SoloWork(s, a.w, a.e);
    } else {
      var s' := Next(s, a).value;
      if a.Crash? {
        assert s'.workers == map[];
      } else if a.ClaimJob? {
        assert s'.workers.Keys == {a.w};
      } else {
        assert s'.workers == s.workers;
      }
    }
  }

  lemma {:induction false} CrashStopKeepsSolo(maxAttempts: nat, actions: seq<Action>)
    requires maxAttempts >= 1 && Run(Init(maxAttempts), actions).Some? && CrashStopRun(Init(maxAttempts), actions)
    ensures SoloInv(Run(Init(maxAttempts), actions).value)
    decreases |actions|
  {
    hide Next, SoloWorker;
    if actions != [] {
      var last := |actions| - 1;
      CrashStopKeepsSolo(maxAttempts, actions[..last]);
      SoloStep(Run(Init(maxAttempts), actions[..last]).value, actions[last]);
    }
  }

  /** Under crash-stop no job is ever stranded between retry and dead. */
  lemma CrashStopNeverStrands(maxAttempts: nat, actions: seq<Action>)
    requires maxAttempts >= 1 && Run(Init(maxAttempts), actions).Some? && CrashStopRun(Init(maxAttempts), actions)
    ensures !Stranded(Run(Init(maxAttempts), actions).value.job)
  {
    CrashStopKeepsSolo(maxAttempts, actions);
  }

  /** Under crash-stop every server created is in the row, was lost between its creation
      and the row write, or is about to be written. */
  lemma ServersAreConserved(maxAttempts: nat, actions: seq<Action>)
    requires maxAttempts >= 1 && Run(Init(maxAttempts), actions).Some? && CrashStopRun(Init(maxAttempts), actions)
    ensures var s := Run(Init(maxAttempts), actions).value;
      s.created == (if s.recorded then 1 else 0) + s.lost + InFlight(s)
  {
    CrashStopKeepsSolo(maxAttempts, actions);
  }

  /** Under crash-stop, once a server is recorded the job never creates another. */
  lemma {:induction false} NoServerAfterTheRecord(maxAttempts: nat, actions: seq<Action>, k: nat)
    requires maxAttempts >= 1 && Run(Init(maxAttempts), actions).Some? && CrashStopRun(Init(maxAttempts), actions)
    requires k <= |actions|
    ensures Run(Init(maxAttempts), actions[..k]).Some?
    ensures var s, t := Run(Init(maxAttempts), actions[..k]).value, Run(Init(maxAttempts), actions).value;
      s.recorded ==> t.recorded && t.created == s.created
    decreases |actions|
  {
    hide Next, SoloInv;
    if k == |actions| {
      assert actions[..k] == actions;
    } else {
      var last := |actions| - 1;
      assert actions[..last][..k] == actions[..k];
      NoServerAfterTheRecord(maxAttempts, actions[..last], k);
      CrashStopKeepsSolo(maxAttempts, actions[..last]);
      SoloStep(Run(Init(maxAttempts), actions[..last]).value, actions[last]);
    }
  }

  // ---------------------------------------------------------------------------
  // Every run ends, live workers after a reset included

  /** A bound on the events a worker at a point can still take part in. */
  function EventsLeft(at: Point): nat {
    match at
    case WriteStep(i) => if i < STEPS then 8 * (STEPS - i) + 3 else 0
    case WriteInstance(i) => if i < STEPS then 8 * (STEPS - i) + 2 else 0
    case Guard => 8 * (STEPS - CREATE_SERVER) + 1
    case Create => 8 * (STEPS - CREATE_SERVER)
    case Record => 8 * (STEPS - CREATE_SERVER) - 1
    case Perform(i) => if i < STEPS then 8 * (STEPS - i) - 2 else 0
    case Report(_) => 1
    case Finish => 2
    case Stopped => 0
  }

  function StatusRank(status: JobStatus): nat {
    match status
    case Running => 2
    case Pending => 1
    case Failed => 1
    case Completed => 0
    case Dead => 0
  }

  ghost function WorkLeft(workers: map<nat, Worker>): nat
    decreases |workers|
  {
    if workers == map[] then 0
    else
      var w :| w in workers;
      EventsLeft(workers[w].at) + WorkLeft(workers - {w})
  }

  lemma {:induction false} WorkLeftOf(workers: map<nat, Worker>, w: nat)
    requires w in workers
    ensures WorkLeft(workers) == EventsLeft(workers[w].at) + WorkLeft(workers - {w})
    decreases |workers|
  {
    hide EventsLeft;
    var v :| v in workers && WorkLeft(workers) == EventsLeft(workers[v].at) + WorkLeft(workers - {v});
    if v != w {
      WorkLeftOf(workers - {v}, w);
      WorkLeftOf(workers - {w}, v);
      assert workers - {v} - {w} == workers - {w} - {v};
    }
  }

  const PER_ATTEMPT: nat := 4 * (8 * STEPS + 3) + 4

  /** The attempts not yet claimed, then the events left to the live workers, then the
      rank of the row's status, then whether the reconciler may still find the server. */
  ghost function Measure(s: State): nat
    requires s.job.attempts <= s.job.maxAttempts
  {
    (s.job.maxAttempts - s.job.attempts) * PER_ATTEMPT + 4 * WorkLeft(s.workers) + StatusRank(s.job.status)
    + if s.foundRunning then 0 else 1
  }

  lemma EventsRunDown(job: Job, attempt: nat, at: Point, e: Event)
    requires Advance(at, e).Some? && at != Stopped
    requires Reached(at) <= STEPS && (at != Finish ==> Reached(at) < STEPS)
    ensures EventsLeft(Advance(at, e).value) < EventsLeft(at)
    ensures RowEffect(job, attempt, at, e).attempts == job.attempts
    ensures RowEffect(job, attempt, at, e).maxAttempts == job.maxAttempts
  {
  }

  lemma LiveWorker(s: State, w: nat)
    requires Inv(s) && w in s.workers
    ensures var at := s.workers[w].at;
      at != Stopped && Reached(at) <= STEPS && (at != Finish ==> Reached(at) < STEPS)
    ensures s.job.attempts <= s.job.maxAttempts
  {
    assert WorkerInv(s, w);
  }

  lemma MeasureDropsOnWork(s: State, w: nat, e: Event)
    requires Inv(s) && w in s.workers && WorkStep(s, w, e).Some?
    ensures WorkStep(s, w, e).value.job.attempts <= WorkStep(s, w, e).value.job.maxAttempts
    ensures Measure(WorkStep(s, w, e).value) < Measure(s)
  {
    hide Advance, RowEffect, WorkLeft, Starts, Succeeds, Inv, EventsLeft, Reached;
    var s' := WorkStep(s, w, e).value;
    LiveWorker(s, w);
    EventsRunDown(s.job, s.workers[w].attempt, s.workers[w].at, e);
    WorkLeftOf(s.workers, w);
    if w in s'.workers {
      WorkLeftOf(s'.workers, w);
      assert s'.workers - {w} == s.workers - {w};
    }
  }

  /** The measure drops on every claim, step, failure, crash and reset. */
  lemma MeasureDrops(s: State, a: Action)
    requires Inv(s) && Next(s, a).Some?
    ensures Next(s, a).value.job.attempts <= Next(s, a).value.job.maxAttempts
    ensures Measure(Next(s, a).value) < Measure(s)
  {
    hide Advance, RowEffect, WorkLeft, Starts, Succeeds, Claims, Armed, Separated, UpTo, Upcoming, WorkStep;
    var s' := Next(s, a).value;
    match a {
      case ClaimJob(w) =>
        WorkLeftOf(s'.workers, w);
        assert s'.workers - {w} == s.workers;
        assert EventsLeft(s'.workers[w].at) <= 8 * STEPS + 3;
        assert s.job.maxAttempts - s.job.attempts == (s'.job.maxAttempts - s'.job.attempts) + 1;
      case Work(w, e) =>
        MeasureDropsOnWork(s, w, e);
      case Crash(w) =>
        assert WorkerInv(s, w);
        WorkLeftOf(s.workers, w);
      case ResetStale =>
      case ActivateRunning =>
      case AdoptRunning =>
    }
  }

  /** So no interleaving runs for ever. */
  lemma {:induction false} EveryRunEnds(maxAttempts: nat, actions: seq<Action>)
    requires Run(Init(maxAttempts), actions).Some?
    ensures |actions| <= PER_ATTEMPT * maxAttempts + 2
    ensures var s := Run(Init(maxAttempts), actions).value;
      s.job.attempts <= s.job.maxAttempts && Measure(s) + |actions| <= PER_ATTEMPT * maxAttempts + 2
    decreases |actions|
  {
    hide Next, Inv;
    RunKeepsInv(maxAttempts, actions);
    if actions != [] {
      var last := |actions| - 1;
      EveryRunEnds(maxAttempts, actions[..last]);
      RunKeepsInv(maxAttempts, actions[..last]);
      MeasureDrops(Run(Init(maxAttempts), actions[..last]).value, actions[last]);
    }
  }
}
