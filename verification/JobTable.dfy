/** The job table and the code that works on it: ClaimNextJob, the row updates, the
    reconciler's reset, and Provisioner.Execute with its error handler.  Execute is shown
    to follow the worker program of module Jobs event by event, so what is proved there
    for every interleaving is proved of this code. */
module JobTable {
  import opened Options
  import opened Jobs
  import World

  datatype Row = Row(job: Job, instance: nat, createdAt: nat, nextRetryAt: Option<nat>, updatedAt: nat)

  const STALE_AFTER: nat := 120

  predicate Eligible(row: Row, now: nat) {
    Claimable(row.job) && (row.nextRetryAt.None? || row.nextRetryAt.value <= now)
  }

  function PowerOfTwo(n: nat): nat {
    if n == 0 then 1 else 2 * PowerOfTwo(n - 1)
  }

  /** 5 s, doubled for every attempt already made, at most five minutes. */
  function Backoff(attempt: nat): nat
    requires attempt >= 1
  {
    var delay := 5 * PowerOfTwo(attempt - 1);
    if delay > 300 then 300 else delay
  }

  /** The delays never shrink from one attempt to the next, double until the cap is
      reached, and stay between five seconds and five minutes. */
  lemma BackoffGrowsToTheCap(attempt: nat)
    requires attempt >= 1
    ensures Backoff(1) == 5 && 5 <= Backoff(attempt) <= Backoff(attempt + 1) <= 300
    ensures Backoff(attempt + 1) == 300 || Backoff(attempt + 1) == 2 * Backoff(attempt)
    ensures Backoff(attempt) == 300 <==> attempt >= 7
  {
    assert PowerOfTwo(5) == 32 && PowerOfTwo(6) == 64;
    if attempt >= 7 {
      PowerOfTwoGrows(6, attempt - 1);
    } else {
      PowerOfTwoGrows(attempt - 1, 5);
    }
  }

  lemma {:induction false} PowerOfTwoGrows(m: nat, n: nat)
    requires m <= n
    ensures 1 <= PowerOfTwo(m) <= PowerOfTwo(n)
  {
    if n > 0 {
      PowerOfTwoGrows(if m == n then m - 1 else m, n - 1);
    }
  }

  /** Where a worker that started at a point is after a sequence of events. */
  function Walk(at: Point, trace: seq<Event>): Option<Point> {
    if trace == [] then Some(at)
    else
      var last := |trace| - 1;
      var before := Walk(at, trace[..last]);
      if before.None? then None else Advance(before.value, trace[last])
  }

  /** What those events write into the job row. */
  function Written(job: Job, attempt: nat, at: Point, trace: seq<Event>): Job
    requires Walk(at, trace).Some?
  {
    if trace == [] then job
    else
      var last := |trace| - 1;
      RowEffect(Written(job, attempt, at, trace[..last]), attempt, Walk(at, trace[..last]).value, trace[last])
  }

  // ---------------------------------------------------------------------------
  // What a run of Execute looks like

  /** What can come right after what.  So a failed write is the end of the run, a failed step
      is reported and that is the end, and every other step begins with its two writes. */
  predicate MayFollow(previous: Option<Event>, e: Event) {
    match e
    case StepWritten(_) => previous in {None, Some(Performed(true)), Some(Skipped)}
    case InstanceWritten(_) => previous == Some(StepWritten(true))
    case Skipped => previous == Some(InstanceWritten(true))
    case NotRecorded => previous == Some(InstanceWritten(true))
    case ServerCreated(_) => previous == Some(NotRecorded)
    case ServerRecorded(_) => previous == Some(ServerCreated(true))
    case Performed(_) => previous in {Some(InstanceWritten(true)), Some(ServerRecorded(true))}
    case Reported(_) => previous in {Some(Performed(false)), Some(ServerCreated(false)), Some(ServerRecorded(false))}
    case Finished(_) => previous in {Some(Performed(true)), Some(Skipped)}
  }

  predicate Ordered(trace: seq<Event>) {
    forall k :: 0 <= k < |trace| ==> MayFollow(Before(trace, k), trace[k])
  }

  function Before(trace: seq<Event>, k: nat): Option<Event>
    requires k <= |trace|
  {
    if k == 0 then None else Some(trace[k - 1])
  }

  /** The point that an event can have led to. */
  predicate Fits(at: Point, last: Option<Event>) {
    match at
    case WriteStep(_) => last in {None, Some(Performed(true)), Some(Skipped)}
    case WriteInstance(_) => last == Some(StepWritten(true))
    case Guard => last == Some(InstanceWritten(true))
    case Create => last == Some(NotRecorded)
    case Record => last == Some(ServerCreated(true))
    case Perform(_) => last in {Some(InstanceWritten(true)), Some(ServerRecorded(true))}
    case Report(_) => last in {Some(Performed(false)), Some(ServerCreated(false)), Some(ServerRecorded(false))}
    case Finish => last in {Some(Performed(true)), Some(Skipped)}
    case Stopped => last.Some?
  }

  lemma AdvanceFits(at: Point, last: Option<Event>, e: Event)
    requires Fits(at, last) && Advance(at, e).Some?
    ensures MayFollow(last, e) && Fits(Advance(at, e).value, Some(e))
  {
  }

  lemma {:induction false} WalkIsOrdered(i: nat, trace: seq<Event>)
    requires Walk(WriteStep(i), trace).Some?
    ensures Ordered(trace)
    ensures Fits(Walk(WriteStep(i), trace).value, Before(trace, |trace|))
  {
    StartFits(i);
    hide MayFollow, Fits, Advance, Ordered;
    if trace != [] {
      var last := |trace| - 1;
      var init := trace[..last];
      WalkIsOrdered(i, init);
      AdvanceFits(Walk(WriteStep(i), init).value, Before(init, last), trace[last]);
      OrderedMore(trace);
    }
  }

  lemma StartFits(i: nat)
    ensures Fits(WriteStep(i), None) && Ordered([])
  {
  }

  lemma OrderedMore(trace: seq<Event>)
    requires trace != [] && Ordered(trace[..|trace| - 1])
    requires MayFollow(Before(trace[..|trace| - 1], |trace| - 1), trace[|trace| - 1])
    ensures Ordered(trace)
  {
    hide MayFollow;
    var last := |trace| - 1;
    forall k | 0 <= k < |trace| ensures MayFollow(Before(trace, k), trace[k]) {
      BeforeInPart(trace, last, k);
      hide Before;
      assert k < last ==> trace[k] == trace[..last][k];
    }
  }

  lemma BeforeInPart(trace: seq<Event>, n: nat, k: nat)
    requires k <= n <= |trace|
    ensures Before(trace[..n], k) == Before(trace, k)
  {
  }

  /** The step whose status was last written into the instance row. */
  function LastEntered(at: Point, trace: seq<Event>): Option<nat>
    requires Walk(at, trace).Some?
  {
    if trace == [] then None
    else
      var init, last := trace[..|trace| - 1], trace[|trace| - 1];
      var here := Walk(at, init).value;
      if here.WriteInstance? && last == InstanceWritten(true) then Some(here.i) else LastEntered(at, init)
  }

  /** The steps whose functions returned without an error. */
  function Successes(at: Point, trace: seq<Event>): set<nat>
    requires Walk(at, trace).Some?
  {
    if trace == [] then {}
    else
      var init, last := trace[..|trace| - 1], trace[|trace| - 1];
      Successes(at, init) + Succeeds(Walk(at, init).value, last)
  }

  /** A run has got as far as its steps have succeeded, from the first one it ran. */
  lemma {:induction false} StepsAreEarned(first: nat, trace: seq<Event>)
    requires first < STEPS && Walk(WriteStep(first), trace).Some?
    ensures var at := Walk(WriteStep(first), trace).value;
      && (at != Stopped ==> InRange(at) && Earned(first, Reached(at), trace))
      && (LastEntered(WriteStep(first), trace).Some? ==>
            Earned(first, LastEntered(WriteStep(first), trace).value, trace))
  {
    if trace != [] {
      var last := |trace| - 1;
      var init := trace[..last];
      StepsAreEarned(first, init);
      var at := Walk(WriteStep(first), init).value;
      StopsAreFinal(at, trace[last]);
      PointMoves(Worker(1, at), trace[last]);
      LastEnteredIs(first, trace);
      hide Advance, Succeeds, Reached, LastEntered;
      assert Successes(WriteStep(first), trace) == Successes(WriteStep(first), init) + Succeeds(at, trace[last]);
    }
  }

  predicate InRange(at: Point) {
    Reached(at) <= STEPS && (at != Finish ==> Reached(at) < STEPS)
  }

  predicate Earned(first: nat, n: nat, trace: seq<Event>)
    requires Walk(WriteStep(first), trace).Some?
  {
    forall j :: first <= j < n ==> j in Successes(WriteStep(first), trace)
  }

  lemma StopsAreFinal(at: Point, e: Event)
    requires Advance(at, e).Some?
    ensures at != Stopped
  {
  }

  lemma LastEnteredIs(first: nat, trace: seq<Event>)
    requires trace != [] && Walk(WriteStep(first), trace).Some?
    ensures var init := trace[..|trace| - 1];
      var now, before := LastEntered(WriteStep(first), trace), LastEntered(WriteStep(first), init);
      now == before || now == Some(Reached(Walk(WriteStep(first), init).value))
  {
  }

  /** The trace with one more event. */
  lemma Emit(job: Job, attempt: nat, at: Point, trace: seq<Event>, e: Event) returns (longer: seq<Event>)
    requires Walk(at, trace).Some? && Advance(Walk(at, trace).value, e).Some?
    ensures longer == trace + [e]
    ensures Walk(at, longer) == Advance(Walk(at, trace).value, e)
    ensures Written(job, attempt, at, longer)
            == RowEffect(Written(job, attempt, at, trace), attempt, Walk(at, trace).value, e)
    ensures LastEntered(at, longer)
            == if Walk(at, trace).value.WriteInstance? && e == InstanceWritten(true) then Some(Walk(at, trace).value.i)
               else LastEntered(at, trace)
  {
    longer := trace + [e];
    assert longer[..|trace|] == trace;
  }

  lemma NoEventsYet(job: Job, attempt: nat, at: Point)
    ensures Walk(at, []) == Some(at) && Written(job, attempt, at, []) == job && LastEntered(at, []) == None
  {
  }

  /** The instance status Execute writes on entering a step. */
  function StepStatus(i: nat): World.VpsStatus {
    if i <= 1 then World.Provisioning
    else if i <= 3 then World.Bootstrapping
    else if i == 4 then World.InstallingAgent
    else World.Active
  }

  /** The status once these steps have been entered. */
  function StatusOf(initial: World.VpsStatus, entered: Option<nat>): World.VpsStatus {
    if entered.None? then initial else StepStatus(entered.value)
  }

  predicate Ends(trace: seq<Event>, e: Event) {
    trace != [] && trace[|trace| - 1] == e
  }

  /** What a run leaves in the status column: nothing new if it entered no step, else the
      status of the last step it entered, or `error` if the job has died of that step. */
  predicate LeftBehind(copy: Job, trace: seq<Event>, initial: World.VpsStatus, status: World.VpsStatus)
    requires Walk(Start(copy), trace).Some?
  {
    var entered := LastEntered(Start(copy), trace);
    || (entered == None && status == initial)
    || (entered in {Some(0), Some(1)} && status == World.Provisioning)
    || (entered in {Some(2), Some(3)} && status == World.Bootstrapping)
    || (entered == Some(4) && status == World.InstallingAgent)
    || (entered == Some(5) && status == World.Active)
    || (entered.Some? && status == World.Error && DeadReport(copy, trace))
  }

  lemma StatusIsLeftBehind(copy: Job, trace: seq<Event>, initial: World.VpsStatus, status: World.VpsStatus)
    requires Walk(Start(copy), trace).Some?
    requires var entered := LastEntered(Start(copy), trace);
      && (entered.Some? ==> entered.value < STEPS)
      && (|| status == StatusOf(initial, entered)
          || (entered.Some? && status == World.Error && DeadReport(copy, trace)))
    ensures LeftBehind(copy, trace, initial, status)
  {
    hide Walk, LastEntered;
  }

  /** What holds of the job row and of the status while the steps go well. */
  predicate UnderWay(copy: Job, job: Job, initial: World.VpsStatus, trace: seq<Event>, at: Point,
                     row: Job, status: World.VpsStatus) {
    && Walk(Start(copy), trace) == Some(at) && at != Stopped
    && row == Written(job, copy.attempts, Start(copy), trace)
    && row.attempts == job.attempts && row.maxAttempts == job.maxAttempts == copy.maxAttempts
    && status == StatusOf(initial, LastEntered(Start(copy), trace))
    && (LastEntered(Start(copy), trace).Some? ==> LastEntered(Start(copy), trace).value < STEPS)
  }

  /** And once one has not; `missed` says whether a row write has failed. */
  predicate Aborted(copy: Job, job: Job, initial: World.VpsStatus, trace: seq<Event>, missed: bool,
                    row: Job, status: World.VpsStatus) {
    && Walk(Start(copy), trace) == Some(Stopped) && trace != [] && !trace[|trace| - 1].Finished?
    && row == Written(job, copy.attempts, Start(copy), trace)
    && var entered := LastEntered(Start(copy), trace);
    && (entered.Some? ==> entered.value < STEPS)
    && (Ends(trace, Reported(true)) ==>
          row == job.(status := if copy.attempts >= copy.maxAttempts then Dead else Failed, step := entered))
    && (|| status == StatusOf(initial, entered)
        || (entered.Some? && status == World.Error && DeadReport(copy, trace)))
    && (!missed ==> Ends(trace, Reported(true)) && (DeadReport(copy, trace) ==> status == World.Error))
  }

  /** The run ends with a step's error, and the attempts of the claim are used up. */
  predicate DeadReport(copy: Job, trace: seq<Event>) {
    trace != [] && trace[|trace| - 1].Reported? && copy.attempts >= copy.maxAttempts
  }

  class Table {
    var rows: map<nat, Row>
    var withServer: set<nat>            // the instances whose row names a server
    var statuses: map<nat, World.VpsStatus>   // the status column of vps_instances
    ghost var trouble: nat              // calls that have failed so far
    ghost var misses: nat               // and among them, writes of a row

    method Chance() returns (ok: bool)
      modifies this`trouble
      ensures trouble == if ok then old(trouble) else old(trouble) + 1
    {
      ok := *;
      trouble := if ok then trouble else trouble + 1;
    }

    /** The oldest eligible row that no other transaction has locked, or none.  A failed
        transaction leaves the table alone. */
    method ClaimNextJob(now: nat, locked: set<nat>) returns (failed: bool, claim: Option<(nat, Job)>)
      modifies this`rows, this`trouble
      ensures failed ==> claim.None? && trouble > old(trouble)
      ensures claim.None? ==> rows == old(rows)
      ensures !failed && claim.None? ==>
                forall id :: id in old(rows) && id !in locked ==> !Eligible(old(rows)[id], now)
      ensures claim.Some? ==>
                var (id, copy) := claim.value;
                && id in old(rows) && id !in locked && Eligible(old(rows)[id], now)
                && (forall other :: other in old(rows) && other !in locked && Eligible(old(rows)[other], now) ==>
                      old(rows)[id].createdAt <= old(rows)[other].createdAt)
                && old(rows)[id].job.status in {Pending, Failed}
                && copy == ClaimRow(old(rows)[id].job)
                && copy.status == Running && copy.attempts == old(rows)[id].job.attempts + 1 <= copy.maxAttempts
                && rows == old(rows)[id := old(rows)[id].(job := copy, updatedAt := now)]
    {
      var oldest: Option<nat> := None;
      var rest := rows.Keys - locked;
      while rest != {}
        invariant rest <= rows.Keys - locked
        invariant oldest.Some? ==> oldest.value in rows.Keys - locked && Eligible(rows[oldest.value], now)
        invariant forall id :: id in rows && id !in locked && id !in rest && Eligible(rows[id], now) ==>
                    oldest.Some? && rows[oldest.value].createdAt <= rows[id].createdAt
        decreases rest
      {
        var id :| id in rest;
        rest := rest - {id};
        if Eligible(rows[id], now)
           && (oldest.None? || rows[id].createdAt < rows[oldest.value].createdAt) {
          oldest := Some(id);
        }
      }
      var ok := Chance();
      failed := !ok;
      if failed || oldest.None? {
        return failed, None;
      }
      var copy := ClaimRow(rows[oldest.value].job);
      rows := rows[oldest.value := rows[oldest.value].(job := copy, updatedAt := now)];
      return false, Some((oldest.value, copy));
    }

    /** One UPDATE of a job row; it may fail, and then nothing changes. */
    method WriteJob(id: nat, job: Job, nextRetryAt: Option<nat>, now: nat) returns (ok: bool)
      modifies this`rows, this`trouble, this`misses
      ensures trouble == if ok then old(trouble) else old(trouble) + 1
      ensures misses == if ok then old(misses) else old(misses) + 1
      ensures !ok ==> rows == old(rows)
      ensures ok ==> rows == if id in old(rows)
                             then old(rows)[id := old(rows)[id].(job := job, nextRetryAt := nextRetryAt,
                                                                 updatedAt := now)]
                             else old(rows)
    {
      ok := Chance();
      misses := if ok then misses else misses + 1;
      if ok && id in rows {
        rows := rows[id := rows[id].(job := job, nextRetryAt := nextRetryAt, updatedAt := now)];
      }
    }

    method UpdateInstanceStatus(instance: nat, status: World.VpsStatus) returns (ok: bool)
      modifies this`statuses, this`trouble, this`misses
      ensures trouble == if ok then old(trouble) else old(trouble) + 1
      ensures misses == if ok then old(misses) else old(misses) + 1
      ensures statuses == if ok && instance in old(statuses) then old(statuses)[instance := status] else old(statuses)
    {
      ok := Chance();
      misses := if ok then misses else misses + 1;
      if ok && instance in statuses {
        statuses := statuses[instance := status];
      }
    }

    /** reconcileStaleRunningJobs: every running row idle for more than two minutes goes
        back to `failed`, claimable at once, or to `dead` when its attempts are used up; no
        other row moves. */
    method ReconcileStaleRunningJobs(now: nat)
      modifies this`rows
      ensures rows.Keys == old(rows).Keys
      ensures forall id :: id in rows ==> ResetBy(old(rows)[id], rows[id], now)
    {
      rows := map id | id in rows :: FailStale(rows[id], now);
      rows := map id | id in rows :: KillStale(rows[id], now);
      forall id | id in rows
        ensures rows[id] == KillStale(FailStale(old(rows)[id], now), now)
      {
      }
      hide FailStale, KillStale;
      forall id | id in rows ensures ResetBy(old(rows)[id], rows[id], now) {
        BothUpdates(old(rows)[id], now);
      }
    }

    static predicate Stale(row: Row, now: nat) {
      row.job.status == Running && row.updatedAt + STALE_AFTER < now
    }

    /** The first UPDATE: attempts are left. */
    static function FailStale(row: Row, now: nat): Row {
      if Stale(row, now) && row.job.attempts < row.job.maxAttempts
      then row.(job := row.job.(status := Failed), nextRetryAt := Some(now), updatedAt := now) else row
    }

    /** The second UPDATE: none are. */
    static function KillStale(row: Row, now: nat): Row {
      if Stale(row, now) && row.job.attempts >= row.job.maxAttempts
      then row.(job := row.job.(status := Dead), updatedAt := now) else row
    }

    static predicate ResetBy(row: Row, after: Row, now: nat) {
      && (if row.job.status == Running && row.updatedAt + 120 < now
          then after.job == row.job.(status := if row.job.attempts < row.job.maxAttempts then Failed else Dead)
               && after.job == ResetRow(row.job) && after.updatedAt == now
               && (after.job.status == Failed ==> after.nextRetryAt == Some(now))
          else after == row)
      && (row.job.status == Running && after.job.status == Failed ==> Eligible(after, now))
    }

    static lemma BothUpdates(row: Row, now: nat)
      ensures ResetBy(row, KillStale(FailStale(row, now), now), now)
    {
    }

    /** handleStepError: dead when the attempts of the claim are used up, else a retry. */
    method HandleStepError(id: nat, copy: Job, i: nat, now: nat) returns (ghost ok: bool)
      requires id in rows && 1 <= copy.attempts && copy.maxAttempts == rows[id].job.maxAttempts
      requires rows[id].instance in statuses
      modifies this`rows, this`statuses, this`trouble, this`misses
      ensures trouble >= old(trouble) && misses >= old(misses)
      ensures misses == old(misses) ==> ok
      ensures misses == old(misses) && copy.attempts >= copy.maxAttempts ==>
                statuses == old(statuses)[old(rows)[id].instance := World.Error]
      ensures statuses == old(statuses) ||
              (copy.attempts >= copy.maxAttempts && statuses == old(statuses)[old(rows)[id].instance := World.Error])
      ensures id in rows && rows == old(rows)[id := rows[id]]
      ensures rows[id].job == RowEffect(old(rows)[id].job, copy.attempts, Report(i), Reported(ok))
      ensures ok ==> rows[id].job == if copy.attempts >= copy.maxAttempts
                                     then old(rows)[id].job.(status := Dead, step := Some(i))
                                     else old(rows)[id].job.(status := Failed)
      ensures rows[id].instance == old(rows)[id].instance
      ensures ok && rows[id].job.status == Failed && copy.attempts < copy.maxAttempts ==>
                rows[id].nextRetryAt == Some(now + Backoff(copy.attempts))
    {
      if copy.attempts >= copy.maxAttempts {
        var marked := WriteJob(id, rows[id].job.(status := Dead, step := Some(i)), rows[id].nextRetryAt, now);
        var noted := UpdateInstanceStatus(rows[id].instance, World.Error);
        ok := marked;
        return;
      }
      var scheduled := WriteJob(id, rows[id].job.(status := Failed), Some(now + Backoff(copy.attempts)), now);
      ok := scheduled;
    }

    /** stepCreateServer: skip when the instance row already names a server; otherwise
        create one and record it.  `before` is the worker's trace on entry. */
    method StepCreateServer(instance: nat, ghost job: Job, ghost attempt: nat, ghost start: Point,
                            ghost before: seq<Event>)
      returns (ok: bool, ghost trace: seq<Event>)
      requires Walk(start, before) == Some(Guard)
      modifies this`withServer, this`trouble
      ensures trouble >= old(trouble) && (trouble == old(trouble) ==> ok)
      ensures before <= trace
      ensures Walk(start, trace) == Some(if ok then NextStep(CREATE_SERVER) else Report(CREATE_SERVER))
      ensures Written(job, attempt, start, trace) == Written(job, attempt, start, before)
      ensures LastEntered(start, trace) == LastEntered(start, before)
      ensures instance in old(withServer) ==>
                && |trace| == |before| + 1 && trace[|before|] in {Performed(false), Skipped}
                && withServer == old(withServer)
      ensures instance !in old(withServer) ==>
                if |trace| == |before| + 4 && trace[|before| + 2] == ServerRecorded(true)
                then withServer == old(withServer) + {instance} else withServer == old(withServer)
      ensures ok ==> instance in withServer
    {
      hide LastEntered, Walk, Written;
      var found := Chance();
      if !found {
        trace := Emit(job, attempt, start, before, Performed(false));
        return false, trace;
      }
      if instance in withServer {
        trace := Emit(job, attempt, start, before, Skipped);
        return true, trace;
      }
      trace := Emit(job, attempt, start, before, NotRecorded);
      ok, trace := CreateAndRecord(instance, job, attempt, start, trace);
    }

    /** The rest of stepCreateServer: everything up to the provider's answer, and the row
        write. */
    method CreateAndRecord(instance: nat, ghost job: Job, ghost attempt: nat, ghost start: Point,
                           ghost before: seq<Event>)
      returns (ok: bool, ghost trace: seq<Event>)
      requires Walk(start, before) == Some(Create)
      modifies this`withServer, this`trouble
      ensures trouble >= old(trouble) && (trouble == old(trouble) ==> ok)
      ensures before <= trace
      ensures Walk(start, trace) == Some(if ok then NextStep(CREATE_SERVER) else Report(CREATE_SERVER))
      ensures Written(job, attempt, start, trace) == Written(job, attempt, start, before)
      ensures LastEntered(start, trace) == LastEntered(start, before)
      ensures if |trace| == |before| + 3 && trace[|before| + 1] == ServerRecorded(true)
              then withServer == old(withServer) + {instance} else withServer == old(withServer)
      ensures ok ==> instance in withServer
    {
      hide LastEntered, Walk, Written;
      var created := Chance();
      trace := Emit(job, attempt, start, before, ServerCreated(created));
      if !created {
        return false, trace;
      }
      var recorded := Chance();
      trace := Emit(job, attempt, start, trace, ServerRecorded(recorded));
      if !recorded {
        return false, trace;
      }
      withServer := withServer + {instance};
      ok, trace := StorePassword(job, attempt, start, trace);
    }

    /** The root password is stored next; its error is an error of the step. */
    method StorePassword(ghost job: Job, ghost attempt: nat, ghost start: Point, ghost before: seq<Event>)
      returns (ok: bool, ghost trace: seq<Event>)
      requires Walk(start, before) == Some(Perform(CREATE_SERVER))
      modifies this`trouble
      ensures trouble == if ok then old(trouble) else old(trouble) + 1
      ensures trace == before + [Performed(ok)]
      ensures Walk(start, trace) == Some(if ok then NextStep(CREATE_SERVER) else Report(CREATE_SERVER))
      ensures Written(job, attempt, start, trace) == Written(job, attempt, start, before)
      ensures LastEntered(start, trace) == LastEntered(start, before)
    {
      hide LastEntered, Walk, Written;
      ok := Chance();
      trace := Emit(job, attempt, start, before, Performed(ok));
    }

    /** One pass of the loop in Execute: write the step into both rows, run its function,
        and on an error leave through handleStepError. */
    method RunStep(id: nat, copy: Job, i: nat, now: nat, ghost job: Job, ghost initial: World.VpsStatus,
                   ghost before: seq<Event>)
      returns (ok: bool, ghost trace: seq<Event>)
      requires id in rows && 1 <= copy.attempts && rows[id].instance in statuses && i < STEPS
      requires UnderWay(copy, job, initial, before, WriteStep(i), rows[id].job, statuses[rows[id].instance])
      modifies this
      ensures id in rows && rows == old(rows)[id := rows[id]]
      ensures rows[id].instance == old(rows)[id].instance && rows[id].instance in statuses
      ensures statuses == old(statuses)[rows[id].instance := statuses[rows[id].instance]]
      ensures ok ==> && UnderWay(copy, job, initial, trace, NextStep(i), rows[id].job, statuses[rows[id].instance])
                     && LastEntered(Start(copy), trace) == Some(i) && misses == old(misses)
      ensures !ok ==> Aborted(copy, job, initial, trace, misses > old(misses),
                              rows[id].job, statuses[rows[id].instance])
      ensures misses >= old(misses) && trouble >= old(trouble) && (trouble == old(trouble) ==> ok)
    {
      hide LastEntered, Walk, Written, Start, Advance;
      ghost var start := Start(copy);
      var entered;
      entered, trace := EnterStep(id, copy, i, now, job, before);
      if !entered {
        return false, trace;
      }
      ok, trace := DoStep(rows[id].instance, i, job, copy.attempts, start, trace);
      hide StepStatus, Ends, DeadReport;
      if !ok {
        trace := ReportError(id, copy, i, now, job, initial, trace);
      }
    }

    /** The exit through handleStepError. */
    method ReportError(id: nat, copy: Job, i: nat, now: nat, ghost job: Job, ghost initial: World.VpsStatus,
                       ghost before: seq<Event>)
      returns (ghost trace: seq<Event>)
      requires id in rows && 1 <= copy.attempts && rows[id].instance in statuses && i < STEPS
      requires UnderWay(copy, job, initial, before, Report(i), rows[id].job, statuses[rows[id].instance])
      requires LastEntered(Start(copy), before) == rows[id].job.step == Some(i)
      modifies this`rows, this`statuses, this`trouble, this`misses
      ensures id in rows && rows == old(rows)[id := rows[id]]
      ensures rows[id].instance == old(rows)[id].instance && rows[id].instance in statuses
      ensures statuses == old(statuses)[rows[id].instance := statuses[rows[id].instance]]
      ensures Aborted(copy, job, initial, trace, misses > old(misses), rows[id].job, statuses[rows[id].instance])
      ensures misses >= old(misses) && trouble >= old(trouble)
    {
      hide LastEntered, Walk, Written, Start, Advance, StepStatus;
      ReportStops(i);
      ghost var reported := HandleStepError(id, copy, i, now);
      trace := Emit(job, copy.attempts, Start(copy), before, Reported(reported));
    }

    lemma ReportStops(i: nat)
      ensures forall ok :: Advance(Report(i), Reported(ok)) == Some(Stopped)
    {
    }

    /** The two row writes at the start of a step. */
    method EnterStep(id: nat, copy: Job, i: nat, now: nat, ghost job: Job, ghost before: seq<Event>)
      returns (ok: bool, ghost trace: seq<Event>)
      requires id in rows && rows[id].instance in statuses
      requires Walk(Start(copy), before) == Some(WriteStep(i))
      requires rows[id].job == Written(job, copy.attempts, Start(copy), before)
      modifies this`rows, this`statuses, this`trouble, this`misses
      ensures Walk(Start(copy), trace)
              == Some(if !ok then Stopped else if i == CREATE_SERVER then Guard else Perform(i))
      ensures trouble >= old(trouble) && (trouble == old(trouble) ==> ok)
      ensures id in rows && rows == old(rows)[id := rows[id]]
      ensures rows[id].job == Written(job, copy.attempts, Start(copy), trace)
      ensures rows[id].job.maxAttempts == old(rows)[id].job.maxAttempts
      ensures rows[id].job.attempts == old(rows)[id].job.attempts
      ensures rows[id].instance == old(rows)[id].instance
      ensures misses >= old(misses) && (misses == old(misses) <==> ok)
      ensures LastEntered(Start(copy), trace) == if ok then Some(i) else LastEntered(Start(copy), before)
      ensures ok ==> rows[id].job == old(rows)[id].job.(status := Running, step := Some(i))
      ensures ok ==> statuses == old(statuses)[rows[id].instance := StepStatus(i)]
      ensures !ok ==> && statuses == old(statuses) && trace != []
                      && trace[|trace| - 1] in {StepWritten(false), InstanceWritten(false)}
    {
      hide LastEntered, Walk, Written, Start;
      ghost var start := Start(copy);
      var stepOk := WriteJob(id, rows[id].job.(status := Running, step := Some(i)), rows[id].nextRetryAt, now);
      trace := Emit(job, copy.attempts, start, before, StepWritten(stepOk));
      if !stepOk {
        return false, trace;
      }
      ok := UpdateInstanceStatus(rows[id].instance, StepStatus(i));
      trace := Emit(job, copy.attempts, start, trace, InstanceWritten(ok));
    }

    /** The step function itself. */
    method DoStep(instance: nat, i: nat, ghost job: Job, ghost attempt: nat, ghost start: Point,
                  ghost before: seq<Event>)
      returns (ok: bool, ghost trace: seq<Event>)
      requires i < STEPS && Walk(start, before) == Some(if i == CREATE_SERVER then Guard else Perform(i))
      modifies this`withServer, this`trouble
      ensures trouble >= old(trouble) && (trouble == old(trouble) ==> ok)
      ensures Walk(start, trace) == Some(if ok then NextStep(i) else Report(i))
      ensures Written(job, attempt, start, trace) == Written(job, attempt, start, before)
      ensures LastEntered(start, trace) == LastEntered(start, before)
    {
      hide LastEntered, Walk, Written;
      if i == CREATE_SERVER {
        ok, trace := StepCreateServer(instance, job, attempt, start, before);
      } else {
        ok := Chance();
        trace := Emit(job, attempt, start, before, Performed(ok));
      }
    }

    /** Execute: run the steps from the recorded one on.  Its calls are a complete run of
        the worker program, the job row ends up as that run writes it, and the job is
        reported done exactly when the last call marked it completed. */
    method Execute(id: nat, copy: Job, now: nat) returns (done: bool, ghost trace: seq<Event>)
      requires id in rows && 1 <= copy.attempts && copy.maxAttempts == rows[id].job.maxAttempts
      requires rows[id].instance in statuses
      modifies this
      ensures Walk(Start(copy), trace) == Some(Stopped) && Ordered(trace)
      ensures id in rows && rows == old(rows)[id := rows[id]]
      ensures rows[id].job == Written(old(rows)[id].job, copy.attempts, Start(copy), trace)
      ensures rows[id].instance == old(rows)[id].instance && rows[id].instance in statuses
      ensures statuses == old(statuses)[rows[id].instance := statuses[rows[id].instance]]
      ensures trouble == old(trouble) ==> done
      ensures done <==> Ends(trace, Finished(true))
      ensures misses == old(misses) ==> done || Ends(trace, Reported(true))
      // the job row
      ensures done ==> rows[id].job == old(rows)[id].job.(status := Completed, step := Some(STEPS - 1))
      ensures Ends(trace, Reported(true)) ==>
                rows[id].job == old(rows)[id].job.(status := if copy.attempts >= copy.maxAttempts then Dead else Failed,
                                                   step := LastEntered(Start(copy), trace))
      // the status of the instance
      ensures LeftBehind(copy, trace, old(statuses)[rows[id].instance], statuses[rows[id].instance])
      ensures misses == old(misses) && DeadReport(copy, trace) ==> statuses[rows[id].instance] == World.Error
      ensures done ==> statuses[rows[id].instance] == World.Active
      ensures LastEntered(Start(copy), trace).Some? ==>
                forall j :: Reached(Start(copy)) <= j < LastEntered(Start(copy), trace).value ==>
                  j in Successes(Start(copy), trace)
    {
      NoEventsYet(rows[id].job, copy.attempts, Start(copy));
      hide LastEntered, Walk, Written, Advance, RowEffect, Start, LeftBehind, Ordered, Successes, StepStatus, Reached;
      ghost var job, initial := rows[id].job, statuses[rows[id].instance];
      var ok;
      ok, trace := RunSteps(id, copy, now);
      done := false;
      if ok {
        done, trace := MarkCompleted(id, copy, now, job, trace);
      }
      ExecuteIsEarned(copy, trace);
      StatusIsLeftBehind(copy, trace, initial, statuses[rows[id].instance]);
    }

    static lemma ExecuteIsEarned(copy: Job, trace: seq<Event>)
      requires Walk(Start(copy), trace).Some?
      ensures Ordered(trace)
      ensures LastEntered(Start(copy), trace).Some? ==>
                forall j :: Reached(Start(copy)) <= j < LastEntered(Start(copy), trace).value ==>
                  j in Successes(Start(copy), trace)
    {
      WalkIsOrdered(Reached(Start(copy)), trace);
      StepsAreEarned(Reached(Start(copy)), trace);
    }

    static lemma NothingDone(copy: Job, job: Job, initial: World.VpsStatus, i: nat)
      requires i == (if copy.step.Some? && copy.step.value < STEPS then copy.step.value else 0)
      requires job.maxAttempts == copy.maxAttempts
      ensures UnderWay(copy, job, initial, [], WriteStep(i), job, initial)
    {
    }

    /** The loop of Execute. */
    method RunSteps(id: nat, copy: Job, now: nat) returns (ok: bool, ghost trace: seq<Event>)
      requires id in rows && 1 <= copy.attempts && copy.maxAttempts == rows[id].job.maxAttempts
      requires rows[id].instance in statuses
      modifies this
      ensures id in rows && rows == old(rows)[id := rows[id]]
      ensures rows[id].instance == old(rows)[id].instance && rows[id].instance in statuses
      ensures statuses == old(statuses)[rows[id].instance := statuses[rows[id].instance]]
      ensures ok ==> && UnderWay(copy, old(rows)[id].job, old(statuses)[rows[id].instance], trace, Finish,
                                 rows[id].job, statuses[rows[id].instance])
                     && LastEntered(Start(copy), trace) == Some(STEPS - 1)
      ensures !ok ==> Aborted(copy, old(rows)[id].job, old(statuses)[rows[id].instance], trace,
                              misses > old(misses), rows[id].job, statuses[rows[id].instance])
      ensures misses >= old(misses) && trouble >= old(trouble) && (trouble == old(trouble) ==> ok)
    {
      hide Aborted, LastEntered, Walk, Start, Written, StatusOf;
      trace := [];
      ghost var job, initial := rows[id].job, statuses[rows[id].instance];
      var i := if copy.step.Some? && copy.step.value < STEPS then copy.step.value else 0;
      NothingDone(copy, job, initial, i);
      while i < STEPS
        invariant i <= STEPS && trouble >= old(trouble) && misses == old(misses)
        invariant id in rows && rows == old(rows)[id := rows[id]]
        invariant rows[id].instance == old(rows)[id].instance && rows[id].instance in statuses
        invariant statuses == old(statuses)[rows[id].instance := statuses[rows[id].instance]]
        invariant UnderWay(copy, job, initial, trace, if i < STEPS then WriteStep(i) else Finish,
                           rows[id].job, statuses[rows[id].instance])
        invariant i == STEPS ==> LastEntered(Start(copy), trace) == Some(STEPS - 1)
      {
        ok, trace := RunStep(id, copy, i, now, job, initial, trace);
        if !ok {
          return;
        }
        i := i + 1;
      }
      return true, trace;
    }

    /** The last write of Execute. */
    method MarkCompleted(id: nat, copy: Job, now: nat, ghost job: Job, ghost before: seq<Event>)
      returns (done: bool, ghost trace: seq<Event>)
      requires id in rows && Walk(Start(copy), before) == Some(Finish)
      requires rows[id].job == Written(job, copy.attempts, Start(copy), before)
      modifies this`rows, this`trouble, this`misses
      ensures Walk(Start(copy), trace) == Some(Stopped) && trace == before + [Finished(done)]
      ensures id in rows && rows == old(rows)[id := rows[id]] && rows[id].instance == old(rows)[id].instance
      ensures rows[id].job == Written(job, copy.attempts, Start(copy), trace)
      ensures trouble == if done then old(trouble) else old(trouble) + 1
      ensures misses == if done then old(misses) else old(misses) + 1
      ensures done ==> rows[id].job == old(rows)[id].job.(status := Completed, step := Some(STEPS - 1))
      ensures LastEntered(Start(copy), trace) == LastEntered(Start(copy), before)
    {
      hide LastEntered, Walk, Written, Start;
      done := WriteJob(id, rows[id].job.(status := Completed, step := Some(STEPS - 1)), rows[id].nextRetryAt, now);
      trace := Emit(job, copy.attempts, Start(copy), before, Finished(done));
    }
  }
}
