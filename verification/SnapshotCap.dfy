/** The cap on user snapshots (CreateSnapshotWithLimit in backend/internal/db/queries.go,
    backend/internal/api/snapshots.go, and reconcileStaleSnapshotting in
    backend/internal/jobs/reconciler.go).  Creation counts under a row lock; after that a
    snapshot is moved along by an executor, a delete, or the reconciler, none of which
    looks at the status it overwrites.  Only timing keeps a row given up as stale from
    becoming ready again. */
module SnapshotCap {
  import opened Options
  import opened Sets
  import opened World

  type Rows = map<SnapshotId, Snapshot>

  /** What the cap counts: user snapshots that are not deleted, failed or being deleted. */
  predicate Counts(row: Snapshot, instance: InstanceId) {
    row.instance == instance && !row.isSystem && row.status !in {Deleted, Failed, Deleting}
  }

  function Counted(rows: Rows, instance: InstanceId): set<SnapshotId> {
    set snap | snap in rows && Counts(rows[snap], instance)
  }

  lemma CreatingOrReady(rows: Rows, instance: InstanceId)
    ensures Counted(rows, instance)
            == set snap | snap in rows && rows[snap].instance == instance && !rows[snap].isSystem
                          && rows[snap].status in {Creating, Ready}
  {
    forall snap | snap in rows
      ensures rows[snap].status !in {Deleted, Failed, Deleting} <==> rows[snap].status in {Creating, Ready}
    {
      var status := rows[snap].status;
      assert status.Creating? || status.Ready? || status.Failed? || status.Deleting? || status.Deleted?;
    }
  }

  const LIMIT: nat := 3
  const CALL_CAP: nat := 15 * 60
  const WRITE_CAP: nat := 30
  const STALE: nat := 20 * 60

  function NewRow(instance: InstanceId, isSystem: bool, began: nat): Snapshot {
    Snapshot(instance, None, Creating, isSystem, began)
  }

  /** An UPDATE sets the status, and the image if it has one to set. */
  function Overwrite(row: Snapshot, status: SnapshotStatus, img: Option<ImageId>): Snapshot {
    row.(status := status, image := if img.Some? then img else row.image)
  }

  // ---------------------------------------------------------------------------
  // All the parties at once, with a clock

  /** The longest time from the creation of the row to the start of its executor (the code
      sets no limit on it), the deadlines of the provider call and of the status write, and
      the age at which the reconciler gives up. */
  datatype Timing = Timing(start: nat, call: nat, write: nat, stale: nat)

  predicate LeavesAGap(timing: Timing) {
    timing.start + timing.call + timing.write <= timing.stale
  }

  /** executeCreateSnapshot: waiting to run, in the provider call, or about to write. */
  datatype Executor = Waiting | Calling(since: nat) | Writing(until: nat, img: Option<ImageId>)

  /** The rows, the live executors, and the checks that have been made but not yet acted on:
      rows seen stale by the reconciler and rows seen deletable by a handler. */
  datatype State = System(now: nat, rows: Rows, executors: map<SnapshotId, Executor>,
                          seenStale: set<SnapshotId>, seenDone: set<SnapshotId>)

  datatype Action =
    | Tick(seconds: nat)
    | Create(snap: SnapshotId, instance: InstanceId, isSystem: bool)
    | Start(snap: SnapshotId)
    | CallReturns(snap: SnapshotId, img: Option<ImageId>)
    | Write(snap: SnapshotId)
    | ExecutorEnds(snap: SnapshotId)       // its write failed or came too late, or it died
    | SeeStale(snap: SnapshotId)
    | MarkStale(snap: SnapshotId)
    | SeeDone(snap: SnapshotId)            // DeleteSnapshotHandler reads ready or error
    | MarkDeleting(snap: SnapshotId)       // and overwrites what it read
    | FinishDelete(snap: SnapshotId, deleted: bool)

  function SetRow(rows: Rows, snap: SnapshotId, status: SnapshotStatus): Rows {
    if snap in rows then rows[snap := rows[snap].(status := status)] else rows
  }

  /** An action, or None where it cannot happen. */
  function Next(timing: Timing, s: State, a: Action): Option<State> {
    match a
    case Tick(seconds) => Some(s.(now := s.now + seconds))
    case Create(snap, instance, isSystem) =>
      if snap in s.rows || (!isSystem && |Counted(s.rows, instance)| >= LIMIT) then None
      else Some(s.(rows := s.rows[snap := NewRow(instance, isSystem, s.now)],
                   executors := s.executors[snap := Waiting]))
    case Start(snap) =>
      if snap !in s.executors || snap !in s.rows || !s.executors[snap].Waiting?
         || s.now > s.rows[snap].createdAt + timing.start then None
      else Some(s.(executors := s.executors[snap := Calling(s.now)]))
    case CallReturns(snap, img) =>
      if snap !in s.executors || !s.executors[snap].Calling? || s.now > s.executors[snap].since + timing.call
      then None
      else Some(s.(executors := s.executors[snap := Writing(s.now + timing.write, img)]))
    case Write(snap) =>
      if snap !in s.executors || snap !in s.rows || !s.executors[snap].Writing? || s.now > s.executors[snap].until
      then None
      else
        var img := s.executors[snap].img;
        var row := Overwrite(s.rows[snap], if img.Some? then Ready else Failed, img);
        Some(s.(rows := s.rows[snap := row], executors := s.executors - {snap}))
    case ExecutorEnds(snap) =>
      if snap !in s.executors then None else Some(s.(executors := s.executors - {snap}))
    case SeeStale(snap) =>
      if snap !in s.rows || s.rows[snap].status != Creating || s.now <= s.rows[snap].createdAt + timing.stale
      then None
      else Some(s.(seenStale := s.seenStale + {snap}))
    case MarkStale(snap) =>
      if snap !in s.seenStale then None
      else Some(s.(rows := SetRow(s.rows, snap, Failed), seenStale := s.seenStale - {snap}))
    case SeeDone(snap) =>
      if snap !in s.rows || s.rows[snap].status !in {Ready, Failed} then None
      else Some(s.(seenDone := s.seenDone + {snap}))
    case MarkDeleting(snap) =>
      if snap !in s.seenDone then None else Some(s.(rows := SetRow(s.rows, snap, Deleting)))
    case FinishDelete(snap, deleted) =>
      if snap !in s.seenDone then None
      else Some(s.(rows := SetRow(s.rows, snap, if deleted then Deleted else Failed)))
  }

  function Init(): State { System(0, map[], map[], {}, {}) }

  function Run(timing: Timing, s: State, actions: seq<Action>): Option<State>
    decreases |actions|
  {
    if actions == [] then Some(s)
    else
      var before := Run(timing, s, actions[..|actions| - 1]);
      if before.None? then None else Next(timing, before.value, actions[|actions| - 1])
  }

  predicate Expired(timing: Timing, s: State, snap: SnapshotId)
    requires snap in s.rows
  {
    s.now > s.rows[snap].createdAt + timing.stale
  }

  /** A live executor is within its deadlines, and its row is still in the making unless the
      row is too old for the executor to write it any more. */
  predicate ExecutorInv(timing: Timing, s: State, snap: SnapshotId)
    requires snap in s.executors
  {
    && snap in s.rows
    && (s.rows[snap].status != Creating || snap in s.seenDone ==> Expired(timing, s, snap))
    && match s.executors[snap]
       case Waiting => true
       case Calling(since) => since <= s.rows[snap].createdAt + timing.start
       case Writing(until, _) => until <= s.rows[snap].createdAt + timing.start + timing.call + timing.write
  }

  /** What has been seen is so: stale rows are too old, and a row in the making that was
      seen done has been given up meanwhile. */
  predicate SeenInv(timing: Timing, s: State) {
    && (forall snap :: snap in s.seenStale ==> snap in s.rows && Expired(timing, s, snap))
    && s.seenDone <= s.rows.Keys
    && (forall snap :: snap in s.seenDone && s.rows[snap].status == Creating ==> Expired(timing, s, snap))
  }

  predicate ExecutorsInv(timing: Timing, s: State) {
    forall snap :: snap in s.executors ==> ExecutorInv(timing, s, snap)
  }

  ghost predicate Inv(timing: Timing, s: State) {
    && ExecutorsInv(timing, s) && SeenInv(timing, s)
    && (forall instance :: |Counted(s.rows, instance)| <= LIMIT)
  }

  lemma StepKeepsSeen(timing: Timing, s: State, a: Action)
    requires ExecutorsInv(timing, s) && SeenInv(timing, s) && Next(timing, s, a).Some?
    ensures SeenInv(timing, Next(timing, s, a).value)
  {
    hide Counted;
  }

  lemma StepKeepsExecutors(timing: Timing, s: State, a: Action)
    requires LeavesAGap(timing) && ExecutorsInv(timing, s) && SeenInv(timing, s) && Next(timing, s, a).Some?
    ensures ExecutorsInv(timing, Next(timing, s, a).value)
  {
    hide Counted;
  }

  /** Only a creation adds to what the cap counts. */
  lemma OnlyCreationAdds(timing: Timing, s: State, a: Action, instance: InstanceId)
    requires LeavesAGap(timing) && Inv(timing, s) && Next(timing, s, a).Some?
    ensures var s' := Next(timing, s, a).value;
      || Counted(s'.rows, instance) <= Counted(s.rows, instance)
      || (a.Create? && a.instance == instance && !a.isSystem
          && Counted(s'.rows, instance) == Counted(s.rows, instance) + {a.snap})
  {
  }

  lemma StepKeepsInv(timing: Timing, s: State, a: Action)
    requires LeavesAGap(timing) && Inv(timing, s) && Next(timing, s, a).Some?
    ensures Inv(timing, Next(timing, s, a).value)
  {
    StepKeepsExecutors(timing, s, a);
    StepKeepsSeen(timing, s, a);
    hide Next, ExecutorsInv, SeenInv;
    var s' := Next(timing, s, a).value;
    forall instance ensures |Counted(s'.rows, instance)| <= LIMIT {
      OnlyCreationAdds(timing, s, a, instance);
      if Counted(s'.rows, instance) <= Counted(s.rows, instance) {
        SubsetSize(Counted(s'.rows, instance), Counted(s.rows, instance));
      }
    }
  }

  lemma {:induction false} RunKeepsInv(timing: Timing, actions: seq<Action>)
    requires LeavesAGap(timing) && Run(timing, Init(), actions).Some?
    ensures Inv(timing, Run(timing, Init(), actions).value)
    decreases |actions|
  {
    if actions == [] {
      assert forall instance :: Counted(Init().rows, instance) == {};
    } else {
      RunKeepsInv(timing, actions[..|actions| - 1]);
      StepKeepsInv(timing, Run(timing, Init(), actions[..|actions| - 1]).value, actions[|actions| - 1]);
    }
  }

  /** No run ever has more than three user snapshots of one instance in the making or
      ready. */
  ghost predicate Capped(timing: Timing) {
    forall actions, instance :: Run(timing, Init(), actions).Some? ==>
      |Counted(Run(timing, Init(), actions).value.rows, instance)| <= LIMIT
  }

  lemma Extend(timing: Timing, s: State, actions: seq<Action>, a: Action) returns (longer: seq<Action>)
    requires Run(timing, s, actions).Some? && Next(timing, Run(timing, s, actions).value, a).Some?
    ensures longer == actions + [a] && Run(timing, s, longer) == Next(timing, Run(timing, s, actions).value, a)
  {
    longer := actions + [a];
    assert longer[..|actions|] == actions;
  }

  function ThreeRows(): Rows {
    map[0 := NewRow(0, false, 0), 1 := NewRow(0, false, 0), 2 := NewRow(0, false, 0)]
  }

  lemma CreateOne(timing: Timing, actions: seq<Action>, snap: SnapshotId) returns (longer: seq<Action>)
    requires Run(timing, Init(), actions).Some?
    requires var s := Run(timing, Init(), actions).value; snap !in s.rows && |Counted(s.rows, 0)| < LIMIT
    ensures var s := Run(timing, Init(), actions).value;
      Run(timing, Init(), longer) == Some(s.(rows := s.rows[snap := NewRow(0, false, s.now)],
                                     executors := s.executors[snap := Waiting]))
  {
    longer := Extend(timing, Init(), actions, Create(snap, 0, false));
  }

  lemma ThreeCreations(timing: Timing) returns (actions: seq<Action>)
    ensures Run(timing, Init(), actions)
            == Some(System(0, ThreeRows(), map[0 := Waiting, 1 := Waiting, 2 := Waiting], {}, {}))
  {
    assert Run(timing, Init(), []) == Some(Init());
    hide Run, Next;
    var row := NewRow(0, false, 0);
    assert Counted(map[], 0) == {};
    actions := CreateOne(timing, [], 0);
    assert Counted(map[0 := row], 0) == {0};
    assert Run(timing, Init(), actions).value.rows == map[0 := row];
    actions := CreateOne(timing, actions, 1);
    assert Counted(map[0 := row, 1 := row], 0) == {0, 1};
    assert Run(timing, Init(), actions).value.rows == map[0 := row, 1 := row];
    actions := CreateOne(timing, actions, 2);
  }

  function Running(now: nat, first: Executor): State {
    System(now, ThreeRows(), map[0 := first, 1 := Waiting, 2 := Waiting], {}, {})
  }

  lemma StartedLate(timing: Timing, begin: nat) returns (actions: seq<Action>)
    requires begin <= timing.start
    ensures Run(timing, Init(), actions) == Some(Running(begin, Calling(begin)))
  {
    actions := ThreeCreations(timing);
    actions := Extend(timing, Init(), actions, Tick(begin));
    actions := Extend(timing, Init(), actions, Start(0));
    assert Run(timing, Init(), actions).value.executors == map[0 := Calling(begin), 1 := Waiting, 2 := Waiting];
  }

  lemma ReturnedLate(timing: Timing, begin: nat, returned: nat) returns (actions: seq<Action>)
    requires begin <= timing.start && begin <= returned <= begin + timing.call
    ensures Run(timing, Init(), actions) == Some(Running(returned, Writing(returned + timing.write, Some(7))))
  {
    hide Run;
    actions := StartedLate(timing, begin);
    actions := Extend(timing, Init(), actions, Tick(returned - begin));
    actions := Extend(timing, Init(), actions, CallReturns(0, Some(7)));
    assert Run(timing, Init(), actions).value.executors
           == map[0 := Writing(returned + timing.write, Some(7)), 1 := Waiting, 2 := Waiting];
  }

  /** Snapshot 0 is about to be recorded when it is already too old. */
  lemma SlowSnapshot(timing: Timing) returns (actions: seq<Action>, until: nat)
    requires !LeavesAGap(timing)
    ensures until > timing.stale
    ensures Run(timing, Init(), actions) == Some(Running(timing.stale + 1, Writing(until, Some(7))))
  {
    var late := timing.stale + 1;
    var begin := if timing.start < late then timing.start else late;
    var returned := if begin + timing.call < late then begin + timing.call else late;
    until := returned + timing.write;
    hide Run;
    actions := ReturnedLate(timing, begin, returned);
    actions := Extend(timing, Init(), actions, Tick(late - returned));
  }

  lemma MakeRoom(timing: Timing, actions: seq<Action>, until: nat) returns (longer: seq<Action>)
    requires Run(timing, Init(), actions) == Some(Running(timing.stale + 1, Writing(until, Some(7))))
    ensures Run(timing, Init(), longer).Some?
    ensures var s := Run(timing, Init(), longer).value;
      && s.now == timing.stale + 1 && s.rows == ThreeRows()[0 := NewRow(0, false, 0).(status := Failed)]
      && s.executors == map[0 := Writing(until, Some(7)), 1 := Waiting, 2 := Waiting]
      && Counted(s.rows, 0) == {1, 2}
  {
    hide Run;
    longer := Extend(timing, Init(), actions, SeeStale(0));
    longer := Extend(timing, Init(), longer, MarkStale(0));
  }

  /** Without the gap, a snapshot given up as stale makes room for a fourth and is then
      recorded as ready after all. */
  lemma FourSnapshots(timing: Timing)
    requires !LeavesAGap(timing)
    ensures !Capped(timing)
  {
    hide Run;
    var actions, until := SlowSnapshot(timing);
    actions := MakeRoom(timing, actions, until);
    actions := Extend(timing, Init(), actions, Create(3, 0, false));
    actions := Extend(timing, Init(), actions, Write(0));
    assert Counted(Run(timing, Init(), actions).value.rows, 0) == {0, 1, 2, 3};
  }

  /** The cap holds in every interleaving if and only if the executor's deadlines, from the
      creation of the row on, end before the reconciler gives the row up. */
  lemma CapIsExact(timing: Timing)
    ensures Capped(timing) <==> LeavesAGap(timing)
  {
    if LeavesAGap(timing) {
      forall actions, instance | Run(timing, Init(), actions).Some?
        ensures |Counted(Run(timing, Init(), actions).value.rows, instance)| <= LIMIT
      {
        RunKeepsInv(timing, actions);
      }
    } else {
      FourSnapshots(timing);
    }
  }

  /** With the code's constants the cap holds exactly if every executor starts within four
      and a half minutes of its row. */
  lemma CapWithTheCodesDeadlines(start: nat)
    ensures Capped(Timing(start, CALL_CAP, WRITE_CAP, STALE)) <==> start <= 270
  {
    CapIsExact(Timing(start, CALL_CAP, WRITE_CAP, STALE));
  }

  // ---------------------------------------------------------------------------
  // The code

  datatype Created = Inserted | LimitReached | CreateFailed

  /** The table, the background tasks and the clock.  Every method below does what actions
      of the machine do, and names them, so the results for all runs apply to the code
      however its parts are interleaved. */
  class Table {
    const timing: Timing
    var instances: set<InstanceId>
    var now: nat
    var rows: Rows
    var executors: map<SnapshotId, Executor>
    var seenStale: set<SnapshotId>
    var seenDone: set<SnapshotId>
    ghost var trouble: nat      // calls that have failed so far

    function View(): State
      reads this
    {
      System(now, rows, executors, seenStale, seenDone)
    }

    method Chance() returns (ok: bool)
      modifies this`trouble
      ensures trouble == if ok then old(trouble) else old(trouble) + 1
    {
      ok := *;
      trouble := if ok then trouble else trouble + 1;
    }

    /** CreateSnapshotWithLimit as CreateSnapshotHandler calls it: lock the instance row,
        count, insert; then the task is started.  It is one creation of the machine, or
        nothing; when no call fails it inserts if and only if the machine can. */
    method CreateSnapshotWithLimit(snap: SnapshotId, instance: InstanceId) returns (result: Created)
      requires snap !in rows
      modifies this`rows, this`executors, this`trouble
      ensures result == Inserted ==> Next(timing, old(View()), Create(snap, instance, false)) == Some(View())
      ensures result != Inserted ==> View() == old(View())
      ensures result == LimitReached ==> Next(timing, old(View()), Create(snap, instance, false)).None?
      ensures trouble == old(trouble) && instance in instances ==>
                (result == Inserted <==> Next(timing, old(View()), Create(snap, instance, false)).Some?)
      ensures trouble == old(trouble) && instance in instances ==>
                (result == Inserted <==>
                   |set s | s in old(rows) && old(rows)[s].instance == instance && !old(rows)[s].isSystem
                            && old(rows)[s].status in {Creating, Ready}| < 3)
    {
      CreatingOrReady(rows, instance);
      var locked := Chance();
      if !locked || instance !in instances {
        return CreateFailed;
      }
      var count := CountRows(rows, instance);
      if count >= LIMIT {
        return LimitReached;
      }
      var written := Chance();
      if !written {
        return CreateFailed;
      }
      rows := rows[snap := NewRow(instance, false, now)];
      executors := executors[snap := Waiting];
      return Inserted;
    }

    /** executeCreateSnapshot, started in time.  The provider's call is cut off at its
        deadline, and so is the status write; whatever the status was is overwritten. */
    method ExecuteCreateSnapshot(snap: SnapshotId, callTime: nat, writeTime: nat) returns (ghost trace: seq<Action>)
      requires snap in rows && snap in executors && executors[snap] == Waiting
      requires now <= rows[snap].createdAt + timing.start
      modifies this`now, this`rows, this`executors, this`trouble
      ensures Run(timing, old(View()), trace) == Some(View()) && snap !in executors
      ensures rows.Keys == old(rows).Keys && (forall s :: s in rows && s != snap ==> rows[s] == old(rows)[s])
      ensures trouble == old(trouble) ==> rows[snap].status == Ready
      ensures Executed(old(rows)[snap], rows[snap])
    {
      ghost var s := View();
      NothingRun(timing, s);
      hide Run;
      executors := executors[snap := Calling(now)];
      trace := Extend(timing, s, [], Start(snap));
      var took := callTime;
      var made := Chance();
      var img: Option<ImageId> := None;
      if took > timing.call {
        took := timing.call;
        trouble := trouble + 1;
      } else if made {
        var id: ImageId := *;
        img := Some(id);
      }
      now := now + took;
      trace := Extend(timing, s, trace, Tick(took));
      executors := executors[snap := Writing(now + timing.write, img)];
      trace := Extend(timing, s, trace, CallReturns(snap, img));
      trace := FinishExecutor(snap, img, writeTime, s, trace);
    }

    /** The status write of the executor. */
    method FinishExecutor(snap: SnapshotId, img: Option<ImageId>, took: nat, ghost s: State, ghost before: seq<Action>)
      returns (ghost trace: seq<Action>)
      requires Run(timing, s, before) == Some(View()) && snap in rows && snap in executors
      requires executors[snap] == Writing(now + timing.write, img)
      modifies this`now, this`rows, this`executors, this`trouble
      ensures Run(timing, s, trace) == Some(View()) && snap !in executors
      ensures rows.Keys == old(rows).Keys && (forall s :: s in rows && s != snap ==> rows[s] == old(rows)[s])
      ensures trouble >= old(trouble) && (trouble == old(trouble) && img.Some? ==> rows[snap].status == Ready)
      ensures Executed(old(rows)[snap], rows[snap])
      ensures trouble == old(trouble) && img.None? ==> rows[snap].status == Failed
    {
      hide Run;
      var written := Chance();
      now := now + took;
      trace := Extend(timing, s, before, Tick(took));
      if !written || took > timing.write {
        trouble := trouble + 1;
        executors := executors - {snap};
        trace := Extend(timing, s, trace, ExecutorEnds(snap));
        return;
      }
      rows := rows[snap := Overwrite(rows[snap], if img.Some? then Ready else Failed, img)];
      executors := executors - {snap};
      trace := Extend(timing, s, trace, Write(snap));
    }

    /** DeleteSnapshotHandler and executeDeleteSnapshot.  Only a ready or failed snapshot is
        accepted, and then the status is overwritten whatever it has become. */
    method DeleteSnapshot(snap: SnapshotId) returns (accepted: bool, ghost trace: seq<Action>)
      modifies this`rows, this`seenDone, this`trouble
      ensures Run(timing, old(View()), trace) == Some(View())
      ensures accepted ==> snap in old(rows) && old(rows)[snap].status in {Ready, Failed} && snap in rows
      ensures !accepted ==> rows == old(rows)
      ensures trouble == old(trouble) && snap in old(rows) && old(rows)[snap].status in {Ready, Failed} ==>
                accepted && rows[snap].status == Deleted
      ensures accepted ==> (rows[snap].status == Deleted <==> FinishDelete(snap, true) in trace)
      ensures accepted ==> (rows[snap].status == Failed <==> FinishDelete(snap, false) in trace)
    {
      ghost var s := View();
      NothingRun(timing, s);
      hide Run;
      trace := [];
      if snap !in rows || rows[snap].status !in {Ready, Failed} {
        return false, trace;
      }
      seenDone := seenDone + {snap};
      trace := Extend(timing, s, trace, SeeDone(snap));
      accepted := Chance();
      if accepted {
        rows := SetRow(rows, snap, Deleting);
        trace := Extend(timing, s, trace, MarkDeleting(snap));
        trace := ExecuteDeleteSnapshot(snap, s, trace);
      }
    }

    method ExecuteDeleteSnapshot(snap: SnapshotId, ghost s: State, ghost before: seq<Action>)
      returns (ghost trace: seq<Action>)
      requires Run(timing, s, before) == Some(View()) && snap in rows && snap in seenDone
      requires rows[snap].status == Deleting
      requires FinishDelete(snap, true) !in before && FinishDelete(snap, false) !in before
      modifies this`rows, this`trouble
      ensures Run(timing, s, trace) == Some(View()) && snap in rows
      ensures trouble >= old(trouble) && (trouble == old(trouble) ==> rows[snap].status == Deleted)
      ensures rows[snap].status == Deleted <==> FinishDelete(snap, true) in trace
      ensures rows[snap].status == Failed <==> FinishDelete(snap, false) in trace
    {
      hide Run;
      trace := before;
      var deleted := true;
      if rows[snap].image.Some? {
        deleted := Chance();
      }
      var written := Chance();
      if written {
        rows := SetRow(rows, snap, if deleted then Deleted else Failed);
        trace := Extend(timing, s, trace, FinishDelete(snap, deleted));
      }
    }

    /** reconcileStaleSnapshotting for one instance: every user snapshot in the making for
        longer than the limit is marked as failed, unless that write fails. */
    method ReconcileStaleSnapshotting(instance: InstanceId) returns (ghost trace: seq<Action>)
      modifies this`rows, this`seenStale, this`trouble
      ensures Run(timing, old(View()), trace) == Some(View())
      ensures trouble == old(trouble) ==>
                rows == map snap | snap in old(rows) ::
                          var row := old(rows)[snap];
                          if row.instance == instance && !row.isSystem && row.status == Creating
                             && row.createdAt + timing.stale < now
                          then row.(status := Failed) else row
    {
      ghost var s := View();
      NothingRun(timing, s);
      hide Run, Next;
      trace := [];
      var read := Chance();
      if !read {
        return;
      }
      trace := SweepRows(rows, instance, s, trace);
    }

    /** The loop, over the rows as they were read. */
    method SweepRows(copies: Rows, instance: InstanceId, ghost s: State, ghost before: seq<Action>)
      returns (ghost trace: seq<Action>)
      requires Run(timing, s, before) == Some(View()) && copies == rows
      modifies this`rows, this`seenStale, this`trouble
      ensures Run(timing, s, trace) == Some(View()) && trouble >= old(trouble)
      ensures trouble == old(trouble) ==>
                rows == map snap | snap in copies :: GivenUp(timing, copies[snap], instance, now)
    {
      trace := before;
      var rest := set snap | snap in copies && copies[snap].instance == instance && !copies[snap].isSystem;
      assert Todo(copies, rows, rest, instance) && Swept(timing, copies, rows, rest, instance, now);
      while rest != {}
        invariant trouble >= old(trouble) && Run(timing, s, trace) == Some(View())
        invariant Todo(copies, rows, rest, instance)
        invariant trouble == old(trouble) ==> Swept(timing, copies, rows, rest, instance, now)
        decreases rest
      {
        hide Swept, Todo, Run, View;
        var snap :| snap in rest;
        trace := Consider(copies, rest, snap, instance, s, trace);
        rest := rest - {snap};
      }
    }

    /** One row. */
    method Consider(copies: Rows, ghost rest: set<SnapshotId>, snap: SnapshotId, ghost instance: InstanceId,
                    ghost s: State, ghost before: seq<Action>)
      returns (ghost trace: seq<Action>)
      requires Run(timing, s, before) == Some(View()) && Todo(copies, rows, rest, instance) && snap in rest
      modifies this`rows, this`seenStale, this`trouble
      ensures Run(timing, s, trace) == Some(View()) && trouble >= old(trouble)
      ensures Todo(copies, rows, rest - {snap}, instance)
      ensures trouble == old(trouble) && Swept(timing, copies, old(rows), rest, instance, now) ==>
                Swept(timing, copies, rows, rest - {snap}, instance, now)
    {
      hide Run;
      trace := before;
      if copies[snap].status == Creating && now > copies[snap].createdAt + timing.stale {
        trace := GiveUp(snap, s, trace);
      }
      hide Swept, View;
      TodoLess(copies, old(rows), rows, rest, snap, instance);
      if trouble == old(trouble) && Swept(timing, copies, old(rows), rest, instance, now) {
        SweptOne(timing, copies, old(rows), rows, rest, snap, instance, now);
      }
    }

    /** UpdateSnapshotError for a snapshot that was seen stale. */
    method GiveUp(snap: SnapshotId, ghost s: State, ghost before: seq<Action>) returns (ghost trace: seq<Action>)
      requires Run(timing, s, before) == Some(View()) && snap in rows
      requires rows[snap].status == Creating && now > rows[snap].createdAt + timing.stale
      modifies this`rows, this`seenStale, this`trouble
      ensures Run(timing, s, trace) == Some(View())
      ensures trouble >= old(trouble)
      ensures trouble == old(trouble) ==> rows == old(rows)[snap := old(rows)[snap].(status := Failed)]
      ensures trouble > old(trouble) ==> rows == old(rows)
    {
      hide Run;
      seenStale := seenStale + {snap};
      trace := Extend(timing, s, before, SeeStale(snap));
      var written := Chance();
      if written {
        rows := SetRow(rows, snap, Failed);
        seenStale := seenStale - {snap};
        trace := Extend(timing, s, trace, MarkStale(snap));
      }
    }
  }

  /** What an executor can do to its row: make it ready with an image, or failed. */
  predicate Executed(before: Snapshot, after: Snapshot) {
    || after == before || after == before.(status := Failed)
    || (after.image.Some? && after == before.(status := Ready, image := after.image))
  }

  /** The rows that are still to be looked at. */
  predicate Todo(copies: Rows, rows: Rows, rest: set<SnapshotId>, instance: InstanceId) {
    && rows.Keys == copies.Keys
    && forall snap :: snap in rest ==>
         snap in copies && rows[snap] == copies[snap] && !copies[snap].isSystem && copies[snap].instance == instance
  }

  lemma TodoLess(copies: Rows, was: Rows, rows: Rows, rest: set<SnapshotId>, snap: SnapshotId, instance: InstanceId)
    requires Todo(copies, was, rest, instance) && snap in rest
    requires rows == was || rows == was[snap := was[snap].(status := Failed)]
    ensures Todo(copies, rows, rest - {snap}, instance)
  {
  }

  /** The rows that have been dealt with. */
  predicate Swept(timing: Timing, copies: Rows, rows: Rows, rest: set<SnapshotId>, instance: InstanceId, now: nat) {
    forall snap :: snap in copies && snap !in rest ==>
      snap in rows && rows[snap] == GivenUp(timing, copies[snap], instance, now)
  }

  lemma SweptOne(timing: Timing, copies: Rows, was: Rows, rows: Rows, rest: set<SnapshotId>, snap: SnapshotId,
                 instance: InstanceId, now: nat)
    requires Swept(timing, copies, was, rest, instance, now) && snap in copies
    requires rows == was[snap := GivenUp(timing, copies[snap], instance, now)]
    ensures Swept(timing, copies, rows, rest - {snap}, instance, now)
  {
  }

  function GivenUp(timing: Timing, row: Snapshot, instance: InstanceId, now: nat): Snapshot {
    if IsStale(timing, row, instance, now) then row.(status := Failed) else row
  }

  lemma NothingRun(timing: Timing, s: State)
    ensures Run(timing, s, []) == Some(s)
  {
  }

  predicate IsStale(timing: Timing, row: Snapshot, instance: InstanceId, now: nat) {
    row.instance == instance && !row.isSystem && row.status == Creating && now > row.createdAt + timing.stale
  }

  /** SELECT count(*). */
  method CountRows(rows: Rows, instance: InstanceId) returns (count: nat)
    ensures count == |Counted(rows, instance)|
  {
    count := 0;
    var rest := rows.Keys;
    while rest != {}
      invariant rest <= rows.Keys
      invariant count == |set snap | snap in rows && snap !in rest && Counts(rows[snap], instance)|
      decreases rest
    {
      var snap :| snap in rest;
      ghost var seen := set s | s in rows && s !in rest && Counts(rows[s], instance);
      rest := rest - {snap};
      ghost var seen' := set s | s in rows && s !in rest && Counts(rows[s], instance);
      assert seen' == seen + if Counts(rows[snap], instance) then {snap} else {};
      if Counts(rows[snap], instance) {
        count := count + 1;
      }
    }
    assert Counted(rows, instance) == set s | s in rows && s !in rest && Counts(rows[s], instance);
  }
}
