/** Suspending an instance whose subscription is past due (suspendPastDue and
    createSuspensionSnapshot in backend/internal/jobs/enforcer.go): the only copy of the
    customer's disk moves from a server to an image. */
module Suspend {
  import opened Options
  import opened World
  import opened Custody

  /** One suspension: the instance, the server its row named, the ids its snapshot row and
      its image get, and the time. */
  datatype Plan = Plan(id: InstanceId, server: ServerId, snap: SnapshotId, img: ImageId, now: nat)

  datatype Point =
    | MarkSuspending | InsertRow | TakeImage | NoteFailure | MarkReady
    | DropServer | ClearRow | MarkSuspended | Done

  /** The calls of suspendPastDue for one instance and of createSuspensionSnapshot, in order. */
  function Expected(p: Plan, at: Point): Option<Call> {
    match at
    case MarkSuspending => Some(SetStatus(p.id, Suspending))
    case InsertRow => Some(InsertSnapshot(p.snap, p.id, true, p.now))
    case TakeImage => Some(CreateImage(p.img, p.server))
    case NoteFailure => Some(SetSnapshotStatus(p.snap, Failed))
    case MarkReady => Some(SetSnapshotReady(p.snap, p.img))
    case DropServer => Some(DeleteServer(p.server))
    case ClearRow => Some(ClearProviderInfo(p.id))
    case MarkSuspended => Some(SetStatus(p.id, Suspended))
    case Done => None
  }

  /** Only the snapshot's own calls depend on what happened before; everything else goes on
      whatever fails. */
  function Advance(at: Point, ok: bool): Point {
    match at
    case MarkSuspending => InsertRow
    case InsertRow => if ok then TakeImage else DropServer
    case TakeImage => if ok then MarkReady else NoteFailure
    case NoteFailure => DropServer
    case MarkReady => DropServer
    case DropServer => ClearRow
    case ClearRow => MarkSuspended
    case MarkSuspended => Done
    case Done => Done
  }

  /** Where a suspension is after these steps; None if they are not its steps.  A process
      that dies leaves behind the steps up to some point. */
  function Follows(p: Plan, before: State, steps: seq<Step>): Option<Point>
    decreases |steps|
  {
    if steps == [] then Some(MarkSuspending)
    else
      var init, last := steps[..|steps| - 1], steps[|steps| - 1];
      var at := Follows(p, before, init);
      if at.None? || Expected(p, at.value) != Some(last.call) || !Valid(StateAfter(before, init), last) then None
      else Some(Advance(at.value, last.ok))
  }

  /** The ids are new. */
  predicate Starts(p: Plan, before: State) {
    p.snap !in before.snapshots && p.img !in before.images
  }

  /** Which calls worked. */
  datatype Tally = Tally(inserted: bool, imaged: bool, noted: bool, ready: bool, deleted: bool, cleared: bool,
                         suspended: bool)

  ghost function TallyOf(p: Plan, steps: seq<Step>): Tally {
    Tally(Took(steps, InsertSnapshot(p.snap, p.id, true, p.now)), Took(steps, CreateImage(p.img, p.server)),
          Took(steps, SetSnapshotStatus(p.snap, Failed)), Took(steps, SetSnapshotReady(p.snap, p.img)),
          Took(steps, DeleteServer(p.server)), Took(steps, ClearProviderInfo(p.id)),
          Took(steps, SetStatus(p.id, Suspended)))
  }

  function Tick(t: Tally, at: Point, ok: bool): Tally {
    if !ok then t else
      match at
      case InsertRow => t.(inserted := true)
      case TakeImage => t.(imaged := true)
      case NoteFailure => t.(noted := true)
      case MarkReady => t.(ready := true)
      case DropServer => t.(deleted := true)
      case ClearRow => t.(cleared := true)
      case MarkSuspended => t.(suspended := true)
      case _ => t
  }

  lemma TallyLast(p: Plan, steps: seq<Step>, at: Point)
    requires steps != [] && Expected(p, at) == Some(steps[|steps| - 1].call)
    ensures TallyOf(p, steps) == Tick(TallyOf(p, steps[..|steps| - 1]), at, steps[|steps| - 1].ok)
  {
    TookLast(steps);
  }

  /** What the calls that worked have made of the stores. */
  predicate Reaches(p: Plan, before: State, t: Tally, st: State) {
    && (t.imaged ==> p.server in before.servers)
    && st.servers == (if t.deleted then before.servers - {p.server} else before.servers)
    && st.images == (if t.imaged && p.server in before.servers
                     then before.images[p.img := Image(p.server, before.servers[p.server].disk)]
                     else before.images)
    && st.snapshots == (if t.inserted then before.snapshots[p.snap := TheSnapshot(p, t)] else before.snapshots)
    && RowReaches(p, before, t, st)
  }

  predicate RowReaches(p: Plan, before: State, t: Tally, st: State) {
    && st.rows.Keys == before.rows.Keys
    && (forall id :: id in before.rows && id != p.id ==> st.rows[id] == before.rows[id])
    && (p.id in before.rows ==>
          && st.rows[p.id].status in {before.rows[p.id].status, Suspending, Suspended}
          && (t.suspended ==> st.rows[p.id].status == Suspended)
          && st.rows[p.id].serverId == (if t.cleared then None else before.rows[p.id].serverId)
          && st.rows[p.id].ipv4 == (if t.cleared then None else before.rows[p.id].ipv4))
  }

  function TheSnapshot(p: Plan, t: Tally): Snapshot {
    Snapshot(p.id, if t.ready then Some(p.img) else None,
             if t.ready then Ready else if t.noted then Failed else Creating, true, p.now)
  }

  /** Which calls can have worked by the time the suspension is at a point. */
  predicate SoFar(t: Tally, at: Point) {
    && (t.ready ==> t.imaged) && (t.imaged ==> t.inserted) && (t.noted ==> t.inserted && !t.imaged)
    && (at in {MarkSuspending, InsertRow} ==> !t.inserted)
    && (at in {TakeImage, NoteFailure} ==> t.inserted && !t.imaged && !t.noted)
    && (at == MarkReady ==> t.imaged && !t.ready)
    && (at !in {ClearRow, MarkSuspended, Done} ==> !t.deleted)
    && (at !in {MarkSuspended, Done} ==> !t.cleared) && (at != Done ==> !t.suspended)
  }

  lemma NoStepsYet(p: Plan, before: State)
    ensures Reaches(p, before, TallyOf(p, []), before) && SoFar(TallyOf(p, []), MarkSuspending)
  {
  }

  lemma TickSoFar(t: Tally, at: Point, ok: bool)
    requires SoFar(t, at)
    ensures SoFar(Tick(t, at, ok), Advance(at, ok))
  {
  }

  lemma ClearStep(p: Plan, before: State, t: Tally, st: State, step: Step)
    requires Starts(p, before) && Reaches(p, before, t, st) && SoFar(t, ClearRow)
    requires Expected(p, ClearRow) == Some(step.call) && Valid(st, step)
    ensures Reaches(p, before, Tick(t, ClearRow, step.ok), step.after)
  {
  }

  /** The status writes. */
  lemma StatusStep(p: Plan, before: State, t: Tally, st: State, at: Point, step: Step)
    requires Starts(p, before) && Reaches(p, before, t, st) && SoFar(t, at)
    requires at in {MarkSuspending, MarkSuspended}
    requires Expected(p, at) == Some(step.call) && Valid(st, step)
    ensures Reaches(p, before, Tick(t, at, step.ok), step.after)
  {
  }

  /** The other calls. */
  lemma ResourceStep(p: Plan, before: State, t: Tally, st: State, at: Point, step: Step)
    requires Starts(p, before) && Reaches(p, before, t, st) && SoFar(t, at)
    requires at !in {MarkSuspending, ClearRow, MarkSuspended}
    requires Expected(p, at) == Some(step.call) && Valid(st, step)
    ensures Reaches(p, before, Tick(t, at, step.ok), step.after)
  {
    assert RowReaches(p, before, Tick(t, at, step.ok), step.after);
    hide RowReaches;
  }

  lemma OneStep(p: Plan, before: State, t: Tally, st: State, at: Point, step: Step)
    requires Starts(p, before) && Reaches(p, before, t, st) && SoFar(t, at)
    requires Expected(p, at) == Some(step.call) && Valid(st, step)
    ensures Reaches(p, before, Tick(t, at, step.ok), step.after)
    ensures SoFar(Tick(t, at, step.ok), Advance(at, step.ok))
  {
    TickSoFar(t, at, step.ok);
    hide Reaches, SoFar, Tick, Expected, Valid;
    if at == ClearRow {
      ClearStep(p, before, t, st, step);
    } else if at in {MarkSuspending, MarkSuspended} {
      StatusStep(p, before, t, st, at, step);
    } else {
      ResourceStep(p, before, t, st, at, step);
    }
  }

  /** At every cut of a suspension the stores are what the calls that worked have made of
      them. */
  lemma {:induction false} EveryCutIsReached(p: Plan, before: State, steps: seq<Step>)
    requires Starts(p, before) && Follows(p, before, steps).Some?
    ensures Reaches(p, before, TallyOf(p, steps), StateAfter(before, steps))
    ensures SoFar(TallyOf(p, steps), Follows(p, before, steps).value)
    decreases |steps|
  {
    if steps == [] {
      NoStepsYet(p, before);
    } else {
      hide Reaches, SoFar, Expected, Advance, Valid, TallyOf, Tick;
      var init, last := steps[..|steps| - 1], steps[|steps| - 1];
      var at := Follows(p, before, init).value;
      EveryCutIsReached(p, before, init);
      TallyLast(p, steps, at);
      OneStep(p, before, TallyOf(p, init), StateAfter(before, init), at, last);
    }
  }

  /** The server, or an image taken of it since, is there. */
  ghost predicate DataHeld(p: Plan, before: State, st: State)
    requires p.server in before.servers
  {
    || p.server in st.servers
    || exists img :: img in st.images && img !in before.images
                     && st.images[img] == Image(p.server, before.servers[p.server].disk)
  }

  /** At every cut of every suspension: the data is there if and only if the server has not
      been deleted or an image was taken of it; the row is sound if and only if the server
      has not been deleted or the row was cleared; and a resume would choose this snapshot
      if and only if it was marked ready, and then its image holds the data. */
  lemma SuspensionIsExact(p: Plan, before: State, steps: seq<Step>)
    requires Starts(p, before) && p.server in before.servers && Follows(p, before, steps).Some?
    ensures var st := StateAfter(before, steps);
      DataHeld(p, before, st) <==>
        !Took(steps, DeleteServer(p.server)) || Took(steps, CreateImage(p.img, p.server))
    ensures var st := StateAfter(before, steps);
      p.id in before.rows && before.rows[p.id].serverId == Some(p.server) && RowSound(before, p.id) ==>
        (RowSound(st, p.id) <==>
           !Took(steps, DeleteServer(p.server)) || Took(steps, ClearProviderInfo(p.id)))
    ensures var st := StateAfter(before, steps);
      NoneNewer(before, p.id, p.now) ==>
        && (Picks(st, p.id, p.snap) <==> Took(steps, SetSnapshotReady(p.snap, p.img)))
        && (Picks(st, p.id, p.snap) ==>
              && st.snapshots[p.snap].image == Some(p.img)
              && ImageHolds(st, p.img, before.servers[p.server].disk))
  {
    EveryCutIsReached(p, before, steps);
    var t, st := TallyOf(p, steps), StateAfter(before, steps);
    hide Took;
    assert t.imaged ==> p.img in st.images && p.img !in before.images;
    if NoneNewer(before, p.id, p.now) {
      ChosenIfReady(p, before, t, st);
    }
  }

  lemma ChosenIfReady(p: Plan, before: State, t: Tally, st: State)
    requires Starts(p, before) && Reaches(p, before, t, st) && NoneNewer(before, p.id, p.now)
    requires t.ready ==> t.inserted
    ensures Picks(st, p.id, p.snap) <==> t.ready
  {
    forall other | Candidate(st, p.id, other) && other != p.snap
      ensures Candidate(before, p.id, other) && st.snapshots[other] == before.snapshots[other]
    {
    }
  }

  /** At every cut, and for every snapshot: a resume would choose it if and only if it is
      this suspension's and was marked ready, or this one was not and a resume would have
      chosen that snapshot before. */
  lemma ChoiceIsExact(p: Plan, before: State, steps: seq<Step>, snap: SnapshotId)
    requires Starts(p, before) && NoneNewer(before, p.id, p.now) && Follows(p, before, steps).Some?
    ensures var st := StateAfter(before, steps);
      Picks(st, p.id, snap) <==>
        if Took(steps, SetSnapshotReady(p.snap, p.img)) then snap == p.snap else Picks(before, p.id, snap)
  {
    EveryCutIsReached(p, before, steps);
    var t, st := TallyOf(p, steps), StateAfter(before, steps);
    hide Took, Follows;
    if t.ready {
      ChosenIfReady(p, before, t, st);
    } else {
      forall other
        ensures Candidate(st, p.id, other) ==> Candidate(before, p.id, other)
        ensures Candidate(before, p.id, other) ==>
                  Candidate(st, p.id, other) && st.snapshots[other] == before.snapshots[other]
      {
        UnreadyIsNoCandidate(p, before, t, st, other);
      }
      hide Reaches, SoFar;
      SameCandidates(before, st, p.id, snap);
    }
  }

  lemma UnreadyIsNoCandidate(p: Plan, before: State, t: Tally, st: State, other: SnapshotId)
    requires Starts(p, before) && Reaches(p, before, t, st) && !t.ready
    ensures Candidate(st, p.id, other) <==> Candidate(before, p.id, other)
    ensures Candidate(before, p.id, other) ==> st.snapshots[other] == before.snapshots[other]
  {
  }

  /** The calls of a suspension from its first to its last, if the row could be inserted and
      the image taken as said. */
  function Script(p: Plan, inserted: bool, imaged: bool): seq<Call> {
    [SetStatus(p.id, Suspending), InsertSnapshot(p.snap, p.id, true, p.now)]
    + (if !inserted then []
       else [CreateImage(p.img, p.server),
             if imaged then SetSnapshotReady(p.snap, p.img) else SetSnapshotStatus(p.snap, Failed)])
    + [DeleteServer(p.server), ClearProviderInfo(p.id), SetStatus(p.id, Suspended)]
  }

  function Calls(steps: seq<Step>): seq<Call> {
    if steps == [] then [] else Calls(steps[..|steps| - 1]) + [steps[|steps| - 1].call]
  }

  /** How far along the script a suspension is. */
  predicate OnScript(p: Plan, t: Tally, calls: seq<Call>, at: Point) {
    match at
    case MarkSuspending => calls == []
    case InsertRow => calls == Script(p, false, false)[..1]
    case TakeImage => calls == Script(p, true, false)[..2]
    case NoteFailure => !t.imaged && calls == Script(p, true, false)[..3]
    case MarkReady => t.imaged && calls == Script(p, true, true)[..3]
    case DropServer => calls == Script(p, t.inserted, t.imaged)[..if t.inserted then 4 else 2]
    case ClearRow => calls == Script(p, t.inserted, t.imaged)[..if t.inserted then 5 else 3]
    case MarkSuspended => calls == Script(p, t.inserted, t.imaged)[..if t.inserted then 6 else 4]
    case Done => calls == Script(p, t.inserted, t.imaged)
  }

  lemma ScriptGoesOn(p: Plan, t: Tally, calls: seq<Call>, at: Point, ok: bool)
    requires SoFar(t, at) && OnScript(p, t, calls, at) && Expected(p, at).Some?
    ensures OnScript(p, Tick(t, at, ok), calls + [Expected(p, at).value], Advance(at, ok))
  {
    var script := Script(p, Tick(t, at, ok).inserted, Tick(t, at, ok).imaged);
    assert |script| == if Tick(t, at, ok).inserted then 7 else 5;
    assert |calls| < |script| && script[..|calls| + 1] == script[..|calls|] + [script[|calls|]];
    assert script[..|script|] == script;
  }

  /** Every whole suspension makes exactly these calls, in this order. */
  lemma {:induction false} TheCalls(p: Plan, before: State, steps: seq<Step>)
    requires Starts(p, before) && Follows(p, before, steps).Some?
    ensures OnScript(p, TallyOf(p, steps), Calls(steps), Follows(p, before, steps).value)
    ensures Follows(p, before, steps) == Some(Done) ==>
              Calls(steps) == Script(p, Took(steps, InsertSnapshot(p.snap, p.id, true, p.now)),
                                     Took(steps, CreateImage(p.img, p.server)))
    decreases |steps|
  {
    if steps != [] {
      var init, last := steps[..|steps| - 1], steps[|steps| - 1];
      var at := Follows(p, before, init).value;
      TheCalls(p, before, init);
      EveryCutIsReached(p, before, init);
      TallyLast(p, steps, at);
      hide OnScript, SoFar, Reaches, Took, Advance, Tick, Expected;
      ScriptGoesOn(p, TallyOf(p, init), Calls(init), at, last.ok);
    }
  }

  // ---------------------------------------------------------------------------
  // What goes wrong, shown on every instance

  /** One more step of a suspension. */
  lemma Go(p: Plan, before: State, steps: seq<Step>, ok: bool) returns (longer: seq<Step>)
    requires Follows(p, before, steps).Some? && Follows(p, before, steps) != Some(Done)
    requires ok ==> Possible(StateAfter(before, steps), Expected(p, Follows(p, before, steps).value).value)
    ensures var at := Follows(p, before, steps).value;
      && Follows(p, before, longer) == Some(Advance(at, ok))
      && TallyOf(p, longer) == Tick(TallyOf(p, steps), at, ok)
  {
    var st, call := StateAfter(before, steps), Expected(p, Follows(p, before, steps).value).value;
    longer := steps + [Step(call, ok, After(st, call, ok))];
    assert longer[..|longer| - 1] == steps;
    TallyLast(p, longer, Follows(p, before, steps).value);
  }

  /** A suspension that has deleted the server although its snapshot row could not even be
      inserted. */
  lemma DeletedWithoutAnImage(p: Plan, before: State) returns (steps: seq<Step>)
    requires Starts(p, before)
    ensures Follows(p, before, steps) == Some(ClearRow)
    ensures TallyOf(p, steps) == Tally(false, false, false, false, true, false, false)
  {
    NoStepsYet(p, before);
    assert TallyOf(p, []) == Tally(false, false, false, false, false, false, false);
    hide Follows, TallyOf, StateAfter;
    NothingFollowed(p, before);
    steps := Go(p, before, [], true);
    steps := Go(p, before, steps, false);
    steps := Go(p, before, steps, true);
  }

  lemma NothingFollowed(p: Plan, before: State)
    ensures Follows(p, before, []) == Some(MarkSuspending)
  {
  }

  /** On every instance a suspension can run to its end and leave neither the server nor an
      image of it. */
  lemma TheDiskCanBeLost(p: Plan, before: State) returns (steps: seq<Step>)
    requires Starts(p, before) && p.server in before.servers
    ensures Follows(p, before, steps) == Some(Done) && !DataHeld(p, before, StateAfter(before, steps))
    ensures TallyOf(p, steps) == Tally(false, false, false, false, true, true, true)
  {
    steps := DeletedWithoutAnImage(p, before);
    steps := Go(p, before, steps, true);
    steps := Go(p, before, steps, true);
    SuspensionIsExact(p, before, steps);
  }

  /** On every instance a suspension that dies after the delete leaves a row that names no
      server there is. */
  lemma TheRowCanDangle(p: Plan, before: State) returns (steps: seq<Step>)
    requires Starts(p, before) && p.server in before.servers && RowSound(before, p.id)
    requires p.id in before.rows && before.rows[p.id].serverId == Some(p.server)
    ensures Follows(p, before, steps) == Some(ClearRow) && !RowSound(StateAfter(before, steps), p.id)
  {
    steps := DeletedWithoutAnImage(p, before);
    SuspensionIsExact(p, before, steps);
  }

  // ---------------------------------------------------------------------------
  // The code

  /** Everything the run has recorded since `base` is this suspension so far. */
  ghost predicate Recording(w: Stores, base: seq<Step>, p: Plan, before: State, steps: seq<Step>)
    reads w
  {
    w.history == base + steps && w.st == StateAfter(before, steps) && Follows(p, before, steps).Some?
  }

  /** The next call of a suspension. */
  method Call(w: Stores, call: World.Call, ghost base: seq<Step>, ghost p: Plan, ghost before: State,
              ghost steps: seq<Step>)
    returns (ok: bool, ghost longer: seq<Step>)
    requires Recording(w, base, p, before, steps) && Expected(p, Follows(p, before, steps).value) == Some(call)
    modifies w
    ensures Recording(w, base, p, before, longer)
    ensures Follows(p, before, longer) == Some(Advance(Follows(p, before, steps).value, ok))
    ensures TallyOf(p, longer) == Tick(TallyOf(p, steps), Follows(p, before, steps).value, ok)
    ensures Smooth(w.history, |base|) <==> Smooth(old(w.history), |base|) && ok
  {
    ok := w.Perform(call);
    longer := steps + [Step(call, ok, w.st)];
    assert longer[..|longer| - 1] == steps;
    assert base + longer == base + steps + [Step(call, ok, w.st)];
    TallyLast(p, longer, Follows(p, before, steps).value);
  }

  /** createSuspensionSnapshot.  Its errors are logged and not returned. */
  method CreateSuspensionSnapshot(w: Stores, id: InstanceId, server: ServerId, snap: SnapshotId, img: ImageId,
                                  now: nat, ghost base: seq<Step>, ghost before: State, ghost steps: seq<Step>)
    returns (ghost longer: seq<Step>)
    requires var p := Plan(id, server, snap, img, now);
      Recording(w, base, p, before, steps) && Follows(p, before, steps) == Some(InsertRow)
    modifies w
    ensures var p := Plan(id, server, snap, img, now);
      Recording(w, base, p, before, longer) && Follows(p, before, longer) == Some(DropServer)
    ensures var p := Plan(id, server, snap, img, now);
      Smooth(w.history, |base|) ==>
        && Smooth(old(w.history), |base|)
        && TallyOf(p, longer) == TallyOf(p, steps).(inserted := true, imaged := true, ready := true)
  {
    hide Recording, TallyOf, Smooth, Follows;
    ghost var p := Plan(id, server, snap, img, now);
    var inserted;
    inserted, longer := Call(w, InsertSnapshot(snap, id, true, now), base, p, before, steps);
    if !inserted {
      return;
    }
    var imaged;
    imaged, longer := Call(w, CreateImage(img, server), base, p, before, longer);
    if !imaged {
      var noted;
      noted, longer := Call(w, SetSnapshotStatus(snap, Failed), base, p, before, longer);
      return;
    }
    var ready;
    ready, longer := Call(w, SetSnapshotReady(snap, img), base, p, before, longer);
  }

  /** The body of suspendPastDue for one active instance with a server, once its provider is
      found.  Its calls are a whole suspension, so what is proved of every cut of one holds
      of it; every error is ignored, and the server is deleted even without an image. */
  method TakeDown(w: Stores, id: InstanceId, server: ServerId, now: nat)
    returns (ghost p: Plan, ghost steps: seq<Step>)
    modifies w
    ensures p == Plan(id, server, p.snap, p.img, now)
    ensures p.snap !in old(w.st).snapshots && p.img !in old(w.st).images
    ensures Recording(w, old(w.history), p, old(w.st), steps) && Follows(p, old(w.st), steps) == Some(Done)
    ensures Smooth(w.history, |old(w.history)|) ==>
              TallyOf(p, steps) == Tally(true, true, false, true, true, true, true)
  {
    var snap := FreshId(w.st.snapshots.Keys);
    var img := FreshId(w.st.images.Keys);
    ghost var base, before := w.history, w.st;
    p := Plan(id, server, snap, img, now);
    assert base + [] == base && Recording(w, base, p, before, []) && Smooth(base, |base|);
    assert TallyOf(p, []) == Tally(false, false, false, false, false, false, false);
    NothingFollowed(p, before);
    hide Recording, TallyOf, Smooth, Follows;
    var marked;
    marked, steps := Call(w, SetStatus(id, Suspending), base, p, before, []);
    steps := CreateSuspensionSnapshot(w, id, server, snap, img, now, base, before, steps);
    steps := DropServerAndRow(w, id, server, base, p, before, steps);
  }

  /** The calls after the snapshot. */
  method DropServerAndRow(w: Stores, id: InstanceId, server: ServerId, ghost base: seq<Step>, ghost p: Plan,
                          ghost before: State, ghost steps: seq<Step>)
    returns (ghost longer: seq<Step>)
    requires id == p.id && server == p.server
    requires Recording(w, base, p, before, steps) && Follows(p, before, steps) == Some(DropServer)
    modifies w
    ensures Recording(w, base, p, before, longer) && Follows(p, before, longer) == Some(Done)
    ensures Smooth(w.history, |base|) ==>
              && Smooth(old(w.history), |base|)
              && TallyOf(p, longer) == TallyOf(p, steps).(deleted := true, cleared := true, suspended := true)
  {
    hide Recording, TallyOf, Smooth, Follows;
    var deleted;
    deleted, longer := Call(w, DeleteServer(server), base, p, before, steps);
    var cleared;
    cleared, longer := Call(w, ClearProviderInfo(id), base, p, before, longer);
    var marked;
    marked, longer := Call(w, SetStatus(id, Suspended), base, p, before, longer);
  }

  /** Only the row, new snapshots, new images and one server differ. */
  predicate OnlyRow(before: State, after: State, id: InstanceId, server: Option<ServerId>) {
    && after.rows.Keys == before.rows.Keys
    && (forall other :: other in before.rows && other != id ==> after.rows[other] == before.rows[other])
    && (id in before.rows ==> Faded(before.rows[id], after.rows[id]))
    && (forall s :: s in after.servers ==> s in before.servers && after.servers[s] == before.servers[s])
    && (forall s :: s in before.servers && Some(s) != server ==> s in after.servers)
    && (forall snap :: snap in before.snapshots ==>
          snap in after.snapshots && after.snapshots[snap] == before.snapshots[snap])
    && (forall img :: img in before.images ==> img in after.images && after.images[img] == before.images[img])
  }

  /** What suspending can do to a row: take it out of `active`, and take its server away. */
  predicate Faded(before: Instance, after: Instance) {
    && after.status in {before.status, Suspending, Suspended}
    && ((after.serverId == before.serverId && after.ipv4 == before.ipv4)
        || (after.serverId.None? && after.ipv4.None?))
  }

  /** What a suspension without errors does to an active row. */
  predicate SuspendedRow(before: Instance, after: Instance, providerKnown: bool) {
    && after.status == Suspended
    && (before.serverId.Some? && providerKnown ==> after.serverId.None? && after.ipv4.None?)
  }

  /** A ready system snapshot of the instance, dated `now`, has been made, and its image is of
      the server and holds the server's disk. */
  ghost predicate Stored(before: State, after: State, id: InstanceId, server: ServerId, now: nat) {
    server in before.servers && exists snap, img :: StoredAs(before, after, id, server, now, snap, img)
  }

  predicate StoredAs(before: State, after: State, id: InstanceId, server: ServerId, now: nat,
                     snap: SnapshotId, img: ImageId)
    requires server in before.servers
  {
    && snap !in before.snapshots && img !in before.images
    && snap in after.snapshots && after.snapshots[snap] == Snapshot(id, Some(img), Ready, true, now)
    && img in after.images && after.images[img] == Image(server, before.servers[server].disk)
  }

  lemma StoredIfAllWorked(p: Plan, before: State, st: State)
    requires Starts(p, before) && Reaches(p, before, Tally(true, true, false, true, true, true, true), st)
    ensures Stored(before, st, p.id, p.server, p.now)
  {
    assert StoredAs(before, st, p.id, p.server, p.now, p.snap, p.img);
  }

  /** These steps are a suspension from its first call to its last. */
  ghost predicate WholeSuspension(p: Plan, before: State, steps: seq<Step>) {
    Starts(p, before) && Follows(p, before, steps) == Some(Done)
  }

  lemma TakenDown(p: Plan, before: State, t: Tally, st: State)
    requires Starts(p, before) && Reaches(p, before, t, st)
    ensures OnlyRow(before, st, p.id, Some(p.server))
    ensures t.cleared && t.suspended && p.id in before.rows ==>
              SuspendedRow(before.rows[p.id], st.rows[p.id], true)
  {
  }

  /** The body of suspendPastDue for one active instance. */
  method SuspendInstance(w: Stores, id: InstanceId, inst: Instance, providerKnown: bool, now: nat)
    returns (ghost p: Plan, ghost steps: seq<Step>)
    modifies w
    ensures w.history == old(w.history) + steps && w.st == StateAfter(old(w.st), steps)
    ensures inst.serverId.Some? && providerKnown ==>
              p == Plan(id, inst.serverId.value, p.snap, p.img, now) && WholeSuspension(p, old(w.st), steps)
    ensures OnlyRow(old(w.st), w.st, id, if providerKnown then inst.serverId else None)
    ensures inst.serverId.None? || !providerKnown ==> w.st.images == old(w.st).images
    ensures Smooth(w.history, |old(w.history)|) ==>
              && (id in old(w.st).rows && inst.serverId == old(w.st).rows[id].serverId ==>
                    SuspendedRow(old(w.st).rows[id], w.st.rows[id], providerKnown))
              && (inst.serverId.Some? && providerKnown ==> Stored(old(w.st), w.st, id, inst.serverId.value, now))
  {
    if inst.serverId.Some? && providerKnown {
      ghost var before := w.st;
      p, steps := TakeDown(w, id, inst.serverId.value, now);
      EveryCutIsReached(p, before, steps);
      hide Reaches, TallyOf, Follows, OnlyRow, SuspendedRow, Smooth, Stored, StateAfter;
      TakenDown(p, before, TallyOf(p, steps), w.st);
      if TallyOf(p, steps) == Tally(true, true, false, true, true, true, true) {
        StoredIfAllWorked(p, before, w.st);
      }
    } else {
      p := Plan(id, 0, 0, 0, now);
      var first := w.UpdateInstanceStatus(id, Suspending);
      steps := [Step(SetStatus(id, Suspending), first, w.st)];
      var second := w.UpdateInstanceStatus(id, Suspended);
      steps := steps + [Step(SetStatus(id, Suspended), second, w.st)];
    }
  }
}
