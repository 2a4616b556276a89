/** Resuming a suspended instance (backend/internal/jobs/resumer.go): a new server from the
    latest ready system snapshot, and only when it runs is the image deleted. */
module Resume {
  import opened Options
  import opened World
  import opened Custody
  import Suspend

  /** One resume: the instance and the server type, the snapshot that was picked and its
      image, and the server the provider will make with its address. */
  datatype Plan = Plan(id: InstanceId, tier: string, snap: SnapshotId, img: ImageId, server: ServerId,
                       address: Address)

  datatype Point =
    | Begin | LookUp | Place(withAddress: bool) | Poll | Store
    | MarkDeleting | DropTheImage | MarkDeleted | MarkActive | Failing | Done(resumed: bool)

  /** The calls executeResume can make at a point.  At `LookUp` the lookups decide, at `Poll`
      the deadline.  A server without an address yet is written to the row with the empty
      string for one. */
  predicate Allows(p: Plan, at: Point, call: Call) {
    match at
    case Begin => call == SetStatus(p.id, Resuming)
    case LookUp =>
      call == SetStatus(p.id, Error)
      || (call.CreateServer? && call == CreateServer(p.server, p.address, p.tier, p.img, call.withAddress))
    case Place(withAddress) =>
      call == if withAddress then SetProviderInfo(p.id, p.server, Some(p.address))
              else WriteBlankAddress(p.id, p.server)
    case Poll => call == SetStatus(p.id, Error) || (call.ObserveServer? && call.server == p.server)
    case Store => call == SetProviderInfo(p.id, p.server, Some(p.address))
    case MarkDeleting => call == SetSnapshotStatus(p.snap, Deleting)
    case DropTheImage => call == DeleteImage(p.img)
    case MarkDeleted => call == SetSnapshotStatus(p.snap, Deleted)
    case MarkActive => call == SetStatus(p.id, Active)
    case Failing => call == SetStatus(p.id, Error)
    case Done(_) => false
  }

  function Advance(at: Point, call: Call, ok: bool): Point {
    match at
    case Begin => LookUp
    case LookUp => if !call.CreateServer? then Done(false) else if ok then Place(call.withAddress) else Failing
    case Place(_) => if ok then Poll else Failing
    case Poll =>
      if !call.ObserveServer? then Done(false)
      else if !ok || !call.running then Poll
      else if call.withAddress then Store else MarkDeleting
    case Store => MarkDeleting
    case MarkDeleting => DropTheImage
    case DropTheImage => MarkDeleted
    case MarkDeleted => MarkActive
    case MarkActive => Done(true)
    case Failing => Done(false)
    case Done(_) => at
  }

  /** Where a resume is after these steps; None if they are not its steps. */
  function Follows(p: Plan, before: State, steps: seq<Step>): Option<Point>
    decreases |steps|
  {
    if steps == [] then Some(Begin)
    else
      var init, last := steps[..|steps| - 1], steps[|steps| - 1];
      var at := Follows(p, before, init);
      if at.None? || !Allows(p, at.value, last.call) || !Valid(StateAfter(before, init), last) then None
      else Some(Advance(at.value, last.call, last.ok))
  }

  /** The server is new, and nothing names it yet. */
  predicate Starts(p: Plan, before: State) {
    && p.id in before.rows && p.server !in before.servers && before.rows[p.id].serverId != Some(p.server)
  }

  /** Which of the calls that matter have worked: the server built, the row pointed at it,
      the image deleted, the instance marked active. */
  datatype Tally = Tally(built: bool, placed: bool, dropped: bool, active: bool)

  ghost predicate Built(p: Plan, steps: seq<Step>) {
    exists withAddress :: Took(steps, CreateServer(p.server, p.address, p.tier, p.img, withAddress))
  }

  ghost function TallyOf(p: Plan, steps: seq<Step>): Tally {
    Tally(Built(p, steps), Took(steps, SetProviderInfo(p.id, p.server, Some(p.address))),
          Took(steps, DeleteImage(p.img)), Took(steps, SetStatus(p.id, Active)))
  }

  function Tick(t: Tally, at: Point, call: Call, ok: bool): Tally {
    if !ok then t
    else if call.CreateServer? then t.(built := true)
    else if call.SetProviderInfo? then t.(placed := true)
    else if call.DeleteImage? then t.(dropped := true)
    else if at == MarkActive then t.(active := true)
    else t
  }

  lemma TallyLast(p: Plan, steps: seq<Step>, at: Point)
    requires steps != [] && Allows(p, at, steps[|steps| - 1].call)
    ensures var last := steps[|steps| - 1];
      TallyOf(p, steps) == Tick(TallyOf(p, steps[..|steps| - 1]), at, last.call, last.ok)
  {
    TookLast(steps);
    var init, last := steps[..|steps| - 1], steps[|steps| - 1];
    BuiltLast(p, steps);
  }

  lemma BuiltLast(p: Plan, steps: seq<Step>)
    requires steps != []
    ensures var init, last := steps[..|steps| - 1], steps[|steps| - 1];
      Built(p, steps) <==>
        (|| Built(p, init)
         || (last.ok && last.call.CreateServer?
             && last.call == CreateServer(p.server, p.address, p.tier, p.img, last.call.withAddress)))
  {
    TookLast(steps);
    var init, last := steps[..|steps| - 1], steps[|steps| - 1];
    if Built(p, init) {
      var withAddress :| Took(init, CreateServer(p.server, p.address, p.tier, p.img, withAddress));
      assert Took(steps, CreateServer(p.server, p.address, p.tier, p.img, withAddress));
    }
    if last.ok && last.call.CreateServer?
       && last.call == CreateServer(p.server, p.address, p.tier, p.img, last.call.withAddress) {
      assert Took(steps, CreateServer(p.server, p.address, p.tier, p.img, last.call.withAddress));
    }
  }

  /** The new server, as far as a resume has come to know it. */
  predicate IsTheServer(p: Plan, before: State, s: Server) {
    && p.img in before.images
    && s.address == p.address && s.plan == p.tier && s.image == Some(p.img)
    && s.disk == before.images[p.img].disk
  }

  /** What the calls that worked have made of the stores. */
  predicate Reaches(p: Plan, before: State, t: Tally, st: State)
    requires p.id in before.rows
  {
    && ServersReach(p, before, t, st) && RowReaches(p, before, t, st)
    && st.images == (if t.dropped then before.images - {p.img} else before.images)
    && SnapshotsReach(p, before, st)
  }

  predicate SnapshotsReach(p: Plan, before: State, st: State) {
    && st.snapshots.Keys == before.snapshots.Keys
    && (forall snap :: snap in before.snapshots && snap != p.snap ==> st.snapshots[snap] == before.snapshots[snap])
    && (p.snap in before.snapshots ==>
          st.snapshots[p.snap] in {before.snapshots[p.snap], before.snapshots[p.snap].(status := Deleting),
                                   before.snapshots[p.snap].(status := Deleted)})
  }

  predicate ServersReach(p: Plan, before: State, t: Tally, st: State) {
    if t.built then
      && p.server in st.servers && IsTheServer(p, before, st.servers[p.server])
      && st.servers == before.servers[p.server := st.servers[p.server]]
    else st.servers == before.servers
  }

  predicate RowReaches(p: Plan, before: State, t: Tally, st: State)
    requires p.id in before.rows
  {
    && st.rows.Keys == before.rows.Keys
    && (forall id :: id in before.rows && id != p.id ==> st.rows[id] == before.rows[id])
    && st.rows[p.id].status in {before.rows[p.id].status, Resuming, Error, Active}
    && (t.active ==> st.rows[p.id].status == Active)
    && st.rows[p.id].serverId == (if t.placed then Some(p.server) else before.rows[p.id].serverId)
    && st.rows[p.id].ipv4 == (if t.placed then Some(p.address) else before.rows[p.id].ipv4)
  }

  /** Which calls can have worked by a point, and when the server has been seen running. */
  predicate SoFar(p: Plan, t: Tally, st: State, at: Point) {
    && (t.placed ==> t.built)
    && (at in {Begin, LookUp} ==> !t.built) && (at.Place? ==> t.built && !t.placed)
    && (at.Failing? ==> !t.placed) && (at == Poll ==> t.placed && !t.dropped && !t.active)
    && (at in {Store, MarkDeleting, DropTheImage, MarkDeleted, MarkActive, Done(true)} || t.dropped || t.active ==>
          t.placed && p.server in st.servers && st.servers[p.server].seenRunning)
    && (at in {Store, MarkDeleting, DropTheImage} ==> !t.dropped)
    && (t.active ==> at == Done(true)) && (t.dropped ==> at in {MarkDeleted, MarkActive, Done(true)})
  }

  lemma NoStepsYet(p: Plan, before: State)
    requires p.id in before.rows
    ensures Follows(p, before, []) == Some(Begin)
    ensures TallyOf(p, []) == Tally(false, false, false, false)
    ensures Reaches(p, before, TallyOf(p, []), before) && SoFar(p, TallyOf(p, []), before, Begin)
  {
  }

  lemma BuildStep(p: Plan, before: State, t: Tally, st: State, at: Point, step: Step)
    requires Starts(p, before) && Reaches(p, before, t, st) && SoFar(p, t, st, at)
    requires Allows(p, at, step.call) && Valid(st, step) && at in {Begin, LookUp}
    ensures Reaches(p, before, Tick(t, at, step.call, step.ok), step.after)
    ensures SoFar(p, Tick(t, at, step.call, step.ok), step.after, Advance(at, step.call, step.ok))
  {
  }

  lemma PlaceStep(p: Plan, before: State, t: Tally, st: State, at: Point, step: Step)
    requires Starts(p, before) && Reaches(p, before, t, st) && SoFar(p, t, st, at)
    requires Allows(p, at, step.call) && Valid(st, step) && (at.Place? || at in {Store, Failing})
    ensures Reaches(p, before, Tick(t, at, step.call, step.ok), step.after)
    ensures SoFar(p, Tick(t, at, step.call, step.ok), step.after, Advance(at, step.call, step.ok))
  {
  }

  lemma PollStep(p: Plan, before: State, t: Tally, st: State, step: Step)
    requires Starts(p, before) && Reaches(p, before, t, st) && SoFar(p, t, st, Poll)
    requires Allows(p, Poll, step.call) && Valid(st, step)
    ensures Reaches(p, before, Tick(t, Poll, step.call, step.ok), step.after)
    ensures SoFar(p, Tick(t, Poll, step.call, step.ok), step.after, Advance(Poll, step.call, step.ok))
  {
  }

  lemma SnapshotWrite(p: Plan, before: State, t: Tally, st: State, at: Point, step: Step)
    requires Starts(p, before) && Reaches(p, before, t, st)
    requires Allows(p, at, step.call) && Valid(st, step) && at in {MarkDeleting, MarkDeleted}
    ensures Reaches(p, before, t, step.after) && step.after.servers == st.servers
    ensures Tick(t, at, step.call, step.ok) == t
  {
    assert SnapshotsReach(p, before, step.after);
    hide SnapshotsReach, ServersReach, RowReaches;
  }

  lemma SnapshotStep(p: Plan, before: State, t: Tally, st: State, at: Point, step: Step)
    requires Starts(p, before) && Reaches(p, before, t, st) && SoFar(p, t, st, at)
    requires Allows(p, at, step.call) && Valid(st, step) && at in {MarkDeleting, MarkDeleted}
    ensures Reaches(p, before, Tick(t, at, step.call, step.ok), step.after)
    ensures SoFar(p, Tick(t, at, step.call, step.ok), step.after, Advance(at, step.call, step.ok))
  {
    SnapshotWrite(p, before, t, st, at, step);
    hide Reaches, Valid, Allows, Tick;
  }

  lemma ReleaseStep(p: Plan, before: State, t: Tally, st: State, at: Point, step: Step)
    requires Starts(p, before) && Reaches(p, before, t, st) && SoFar(p, t, st, at)
    requires Allows(p, at, step.call) && Valid(st, step) && at in {DropTheImage, MarkActive}
    ensures Reaches(p, before, Tick(t, at, step.call, step.ok), step.after)
    ensures SoFar(p, Tick(t, at, step.call, step.ok), step.after, Advance(at, step.call, step.ok))
  {
  }

  lemma OneStep(p: Plan, before: State, t: Tally, st: State, at: Point, step: Step)
    requires Starts(p, before) && Reaches(p, before, t, st) && SoFar(p, t, st, at)
    requires Allows(p, at, step.call) && Valid(st, step)
    ensures Reaches(p, before, Tick(t, at, step.call, step.ok), step.after)
    ensures SoFar(p, Tick(t, at, step.call, step.ok), step.after, Advance(at, step.call, step.ok))
  {
    assert !at.Done?;
    hide Reaches, SoFar, Allows, Valid, Tick, Advance;
    if at in {Begin, LookUp} {
      BuildStep(p, before, t, st, at, step);
    } else if at.Place? || at in {Store, Failing} {
      PlaceStep(p, before, t, st, at, step);
    } else if at == Poll {
      PollStep(p, before, t, st, step);
    } else if at in {MarkDeleting, MarkDeleted} {
      SnapshotStep(p, before, t, st, at, step);
    } else {
      ReleaseStep(p, before, t, st, at, step);
    }
  }

  /** At every cut of a resume the stores are what the calls that worked have made of them. */
  lemma {:induction false} EveryCutIsReached(p: Plan, before: State, steps: seq<Step>)
    requires Starts(p, before) && Follows(p, before, steps).Some?
    ensures Reaches(p, before, TallyOf(p, steps), StateAfter(before, steps))
    ensures SoFar(p, TallyOf(p, steps), StateAfter(before, steps), Follows(p, before, steps).value)
    decreases |steps|
  {
    if steps == [] {
      NoStepsYet(p, before);
    } else {
      hide Reaches, SoFar, Allows, Advance, Valid, TallyOf, Tick;
      var init, last := steps[..|steps| - 1], steps[|steps| - 1];
      var at := Follows(p, before, init).value;
      EveryCutIsReached(p, before, init);
      TallyLast(p, steps, at);
      OneStep(p, before, TallyOf(p, init), StateAfter(before, init), at, last);
    }
  }

  // ---------------------------------------------------------------------------
  // What holds at every cut

  /** The disk is in the image, or on a running server that was built from the image and
      that the row names. */
  predicate Safe(st: State, id: InstanceId, img: ImageId, disk: nat) {
    ImageHolds(st, img, disk) || RowOnServerFrom(st, id, img, disk)
  }

  /** The server is there and the row does not name it. */
  predicate Lost(st: State, id: InstanceId, server: ServerId) {
    server in st.servers && (id in st.rows ==> st.rows[id].serverId != Some(server))
  }

  /** At every cut of every resume: the disk is safe, the image has gone only if the row
      names a running server with the disk, and the run ends in `active` only then.  The new
      server is lost, there but not named by the row, if and only if it was built and the
      row write that should name it has not worked. */
  lemma ResumeIsExact(p: Plan, before: State, steps: seq<Step>)
    requires Starts(p, before) && p.img in before.images && Follows(p, before, steps).Some?
    ensures var st, disk := StateAfter(before, steps), before.images[p.img].disk;
      && Safe(st, p.id, p.img, disk)
      && (p.img !in st.images <==> Took(steps, DeleteImage(p.img)))
      && (Took(steps, DeleteImage(p.img)) || Follows(p, before, steps) == Some(Done(true)) ==>
            RowOnServerFrom(st, p.id, p.img, disk))
    ensures var st := StateAfter(before, steps);
      Lost(st, p.id, p.server) <==> Built(p, steps) && !Took(steps, SetProviderInfo(p.id, p.server, Some(p.address)))
  {
    EveryCutIsReached(p, before, steps);
    hide Took, Built;
  }

  /** No other instance's row, no server and no image from before is touched, but for the
      image that is used up. */
  predicate NothingElse(p: Plan, before: State, st: State) {
    && (forall id :: id in before.rows && id != p.id ==> id in st.rows && st.rows[id] == before.rows[id])
    && (forall s :: s in before.servers ==> s in st.servers && st.servers[s] == before.servers[s])
    && (forall img :: img in before.images && img != p.img ==>
          img in st.images && st.images[img] == before.images[img])
    && (forall snap :: snap in before.snapshots && snap != p.snap ==>
          snap in st.snapshots && st.snapshots[snap] == before.snapshots[snap])
  }

  lemma ReachesNothingElse(p: Plan, before: State, t: Tally, st: State)
    requires Starts(p, before) && Reaches(p, before, t, st)
    ensures NothingElse(p, before, st)
  {
  }

  /** At every cut. */
  lemma ResumeTouchesNothingElse(p: Plan, before: State, steps: seq<Step>)
    requires Starts(p, before) && Follows(p, before, steps).Some?
    ensures NothingElse(p, before, StateAfter(before, steps))
  {
    EveryCutIsReached(p, before, steps);
    hide NothingElse, Reaches, SoFar, TallyOf, Follows;
    ReachesNothingElse(p, before, TallyOf(p, steps), StateAfter(before, steps));
  }

  // ---------------------------------------------------------------------------
  // The address

  ghost predicate BuiltWith(p: Plan, steps: seq<Step>, withAddress: bool) {
    Took(steps, CreateServer(p.server, p.address, p.tier, p.img, withAddress))
  }

  /** How the server was built decides where the resume can get. */
  ghost predicate AddressSoFar(p: Plan, steps: seq<Step>, at: Point) {
    && (at in {Begin, LookUp} ==> !BuiltWith(p, steps, true) && !BuiltWith(p, steps, false))
    && (at.Place? ==> BuiltWith(p, steps, at.withAddress) && !BuiltWith(p, steps, !at.withAddress))
    && (Took(steps, SetProviderInfo(p.id, p.server, Some(p.address))) || at == Poll || at == Store ==>
          BuiltWith(p, steps, true) && !BuiltWith(p, steps, false))
    && (at in {MarkDeleting, DropTheImage, MarkDeleted, MarkActive, Done(true)} ==>
          BuiltWith(p, steps, true) && !BuiltWith(p, steps, false))
  }

  lemma AddressStep(p: Plan, st: State, init: seq<Step>, steps: seq<Step>, at: Point)
    requires steps != [] && init == steps[..|steps| - 1] && AddressSoFar(p, init, at)
    requires Allows(p, at, steps[|steps| - 1].call) && Valid(st, steps[|steps| - 1])
    ensures var last := steps[|steps| - 1]; AddressSoFar(p, steps, Advance(at, last.call, last.ok))
  {
    TookLast(steps);
    hide Took, Valid;
    assert steps[|steps| - 1].ok ==> Possible(st, steps[|steps| - 1].call) by {
      ValidIsPossible(st, steps[|steps| - 1]);
    }
  }

  lemma ValidIsPossible(st: State, step: Step)
    requires Valid(st, step)
    ensures step.ok ==> Possible(st, step.call)
  {
  }

  /** At every cut: if the provider's first reply had no address the row never comes to name
      the server, which is lost, and the run does not end in `active`. */
  lemma {:induction false} AddressIsNeeded(p: Plan, before: State, steps: seq<Step>)
    requires Starts(p, before) && Follows(p, before, steps).Some?
    ensures AddressSoFar(p, steps, Follows(p, before, steps).value)
    ensures BuiltWith(p, steps, false) && p.img in before.images ==>
              Lost(StateAfter(before, steps), p.id, p.server) && Follows(p, before, steps) != Some(Done(true))
    decreases |steps|
  {
    if steps != [] {
      var init := steps[..|steps| - 1];
      AddressIsNeeded(p, before, init);
      hide AddressSoFar, Allows, Advance, Valid;
      AddressStep(p, StateAfter(before, init), init, steps, Follows(p, before, init).value);
    }
    AddressAtTheEnd(p, before, steps);
  }

  lemma AddressAtTheEnd(p: Plan, before: State, steps: seq<Step>)
    requires Starts(p, before) && Follows(p, before, steps).Some?
    requires AddressSoFar(p, steps, Follows(p, before, steps).value)
    ensures BuiltWith(p, steps, false) && p.img in before.images ==>
              Lost(StateAfter(before, steps), p.id, p.server) && Follows(p, before, steps) != Some(Done(true))
  {
    if BuiltWith(p, steps, false) && p.img in before.images {
      ResumeIsExact(p, before, steps);
      hide Took, Follows;
    }
  }

  /** A step of a resume. */
  lemma Go(p: Plan, before: State, steps: seq<Step>, call: Call, ok: bool) returns (longer: seq<Step>)
    requires Follows(p, before, steps).Some? && Allows(p, Follows(p, before, steps).value, call)
    requires ok ==> Possible(StateAfter(before, steps), call)
    ensures Follows(p, before, longer) == Some(Advance(Follows(p, before, steps).value, call, ok))
    ensures longer == steps + [Step(call, ok, After(StateAfter(before, steps), call, ok))]
  {
    var st := StateAfter(before, steps);
    longer := steps + [Step(call, ok, After(st, call, ok))];
    assert longer[..|longer| - 1] == steps;
  }

  /** On every instance with an image a resume can build a server, lose it, and end in
      `error`. */
  lemma TheNewServerCanBeLost(p: Plan, before: State) returns (steps: seq<Step>)
    requires Starts(p, before) && p.img in before.images
    ensures Follows(p, before, steps) == Some(Done(false)) && BuiltWith(p, steps, false)
    ensures Lost(StateAfter(before, steps), p.id, p.server)
  {
    NoStepsYet(p, before);
    hide Follows;
    steps := Go(p, before, [], SetStatus(p.id, Resuming), false);
    steps := Go(p, before, steps, CreateServer(p.server, p.address, p.tier, p.img, false), true);
    steps := Go(p, before, steps, WriteBlankAddress(p.id, p.server), false);
    steps := Go(p, before, steps, SetStatus(p.id, Error), false);
    assert steps[1].ok && steps[1].call == CreateServer(p.server, p.address, p.tier, p.img, false);
    AddressIsNeeded(p, before, steps);
  }

  // ---------------------------------------------------------------------------
  // The polls

  /** An answer said that the server runs. */
  predicate SaidRunning(steps: seq<Step>, k: nat) {
    k < |steps| && steps[k].ok && steps[k].call.ObserveServer? && steps[k].call.running
  }

  /** How often the provider was asked about the server. */
  function Asked(steps: seq<Step>): nat {
    if steps == [] then 0
    else Asked(steps[..|steps| - 1]) + if steps[|steps| - 1].call.ObserveServer? then 1 else 0
  }

  /** No call failed but, perhaps, questions about the server. */
  predicate OnlyPollsFailed(steps: seq<Step>) {
    forall k :: 0 <= k < |steps| ==> steps[k].ok || steps[k].call.ObserveServer?
  }

  predicate PastThePolls(at: Point) {
    at in {Store, MarkDeleting, DropTheImage, MarkDeleted, MarkActive, Done(true)}
  }

  /** At every cut of every resume: it is past its polls if and only if an answer said that
      the server runs; so it ends in `active` exactly then, whatever failed after it. */
  lemma {:induction false} RunningDecides(p: Plan, before: State, steps: seq<Step>)
    requires Follows(p, before, steps).Some?
    ensures PastThePolls(Follows(p, before, steps).value) <==> exists k :: SaidRunning(steps, k)
    decreases |steps|
  {
    if steps != [] {
      var init, last := steps[..|steps| - 1], |steps| - 1;
      RunningDecides(p, before, init);
      hide Valid;
      assert SaidRunning(steps, last) || !SaidRunning(steps, last);
      forall k: nat | k < last ensures SaidRunning(steps, k) == SaidRunning(init, k) {
      }
    }
  }

  // ---------------------------------------------------------------------------
  // The order of the calls

  /** What can come right after what.  The server is built after the status write, the row
      is pointed at it before it is polled, and only an answer that it runs, or the store of
      the address that came with it, leads to the snapshot's end and to `active`; `error`
      comes after a failed build or row write, and after polls that did not see it run. */
  predicate MayFollow(p: Plan, last: Option<Step>, call: Call) {
    match call
    case SetStatus(_, Resuming) => last.None?
    case CreateServer(_, _, _, _, _) => last.Some? && last.value.call == SetStatus(p.id, Resuming)
    case SetProviderInfo(_, server, ip) =>
      && server == p.server && ip == Some(p.address) && last.Some? && last.value.ok
      && (|| (last.value.call.CreateServer? && last.value.call.withAddress)
          || (last.value.call.ObserveServer? && last.value.call.running && last.value.call.withAddress))
    case WriteBlankAddress(_, _) =>
      last.Some? && last.value.ok && last.value.call.CreateServer? && !last.value.call.withAddress
    case ObserveServer(server, _, _) =>
      && server == p.server && last.Some?
      && ((last.value.ok && last.value.call.SetProviderInfo?) || NotRunning(last.value))
    case SetSnapshotStatus(snap, Deleting) =>
      && snap == p.snap && last.Some?
      && (last.value.call.SetProviderInfo?
          || (last.value.ok && last.value.call.ObserveServer? && last.value.call.running))
    case DeleteImage(img) => img == p.img && last.Some? && last.value.call == SetSnapshotStatus(p.snap, Deleting)
    case SetSnapshotStatus(snap, Deleted) =>
      snap == p.snap && last.Some? && last.value.call == DeleteImage(p.img)
    case SetStatus(_, Active) => last.Some? && last.value.call == SetSnapshotStatus(p.snap, Deleted)
    case SetStatus(_, Error) =>
      && last.Some?
      && (|| last.value.call == SetStatus(p.id, Resuming) || NotRunning(last.value)
          || last.value.call.SetProviderInfo?
          || (!last.value.ok && (last.value.call.CreateServer? || last.value.call.WriteBlankAddress?)))
    case _ => false
  }

  predicate NotRunning(step: Step) {
    step.call.ObserveServer? && !(step.ok && step.call.running)
  }

  /** The point that a step can have led to. */
  predicate Fits(p: Plan, at: Point, last: Option<Step>) {
    match at
    case Begin => last.None?
    case LookUp => last.Some? && last.value.call == SetStatus(p.id, Resuming)
    case Place(withAddress) =>
      && last.Some? && last.value.ok && last.value.call.CreateServer?
      && last.value.call.withAddress == withAddress
    case Poll =>
      last.Some? && ((last.value.ok && (last.value.call.SetProviderInfo?)) || NotRunning(last.value))
    case Store =>
      last.Some? && last.value.ok && last.value.call.ObserveServer? && last.value.call.running
      && last.value.call.withAddress
    case MarkDeleting =>
      last.Some? && (last.value.call.SetProviderInfo?
                     || (last.value.ok && last.value.call.ObserveServer? && last.value.call.running))
    case DropTheImage => last.Some? && last.value.call == SetSnapshotStatus(p.snap, Deleting)
    case MarkDeleted => last.Some? && last.value.call == DeleteImage(p.img)
    case MarkActive => last.Some? && last.value.call == SetSnapshotStatus(p.snap, Deleted)
    case Failing =>
      last.Some? && !last.value.ok
      && (last.value.call.CreateServer? || last.value.call.SetProviderInfo? || last.value.call.WriteBlankAddress?)
    case Done(_) => last.Some?
  }

  function Before(steps: seq<Step>, k: nat): Option<Step>
    requires k <= |steps|
  {
    if k == 0 then None else Some(steps[k - 1])
  }

  predicate Ordered(p: Plan, steps: seq<Step>) {
    forall k :: 0 <= k < |steps| ==> MayFollow(p, Before(steps, k), steps[k].call)
  }

  lemma StepFits(p: Plan, at: Point, last: Option<Step>, step: Step)
    requires Fits(p, at, last) && Allows(p, at, step.call) && (step.call.WriteBlankAddress? ==> !step.ok)
    ensures MayFollow(p, last, step.call) && Fits(p, Advance(at, step.call, step.ok), Some(step))
  {
  }

  lemma OrderedMore(p: Plan, steps: seq<Step>)
    requires steps != [] && Ordered(p, steps[..|steps| - 1])
    requires MayFollow(p, Before(steps[..|steps| - 1], |steps| - 1), steps[|steps| - 1].call)
    ensures Ordered(p, steps)
  {
    hide MayFollow;
    var last := |steps| - 1;
    forall k | 0 <= k < |steps| ensures MayFollow(p, Before(steps, k), steps[k].call) {
      BeforeInPart(steps, last, k);
      hide Before;
      assert k < last ==> steps[k] == steps[..last][k];
    }
  }

  lemma BeforeInPart(steps: seq<Step>, n: nat, k: nat)
    requires k <= n <= |steps|
    ensures Before(steps[..n], k) == Before(steps, k)
  {
  }

  /** In every resume, up to any cut, the calls come in this order. */
  lemma {:induction false} ResumesAreOrdered(p: Plan, before: State, steps: seq<Step>)
    requires Follows(p, before, steps).Some?
    ensures Ordered(p, steps) && Fits(p, Follows(p, before, steps).value, Before(steps, |steps|))
    decreases |steps|
  {
    NothingOrdered(p);
    hide Fits, MayFollow, Allows, Advance, Ordered;
    if steps != [] {
      var init, last := steps[..|steps| - 1], steps[|steps| - 1];
      ResumesAreOrdered(p, before, init);
      ValidIsPossible(StateAfter(before, init), last);
      hide Valid;
      StepFits(p, Follows(p, before, init).value, Before(init, |init|), last);
      OrderedMore(p, steps);
    }
  }

  lemma NothingOrdered(p: Plan)
    ensures Ordered(p, []) && Fits(p, Begin, None)
  {
  }

  // ---------------------------------------------------------------------------
  // The end

  /** How far a resume without failures has got. */
  predicate CleanSoFar(p: Plan, t: Tally, st: State, at: Point) {
    && (at in {MarkDeleted, MarkActive, Done(true)} ==> t.dropped) && (at == Done(true) ==> t.active)
    && (at in {MarkActive, Done(true)} ==> p.snap in st.snapshots ==> st.snapshots[p.snap].status == Deleted)
  }

  lemma CleanStep(p: Plan, t: Tally, st: State, at: Point, step: Step)
    requires CleanSoFar(p, t, st, at) && Allows(p, at, step.call) && Valid(st, step)
    requires step.ok || step.call.ObserveServer?
    ensures CleanSoFar(p, Tick(t, at, step.call, step.ok), step.after, Advance(at, step.call, step.ok))
  {
  }

  lemma {:induction false} CleanResume(p: Plan, before: State, steps: seq<Step>)
    requires Starts(p, before) && Follows(p, before, steps).Some? && OnlyPollsFailed(steps)
    ensures CleanSoFar(p, TallyOf(p, steps), StateAfter(before, steps), Follows(p, before, steps).value)
    decreases |steps|
  {
    if steps != [] {
      hide CleanSoFar, Allows, Advance, Valid, TallyOf, Tick;
      var init, last := steps[..|steps| - 1], steps[|steps| - 1];
      var at := Follows(p, before, init).value;
      assert forall k :: 0 <= k < |init| ==> init[k] == steps[k];
      CleanResume(p, before, init);
      TallyLast(p, steps, at);
      CleanStep(p, TallyOf(p, init), StateAfter(before, init), at, last);
    } else {
      NoStepsYet(p, before);
    }
  }

  /** A resume that ends in `active`, with no call failed but polls, has used the snapshot up:
      its row says deleted, its image is gone, and the instance runs on the new server. */
  lemma ResumeCompletes(p: Plan, before: State, steps: seq<Step>)
    requires Starts(p, before) && p.snap in before.snapshots && OnlyPollsFailed(steps)
    requires Follows(p, before, steps) == Some(Done(true))
    ensures var st := StateAfter(before, steps);
      && p.id in st.rows && st.rows[p.id] == Instance(Active, Some(p.server), Some(p.address))
      && p.snap in st.snapshots && st.snapshots[p.snap] == before.snapshots[p.snap].(status := Deleted)
      && p.img !in st.images
  {
    EveryCutIsReached(p, before, steps);
    CleanResume(p, before, steps);
    hide Follows, Took, Built, OnlyPollsFailed;
  }

  // ---------------------------------------------------------------------------
  // The code

  ghost predicate Recording(w: Stores, base: seq<Step>, p: Plan, before: State, steps: seq<Step>)
    reads w
  {
    w.history == base + steps && w.st == StateAfter(before, steps) && Follows(p, before, steps).Some?
  }

  method Perform(w: Stores, call: Call, ghost base: seq<Step>, ghost p: Plan, ghost before: State,
                 ghost steps: seq<Step>)
    returns (ok: bool, ghost longer: seq<Step>)
    requires Recording(w, base, p, before, steps) && Allows(p, Follows(p, before, steps).value, call)
    modifies w
    ensures Recording(w, base, p, before, longer) && longer == steps + [Step(call, ok, w.st)]
    ensures Follows(p, before, longer) == Some(Advance(Follows(p, before, steps).value, call, ok))
    ensures OnlyPollsFailed(longer) <==> OnlyPollsFailed(steps) && (ok || call.ObserveServer?)
    ensures Asked(longer) == Asked(steps) + if call.ObserveServer? then 1 else 0
  {
    ok := w.Perform(call);
    longer := steps + [Step(call, ok, w.st)];
    assert longer[..|longer| - 1] == steps;
    assert base + longer == base + steps + [Step(call, ok, w.st)];
  }

  /** waitForServer: poll until the server runs or the deadline passes, and then give up. */
  method WaitForServer(w: Stores, id: InstanceId, server: ServerId, address: Address, polls: nat,
                       ghost base: seq<Step>, ghost p: Plan, ghost before: State, ghost steps: seq<Step>)
    returns (ready: bool, ghost longer: seq<Step>)
    requires id == p.id && server == p.server && address == p.address
    requires Recording(w, base, p, before, steps) && Follows(p, before, steps) == Some(Poll)
    modifies w
    ensures Recording(w, base, p, before, longer)
    ensures Follows(p, before, longer) == Some(if ready then MarkDeleting else Done(false))
    ensures OnlyPollsFailed(longer) ==> OnlyPollsFailed(steps)
    ensures Asked(steps) <= Asked(longer) <= Asked(steps) + polls
    ensures !ready ==> Asked(longer) == Asked(steps) + polls
  {
    hide Recording, OnlyPollsFailed, Asked, Follows;
    longer := steps;
    var left := polls;
    while left > 0
      invariant Recording(w, base, p, before, longer) && Follows(p, before, longer) == Some(Poll)
      invariant OnlyPollsFailed(longer) ==> OnlyPollsFailed(steps)
      invariant 0 <= left <= polls && Asked(longer) == Asked(steps) + polls - left
    {
      left := left - 1;
      var running: bool, withAddress: bool := *, *;
      var answered;
      answered, longer := Perform(w, ObserveServer(server, running, withAddress), base, p, before, longer);
      if answered && running {
        if withAddress {
          var stored;
          stored, longer := Perform(w, SetProviderInfo(id, server, Some(address)), base, p, before, longer);
        }
        return true, longer;
      }
    }
    var marked;
    marked, longer := Perform(w, SetStatus(id, Error), base, p, before, longer);
    return false, longer;
  }

  /** The system snapshot is no longer needed; the instance is active. */
  method Release(w: Stores, id: InstanceId, snap: SnapshotId, img: ImageId,
                 ghost base: seq<Step>, ghost p: Plan, ghost before: State, ghost steps: seq<Step>)
    returns (ghost longer: seq<Step>)
    requires id == p.id && snap == p.snap && img == p.img
    requires Recording(w, base, p, before, steps) && Follows(p, before, steps) == Some(MarkDeleting)
    modifies w
    ensures Recording(w, base, p, before, longer) && Follows(p, before, longer) == Some(Done(true))
    ensures OnlyPollsFailed(longer) ==> OnlyPollsFailed(steps)
    ensures Asked(longer) == Asked(steps)
  {
    hide Recording, OnlyPollsFailed, Asked, Follows;
    var ok;
    ok, longer := Perform(w, SetSnapshotStatus(snap, Deleting), base, p, before, steps);
    ok, longer := Perform(w, DeleteImage(img), base, p, before, longer);
    ok, longer := Perform(w, SetSnapshotStatus(snap, Deleted), base, p, before, longer);
    ok, longer := Perform(w, SetStatus(id, Active), base, p, before, longer);
  }

  /** executeResume from the chosen snapshot on. */
  method Rebuild(w: Stores, id: InstanceId, tier: string, snap: SnapshotId, img: ImageId, server: ServerId,
                 address: Address, polls: nat,
                 ghost base: seq<Step>, ghost p: Plan, ghost before: State, ghost steps: seq<Step>)
    returns (ghost longer: seq<Step>)
    requires p == Plan(id, tier, snap, img, server, address)
    requires Recording(w, base, p, before, steps) && Follows(p, before, steps) == Some(LookUp)
    modifies w
    ensures Recording(w, base, p, before, longer)
    ensures Follows(p, before, longer) in {Some(Done(true)), Some(Done(false))}
    ensures OnlyPollsFailed(longer) ==>
              && OnlyPollsFailed(steps)
              && (Follows(p, before, longer) == Some(Done(true)) || Asked(longer) == Asked(steps) + polls)
  {
    hide Recording, OnlyPollsFailed, Asked, Follows;
    var withAddress: bool := *;
    var built, placed, ready, marked;
    built, longer := Perform(w, CreateServer(server, address, tier, img, withAddress), base, p, before, steps);
    if !built {
      marked, longer := Perform(w, SetStatus(id, Error), base, p, before, longer);
      return;
    }
    if withAddress {
      placed, longer := Perform(w, SetProviderInfo(id, server, Some(address)), base, p, before, longer);
    } else {
      placed, longer := Perform(w, WriteBlankAddress(id, server), base, p, before, longer);
    }
    if !placed {
      marked, longer := Perform(w, SetStatus(id, Error), base, p, before, longer);
      return;
    }
    ready, longer := WaitForServer(w, id, server, address, polls, base, p, before, longer);
    if ready {
      longer := Release(w, id, snap, img, base, p, before, longer);
    }
  }

  /** There is a ready system snapshot, and every one of them names an image. */
  ghost predicate HasImage(st: State, id: InstanceId) {
    && (exists snap :: Candidate(st, id, snap))
    && forall snap :: Candidate(st, id, snap) ==> st.snapshots[snap].image.Some?
  }

  /** The snapshot a resume works from. */
  ghost predicate Picked(p: Plan, st: State) {
    Latest(st, p.id, p.snap) && st.snapshots[p.snap].image == Some(p.img)
  }

  lemma FirstStep(p: Plan, before: State, step: Step)
    requires p.id in before.rows && Valid(before, step) && step.call == SetStatus(p.id, Resuming)
    ensures Follows(p, before, [step]) == Some(LookUp) && StateAfter(before, [step]) == step.after
  {
    assert [step][..0] == [];
    NoStepsYet(p, before);
  }

  /** The row's status does not matter to the choice. */
  lemma SameChoice(a: State, b: State, id: InstanceId)
    requires a.snapshots == b.snapshots
    ensures HasImage(a, id) ==> HasImage(b, id)
    ensures forall snap :: Latest(b, id, snap) ==> Latest(a, id, snap)
  {
    forall snap ensures Candidate(a, id, snap) == Candidate(b, id, snap) {
    }
  }

  /** executeResume.  `readable` says whether the snapshot query works, `prepared` whether
      the provider, subscription, mapping, tokens, agent configuration, cloud-init template
      and user are all found.  Its calls are a whole resume from the latest ready system
      snapshot, so what is proved of every cut of one holds of it, and it ends in `active`
      if nothing fails; or there is nothing to resume from and it only marks the row. */
  method ExecuteResume(w: Stores, id: InstanceId, tier: string, readable: bool, prepared: bool, polls: nat)
    returns (ghost p: Plan, ghost steps: seq<Step>)
    requires id in w.st.rows
    modifies w
    ensures p.id == id && p.tier == tier && Starts(p, old(w.st))
    ensures Recording(w, old(w.history), p, old(w.st), steps)
    ensures Follows(p, old(w.st), steps) in {Some(Done(true)), Some(Done(false))}
    ensures Built(p, steps) ==> Picked(p, old(w.st))
    ensures Follows(p, old(w.st), steps) == Some(Done(true)) <==> exists k :: SaidRunning(steps, k)
    ensures OnlyPollsFailed(steps) && readable && prepared && HasImage(old(w.st), id) ==>
              && Picked(p, old(w.st))
              && (Follows(p, old(w.st), steps) == Some(Done(true)) || Asked(steps) == polls)
  {
    ghost var base, before := w.history, w.st;
    var server := NewServerId(w, id);
    var address: Address := *;
    var snap, img;
    snap, img, p, steps := Choose(w, id, tier, readable, server, address);
    hide OnlyPollsFailed, Asked, Follows, Starts, HasImage, Picked, Recording;
    if img.None? || !prepared {
      var marked;
      marked, steps := Perform(w, SetStatus(id, Error), base, p, before, steps);
      NeverBuilt(p, steps);
      RunningDecides(p, before, steps);
      return;
    }
    steps := Rebuild(w, id, tier, snap, img.value, server, address, polls, base, p, before, steps);
    RunningDecides(p, before, steps);
  }

  lemma NeverBuilt(p: Plan, steps: seq<Step>)
    requires |steps| == 2 && !steps[0].call.CreateServer? && !steps[1].call.CreateServer?
    ensures !Built(p, steps)
  {
  }

  /** The id the provider will give the new server. */
  method NewServerId(w: Stores, id: InstanceId) returns (server: ServerId)
    requires id in w.st.rows
    ensures server !in w.st.servers && w.st.rows[id].serverId != Some(server)
  {
    var named := w.st.rows[id].serverId;
    server := FreshId(w.st.servers.Keys + if named.Some? then {named.value} else {});
  }

  /** Mark the instance, and look for the snapshot to resume from. */
  method Choose(w: Stores, id: InstanceId, ghost tier: string, readable: bool, ghost server: ServerId,
                ghost address: Address)
    returns (snap: SnapshotId, img: Option<ImageId>, ghost p: Plan, ghost steps: seq<Step>)
    requires id in w.st.rows && server !in w.st.servers && w.st.rows[id].serverId != Some(server)
    modifies w
    ensures p == Plan(id, tier, snap, if img.Some? then img.value else 0, server, address) && Starts(p, old(w.st))
    ensures Recording(w, old(w.history), p, old(w.st), steps) && Follows(p, old(w.st), steps) == Some(LookUp)
    ensures |steps| == 1 && !steps[0].call.CreateServer?
    ensures img.Some? ==> Picked(p, old(w.st))
    ensures img.None? ==> !readable || !HasImage(old(w.st), id)
  {
    ghost var before := w.st;
    var marked := w.UpdateInstanceStatus(id, Resuming);
    ghost var first := Step(SetStatus(id, Resuming), marked, w.st);
    steps := [first];
    var latest := None;
    if readable {
      latest := GetSystemSnapshot(w.st, id);
    }
    snap := if latest.Some? then latest.value else 0;
    img := if latest.Some? then w.st.snapshots[snap].image else None;
    p := Plan(id, tier, snap, if img.Some? then img.value else 0, server, address);
    FirstStep(p, before, first);
    SameChoice(before, w.st, id);
  }

  // ---------------------------------------------------------------------------
  // From the suspended server to the resumed one

  /** The steps of other jobs between the suspension and the resume: each one possible where
      it happens, and none that touches the choice of the snapshot. */
  ghost predicate Between(from: State, steps: seq<Step>, id: InstanceId, snap: SnapshotId)
    decreases |steps|
  {
    steps == [] ||
    var init, last := steps[..|steps| - 1], steps[|steps| - 1];
    var before := StateAfter(from, init);
    && Between(from, init, id, snap) && Valid(before, last)
    && (last.ok ==> snap in before.snapshots && KeepsChoice(before, id, snap, last.call))
  }

  lemma {:induction false} ChoiceSurvives(from: State, steps: seq<Step>, id: InstanceId, snap: SnapshotId, disk: nat)
    requires Picks(from, id, snap) && from.snapshots[snap].image.Some?
    requires ImageHolds(from, from.snapshots[snap].image.value, disk)
    requires Between(from, steps, id, snap)
    ensures var st := StateAfter(from, steps);
      && Picks(st, id, snap) && st.snapshots[snap].image == from.snapshots[snap].image
      && ImageHolds(st, from.snapshots[snap].image.value, disk)
    decreases |steps|
  {
    hide Picks, KeepsChoice, Apply, Possible;
    if steps != [] {
      var n := |steps| - 1;
      ChoiceSurvives(from, steps[..n], id, snap, disk);
      var before := StateAfter(from, steps[..n]);
      PicksIsThere(before, id, snap);
      if steps[n].ok {
        ChoiceIsKeptExactly(before, id, snap, disk, steps[n].call);
      }
    }
  }

  lemma PicksIsThere(st: State, id: InstanceId, snap: SnapshotId)
    requires Picks(st, id, snap)
    ensures snap in st.snapshots
    ensures forall other :: Latest(st, id, other) ==> other == snap
  {
  }

  /** The customer's disk comes back.  Take any suspension that marked its snapshot ready,
      any steps of other jobs that leave the choice alone, and any later resume.  At every
      cut of the resume the disk of the deleted server is in the suspension's image or runs
      again, and if the resume ends in `active` the row names a running server with exactly
      that disk. */
  lemma SuspendThenResumeRestoresTheDisk(s: Suspend.Plan, before: State, suspension: seq<Step>,
                                         between: seq<Step>, r: Plan, resume: seq<Step>)
    requires Suspend.Starts(s, before) && s.server in before.servers && NoneNewer(before, s.id, s.now)
    requires Suspend.Follows(s, before, suspension) == Some(Suspend.Done)
    requires Took(suspension, SetSnapshotReady(s.snap, s.img))
    requires Between(StateAfter(before, suspension), between, s.id, s.snap)
    requires var mid := StateAfter(StateAfter(before, suspension), between);
      r.id == s.id && Starts(r, mid) && Picked(r, mid) && Follows(r, mid, resume).Some?
    ensures r.snap == s.snap && r.img == s.img
    ensures var mid := StateAfter(StateAfter(before, suspension), between);
      var disk := before.servers[s.server].disk;
      && Safe(StateAfter(mid, resume), s.id, s.img, disk)
      && (Follows(r, mid, resume) == Some(Done(true)) ==> RowOnServerFrom(StateAfter(mid, resume), s.id, s.img, disk))
  {
    var suspended, disk := StateAfter(before, suspension), before.servers[s.server].disk;
    var mid := StateAfter(suspended, between);
    Suspend.SuspensionIsExact(s, before, suspension);
    PicksIsThere(suspended, s.id, s.snap);
    ChoiceSurvives(suspended, between, s.id, s.snap, disk);
    PicksIsThere(mid, s.id, s.snap);
    hide Suspend.Follows, Follows, Picks, Latest, Between, Took, RowOnServerFrom, Starts;
    ResumeIsExact(r, mid, resume);
  }

  /** An older disk may come back instead.  If the suspension did not get to mark its snapshot
      ready, a resume takes the snapshot it would have taken before, if there is one, and the
      instance comes back with that snapshot's disk. */
  lemma WithoutASnapshotTheOldOneComesBack(s: Suspend.Plan, before: State, suspension: seq<Step>, earlier: SnapshotId,
                                           between: seq<Step>, r: Plan, resume: seq<Step>)
    requires Suspend.Starts(s, before) && NoneNewer(before, s.id, s.now)
    requires Suspend.Follows(s, before, suspension).Some? && !Took(suspension, SetSnapshotReady(s.snap, s.img))
    requires Picks(before, s.id, earlier) && HasItsImage(before, earlier)
    requires Between(StateAfter(before, suspension), between, s.id, earlier)
    requires var mid := StateAfter(StateAfter(before, suspension), between);
      r.id == s.id && Starts(r, mid) && Picked(r, mid) && Follows(r, mid, resume).Some?
    ensures r.snap == earlier && Some(r.img) == before.snapshots[earlier].image
    ensures var mid := StateAfter(StateAfter(before, suspension), between);
      var disk := before.images[r.img].disk;
      && Safe(StateAfter(mid, resume), s.id, r.img, disk)
      && (Follows(r, mid, resume) == Some(Done(true)) ==> RowOnServerFrom(StateAfter(mid, resume), s.id, r.img, disk))
  {
    var suspended := StateAfter(before, suspension);
    var disk := before.images[before.snapshots[earlier].image.value].disk;
    var mid := StateAfter(suspended, between);
    Suspend.ChoiceIsExact(s, before, suspension, earlier);
    OldSnapshotStays(s, before, suspension, earlier);
    PicksIsThere(suspended, s.id, earlier);
    ChoiceSurvives(suspended, between, s.id, earlier, disk);
    PicksIsThere(mid, s.id, earlier);
    hide Suspend.Follows, Follows, Picks, Latest, Between, Took, RowOnServerFrom, Starts;
    ResumeIsExact(r, mid, resume);
  }

  predicate HasItsImage(st: State, snap: SnapshotId) {
    snap in st.snapshots && st.snapshots[snap].image.Some? && st.snapshots[snap].image.value in st.images
  }

  lemma OldSnapshotStays(s: Suspend.Plan, before: State, suspension: seq<Step>, earlier: SnapshotId)
    requires Suspend.Starts(s, before) && Suspend.Follows(s, before, suspension).Some? && HasItsImage(before, earlier)
    ensures var st := StateAfter(before, suspension);
      && HasItsImage(st, earlier) && st.snapshots[earlier] == before.snapshots[earlier]
      && st.images[before.snapshots[earlier].image.value] == before.images[before.snapshots[earlier].image.value]
  {
    Suspend.EveryCutIsReached(s, before, suspension);
    hide Suspend.Follows, Took;
  }

  /** A resume in which every call works. */
  lemma GoodResume(p: Plan, before: State) returns (steps: seq<Step>)
    requires Starts(p, before) && p.img in before.images
    ensures Follows(p, before, steps) == Some(Done(true))
  {
    NoStepsYet(p, before);
    hide Follows;
    steps := Go(p, before, [], SetStatus(p.id, Resuming), true);
    steps := Go(p, before, steps, CreateServer(p.server, p.address, p.tier, p.img, true), true);
    steps := Go(p, before, steps, SetProviderInfo(p.id, p.server, Some(p.address)), true);
    steps := Go(p, before, steps, ObserveServer(p.server, true, false), true);
    hide Apply, Possible;
    steps := ReleaseTheSnapshot(p, before, steps);
  }

  lemma ReleaseTheSnapshot(p: Plan, before: State, steps: seq<Step>) returns (longer: seq<Step>)
    requires Follows(p, before, steps) == Some(MarkDeleting)
    ensures Follows(p, before, longer) == Some(Done(true))
  {
    hide Follows;
    longer := Go(p, before, steps, SetSnapshotStatus(p.snap, Deleting), true);
    longer := Go(p, before, longer, DeleteImage(p.img), true);
    longer := Go(p, before, longer, SetSnapshotStatus(p.snap, Deleted), true);
    longer := Go(p, before, longer, SetStatus(p.id, Active), true);
  }

  /** It does happen: on every instance that an older ready system snapshot is left of, a
      suspension and a resume can end in `active` on that snapshot's disk, with neither the
      deleted server nor an image of it left. */
  lemma AnOldDiskCanComeBack(s: Suspend.Plan, before: State, r: Plan)
    returns (suspension: seq<Step>, resume: seq<Step>)
    requires Suspend.Starts(s, before) && s.server in before.servers && NoneNewer(before, s.id, s.now)
    requires Picks(before, s.id, r.snap) && HasItsImage(before, r.snap) && before.snapshots[r.snap].image == Some(r.img)
    requires r.id == s.id && Starts(r, before)
    ensures Suspend.Follows(s, before, suspension) == Some(Suspend.Done)
    ensures var mid := StateAfter(before, suspension);
      && Picked(r, mid) && Follows(r, mid, resume) == Some(Done(true))
      && RowOnServerFrom(StateAfter(mid, resume), s.id, r.img, before.images[r.img].disk)
      && !Suspend.DataHeld(s, before, StateAfter(mid, resume))
  {
    suspension := Suspend.TheDiskCanBeLost(s, before);
    var mid := StateAfter(before, suspension);
    Suspend.EveryCutIsReached(s, before, suspension);
    Suspend.ChoiceIsExact(s, before, suspension, r.snap);
    OldSnapshotStays(s, before, suspension, r.snap);
    hide Suspend.Follows, Follows, Took;
    resume := GoodResume(r, mid);
    WithoutASnapshotTheOldOneComesBack(s, before, suspension, r.snap, [], r, resume);
    NothingComesBack(s, before, r, mid, resume);
  }

  lemma NothingComesBack(s: Suspend.Plan, before: State, r: Plan, mid: State, resume: seq<Step>)
    requires s.server in before.servers && !Suspend.DataHeld(s, before, mid)
    requires Starts(r, mid) && r.server !in before.servers && Follows(r, mid, resume).Some?
    ensures !Suspend.DataHeld(s, before, StateAfter(mid, resume))
  {
    EveryCutIsReached(r, mid, resume);
    hide Took, Follows, Built;
  }
}
