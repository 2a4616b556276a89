/** Billing enforcement (suspendPastDue, terminateSuspended and deleteAllSnapshots in
    backend/internal/jobs/enforcer.go): which subscriptions are due, and what a pass over
    their instances may touch. */
module Enforcement {
  import opened Options
  import opened Sets
  import opened World
  import opened Suspend

  /** What deleting the snapshots of an instance leaves alone: the rows, the servers, the
      other instances' snapshots, and every image that no snapshot of the instance names. */
  ghost predicate OnlyItsSnapshots(before: State, after: State, id: InstanceId) {
    && after.rows == before.rows && after.servers == before.servers
    && after.snapshots.Keys == before.snapshots.Keys
    && (forall snap :: snap in before.snapshots ==>
          after.snapshots[snap] == before.snapshots[snap]
          || (before.snapshots[snap].instance == id
              && after.snapshots[snap] == before.snapshots[snap].(status := after.snapshots[snap].status)
              && after.snapshots[snap].status in {Deleting, Deleted}))
    && (forall img :: img in before.images ==>
          (img in after.images && after.images[img] == before.images[img]) || ItsImage(before, img, id))
    && (forall img :: img in after.images ==> img in before.images)
  }

  /** A snapshot of the instance names the image. */
  ghost predicate ItsImage(st: State, img: ImageId, id: InstanceId) {
    exists snap :: snap in st.snapshots && st.snapshots[snap].instance == id && st.snapshots[snap].image == Some(img)
  }

  lemma ItsImageBefore(before: State, after: State, img: ImageId, id: InstanceId)
    requires OnlyItsSnapshots(before, after, id) && ItsImage(after, img, id)
    ensures ItsImage(before, img, id)
  {
    var snap :|
      snap in after.snapshots && after.snapshots[snap].instance == id && after.snapshots[snap].image == Some(img);
    SameSnapshot(before, after, id, snap);
  }

  lemma OnlyItsSnapshotsChain(a: State, b: State, c: State, id: InstanceId)
    requires OnlyItsSnapshots(a, b, id) && OnlyItsSnapshots(b, c, id)
    ensures OnlyItsSnapshots(a, c, id)
  {
    forall img | img in a.images
      ensures (img in c.images && c.images[img] == a.images[img]) || ItsImage(a, img, id)
    {
      if img in b.images && ItsImage(b, img, id) {
        ItsImageBefore(a, b, img, id);
      }
    }
    hide ItsImage;
  }

  lemma SameSnapshot(before: State, after: State, id: InstanceId, snap: SnapshotId)
    requires OnlyItsSnapshots(before, after, id) && snap in before.snapshots
    ensures snap in after.snapshots && after.snapshots[snap].instance == before.snapshots[snap].instance
    ensures after.snapshots[snap].image == before.snapshots[snap].image
  {
  }

  predicate Cleared(st: State, snap: SnapshotId) {
    && snap in st.snapshots && st.snapshots[snap].status == Deleted
    && (st.snapshots[snap].image.Some? ==> st.snapshots[snap].image.value !in st.images)
  }

  /** The call has been made, whether or not it worked. */
  ghost predicate Called(h: seq<Step>, start: nat, call: Call) {
    exists k :: start <= k < |h| && h[k].call == call
  }

  lemma StillCalled(h: seq<Step>, longer: seq<Step>, start: nat, later: nat, call: Call)
    requires h <= longer && start <= later && Called(h, later, call)
    ensures Called(longer, start, call)
  {
    var k :| later <= k < |h| && h[k].call == call;
    assert longer[k].call == call;
  }

  /** The image was to be deleted, if there is one, and the row to be marked. */
  ghost predicate SnapshotTried(h: seq<Step>, start: nat, snap: SnapshotId, img: Option<ImageId>) {
    && (img.Some? ==> Called(h, start, DeleteImage(img.value)))
    && Called(h, start, SetSnapshotStatus(snap, Deleted))
  }

  lemma StillTried(h: seq<Step>, longer: seq<Step>, start: nat, later: nat, snap: SnapshotId, img: Option<ImageId>)
    requires h <= longer && start <= later && SnapshotTried(h, later, snap, img)
    ensures SnapshotTried(longer, start, snap, img)
  {
    if img.Some? {
      StillCalled(h, longer, start, later, DeleteImage(img.value));
    }
    StillCalled(h, longer, start, later, SetSnapshotStatus(snap, Deleted));
  }

  /** One turn of deleteAllSnapshots.  The row is marked deleted even if the image is not. */
  method DeleteOne(w: Stores, id: InstanceId, snap: SnapshotId, img: Option<ImageId>)
    requires snap in w.st.snapshots && w.st.snapshots[snap].instance == id && w.st.snapshots[snap].image == img
    modifies w
    ensures old(w.history) <= w.history
    ensures OnlyItsSnapshots(old(w.st), w.st, id)
    ensures Smooth(w.history, |old(w.history)|) ==> Cleared(w.st, snap)
    ensures SnapshotTried(w.history, |old(w.history)|, snap, img)
    ensures OneSnapshotLess(old(w.st), w.st, snap)
  {
    ghost var start, before := |w.history|, w.st;
    assert Smooth(w.history, start);
    hide Smooth, OnlyItsSnapshots, Cleared;
    var marked, gone := true, true;
    if img.Some? {
      marked := w.UpdateSnapshotStatus(snap, Deleting);
      gone := w.DropImage(img.value);
      assert w.history[start + 1].call == DeleteImage(img.value);
    }
    ghost var dropped := w.st;
    assert Dropped(before, dropped, snap, gone);
    ghost var h := w.history;
    marked := w.UpdateSnapshotStatus(snap, Deleted);
    assert w.history[|h|].call == SetSnapshotStatus(snap, Deleted) && h <= w.history;
    assert SnapshotTried(w.history, start, snap, img) by {
      assert img.Some? ==> w.history[start + 1].call == DeleteImage(img.value);
    }
    hide Dropped, OneSnapshotLess, SnapshotTried;
    DeletedOne(before, dropped, w.st, id, snap, gone, marked);
  }

  /** The image is gone, if there is one and the provider did not refuse. */
  predicate Dropped(before: State, after: State, snap: SnapshotId, gone: bool)
    requires snap in before.snapshots
  {
    && after.rows == before.rows && after.servers == before.servers
    && (after.snapshots == before.snapshots
        || after.snapshots == before.snapshots[snap := before.snapshots[snap].(status := Deleting)])
    && after.images == if before.snapshots[snap].image.Some? && gone
                       then before.images - {before.snapshots[snap].image.value} else before.images
  }

  /** One snapshot row has changed, in its status, and its image may be gone. */
  predicate OneSnapshotLess(before: State, after: State, snap: SnapshotId) {
    && snap in before.snapshots && snap in after.snapshots
    && after.snapshots == before.snapshots[snap := after.snapshots[snap]]
    && (after.images == before.images
        || (before.snapshots[snap].image.Some?
            && after.images == before.images - {before.snapshots[snap].image.value}))
  }

  lemma DeletedOne(before: State, dropped: State, after: State, id: InstanceId, snap: SnapshotId, gone: bool,
                   marked: bool)
    requires snap in before.snapshots && before.snapshots[snap].instance == id && Dropped(before, dropped, snap, gone)
    requires after == if marked && snap in dropped.snapshots
                      then dropped.(snapshots := dropped.snapshots[snap := dropped.snapshots[snap].(status := Deleted)])
                      else dropped
    ensures OneSnapshotLess(before, after, snap) && OnlyItsSnapshots(before, after, id)
    ensures gone && marked ==> Cleared(after, snap)
  {
    assert before.snapshots[snap].image.Some? ==> ItsImage(before, before.snapshots[snap].image.value, id);
    hide ItsImage;
  }

  lemma ClearedStays(before: State, after: State, snap: SnapshotId, other: SnapshotId)
    requires OneSnapshotLess(before, after, snap) && other != snap && Cleared(before, other)
    ensures Cleared(after, other)
  {
  }

  /** The snapshot rows deleteAllSnapshots asks for. */
  predicate Undeleted(st: State, id: InstanceId, snap: SnapshotId) {
    snap in st.snapshots && st.snapshots[snap].instance == id && st.snapshots[snap].status != Deleted
  }

  /** deleteAllSnapshots: unless the provider is unknown, the list cannot be read, or a call
      fails, no snapshot row of the instance is left undeleted and no image of one remains. */
  method DeleteAllSnapshots(w: Stores, id: InstanceId, listed: bool)
    modifies w
    ensures old(w.history) <= w.history
    ensures OnlyItsSnapshots(old(w.st), w.st, id)
    ensures listed && Smooth(w.history, |old(w.history)|) ==>
              forall snap :: Undeleted(old(w.st), id, snap) ==> Cleared(w.st, snap)
    ensures listed ==> forall snap :: Undeleted(old(w.st), id, snap) ==>
              SnapshotTried(w.history, |old(w.history)|, snap, old(w.st).snapshots[snap].image)
  {
    hide Cleared, SnapshotTried;
    assert OnlyItsSnapshots(w.st, w.st, id);
    hide OnlyItsSnapshots;
    if !listed {
      return;
    }
    ghost var before, start := w.st, |w.history|;
    var copies := w.st.snapshots;
    var rest := set snap | snap in copies && copies[snap].instance == id && copies[snap].status != Deleted;
    while rest != {}
      invariant start <= |w.history| && old(w.history) <= w.history
      invariant forall snap :: snap in rest ==> snap in copies && copies[snap].instance == id
      invariant OnlyItsSnapshots(before, w.st, id)
      invariant Smooth(w.history, start) ==> ClearedBut(before, w.st, id, rest)
      invariant TriedBut(before, id, rest, w.history, start)
      decreases rest
    {
      hide ClearedBut, TriedBut, Smooth, OneSnapshotLess;
      var snap :| snap in rest;
      ghost var h := w.history;
      ghost var st := w.st;
      SameSnapshot(before, st, id, snap);
      DeleteOne(w, id, snap, copies[snap].image);
      OnlyItsSnapshotsChain(before, st, w.st, id);
      SmoothParts(h, w.history, start);
      if Smooth(w.history, start) {
        OneMoreCleared(before, st, w.st, id, rest, snap);
      }
      StillTried(w.history, w.history, start, |h|, snap, copies[snap].image);
      TriedStay(before, id, rest, h, w.history, start);
      OneMoreTried(before, id, rest, snap, w.history, start);
      rest := rest - {snap};
    }
  }

  ghost predicate ClearedBut(before: State, st: State, id: InstanceId, rest: set<SnapshotId>) {
    forall snap :: Undeleted(before, id, snap) && snap !in rest ==> Cleared(st, snap)
  }

  ghost predicate TriedBut(before: State, id: InstanceId, rest: set<SnapshotId>, h: seq<Step>, start: nat) {
    forall snap :: Undeleted(before, id, snap) && snap !in rest ==>
      SnapshotTried(h, start, snap, before.snapshots[snap].image)
  }

  lemma OneMoreCleared(before: State, st: State, after: State, id: InstanceId, rest: set<SnapshotId>,
                       snap: SnapshotId)
    requires ClearedBut(before, st, id, rest) && OneSnapshotLess(st, after, snap) && Cleared(after, snap)
    ensures ClearedBut(before, after, id, rest - {snap})
  {
    forall other | other != snap && Cleared(st, other) ensures Cleared(after, other) {
      ClearedStays(st, after, snap, other);
    }
  }

  lemma OneMoreTried(before: State, id: InstanceId, rest: set<SnapshotId>, snap: SnapshotId, h: seq<Step>, start: nat)
    requires TriedBut(before, id, rest, h, start) && snap in before.snapshots
    requires SnapshotTried(h, start, snap, before.snapshots[snap].image)
    ensures TriedBut(before, id, rest - {snap}, h, start)
  {
    hide SnapshotTried;
  }

  lemma TriedStay(before: State, id: InstanceId, rest: set<SnapshotId>, h: seq<Step>, longer: seq<Step>, start: nat)
    requires h <= longer
    requires TriedBut(before, id, rest, h, start)
    ensures TriedBut(before, id, rest, longer, start)
  {
    hide SnapshotTried;
    forall snap | Undeleted(before, id, snap) && snap !in rest
      ensures SnapshotTried(longer, start, snap, before.snapshots[snap].image)
    {
      StillTried(h, longer, start, start, snap, before.snapshots[snap].image);
    }
  }

  // ---------------------------------------------------------------------------
  // The billing clock

  datatype Billing = Current | PastDue | Paused | Canceled

  /** A row of subscriptions. */
  datatype Subscription = Subscription(status: Billing, updatedAt: nat)

  /** What cannot be read or written during one pass of the enforcer: subscriptions whose
      instances cannot be listed, instances whose provider is unknown or whose snapshots
      cannot be listed, subscriptions whose update fails. */
  datatype Outages = Outages(unlisted: set<nat>, unknown: set<InstanceId>, unstored: set<nat>)

  const DAY: nat := 24 * 60 * 60
  const SUSPEND_GRACE: nat := 7 * DAY
  const SNAPSHOT_RETENTION: nat := 30 * DAY

  predicate DueForSuspension(sub: Subscription, now: nat) {
    sub.status == PastDue && sub.updatedAt + SUSPEND_GRACE < now
  }

  predicate DueForTermination(sub: Subscription, now: nat) {
    sub.status == Paused && sub.updatedAt + SNAPSHOT_RETENTION < now
  }

  function ExpiredFor(subs: map<nat, Subscription>, now: nat): set<nat> {
    set sub | sub in subs && DueForTermination(subs[sub], now)
  }

  function PastDueFor(subs: map<nat, Subscription>, now: nat): set<nat> {
    set sub | sub in subs && DueForSuspension(subs[sub], now)
  }

  class Enforcer {
    const w: Stores
    const owner: map<InstanceId, nat>   // the subscription_id column of vps_instances
    var subs: map<nat, Subscription>

    constructor (stores: Stores, owners: map<InstanceId, nat>, subscriptions: map<nat, Subscription>)
      ensures w == stores && owner == owners && subs == subscriptions
    {
      w, owner, subs := stores, owners, subscriptions;
    }

    /** A subscription among these owns the instance. */
    predicate Owned(id: InstanceId, due: set<nat>) {
      id in owner && owner[id] in due
    }

    /** What a pass over the subscriptions in `due` may have done so far. */
    predicate OnlyDue(before: State, after: State, due: set<nat>) {
      && after.rows.Keys == before.rows.Keys
      && (forall id :: id in before.rows ==>
            Faded(before.rows[id], after.rows[id])
            && (after.rows[id] == before.rows[id] || (before.rows[id].status == Active && Owned(id, due))))
      && (forall server :: server in after.servers ==>
            server in before.servers && after.servers[server] == before.servers[server])
      && (forall server :: server in before.servers && server !in after.servers ==>
            exists id :: id in before.rows && before.rows[id].status == Active
                         && before.rows[id].serverId == Some(server) && Owned(id, due))
      && Kept(before, after)
    }

    /** No snapshot and no image has changed or gone. */
    static predicate Kept(before: State, after: State) {
      && (forall snap :: snap in before.snapshots ==>
            snap in after.snapshots && after.snapshots[snap] == before.snapshots[snap])
      && (forall img :: img in before.images ==> img in after.images && after.images[img] == before.images[img])
    }

    /** The instance is suspended, and the disk of its server is in the image of a ready
        system snapshot. */
    ghost predicate DealtRow(before: State, after: State, id: InstanceId, unknown: set<InstanceId>, now: nat)
      requires id in before.rows && id in after.rows
    {
      && SuspendedRow(before.rows[id], after.rows[id], id !in unknown)
      && (before.rows[id].serverId.Some? && id !in unknown ==>
            Stored(before, after, id, before.rows[id].serverId.value, now))
    }

    /** Its server has been the subject of a whole suspension, whatever failed in it. */
    ghost predicate Subject(before: State, run: seq<Step>, id: InstanceId, server: ServerId, now: nat) {
      exists p: Plan, i, j ::
        && 0 <= i <= j <= |run| && p.id == id && p.server == server && p.now == now
        && WholeSuspension(p, StateAfter(before, run[..i]), run[i..j])
    }

    predicate HasServer(st: State, id: InstanceId) {
      id in st.rows && st.rows[id].status == Active && st.rows[id].serverId.Some?
    }

    lemma SubjectStays(before: State, run: seq<Step>, longer: seq<Step>, id: InstanceId, server: ServerId, now: nat)
      requires run <= longer && Subject(before, run, id, server, now)
      ensures Subject(before, longer, id, server, now)
    {
      hide WholeSuspension, StateAfter;
      var p: Plan, i, j :|
        && 0 <= i <= j <= |run| && p.id == id && p.server == server && p.now == now
        && WholeSuspension(p, StateAfter(before, run[..i]), run[i..j]);
      assert run[..i] == longer[..i] && run[i..j] == longer[i..j];
    }

    lemma SubjectNow(before: State, run: seq<Step>, p: Plan, steps: seq<Step>)
      requires WholeSuspension(p, StateAfter(before, run), steps)
      ensures Subject(before, run + steps, p.id, p.server, p.now)
    {
      var longer := run + steps;
      assert longer[..|run|] == run && longer[|run|..|longer|] == steps;
    }

    /** One instance less to go. */
    lemma SubjectsLess(before: State, run: seq<Step>, longer: seq<Step>, sub: nat, rest: set<InstanceId>,
                       unknown: set<InstanceId>, id: InstanceId, now: nat)
      requires run <= longer && Subjects(before, run, {sub}, unknown + rest, now)
      requires id !in unknown && HasServer(before, id) ==>
                 Subject(before, longer, id, before.rows[id].serverId.value, now)
      ensures Subjects(before, longer, {sub}, unknown + (rest - {id}), now)
    {
      hide Subject;
      forall other | Owned(other, {sub}) && other !in unknown + (rest - {id}) && HasServer(before, other)
        ensures Subject(before, longer, other, before.rows[other].serverId.value, now)
      {
        if other != id {
          SubjectStays(before, run, longer, other, before.rows[other].serverId.value, now);
        }
      }
    }

    /** One subscription more. */
    lemma SubjectsGrow(before: State, run: seq<Step>, longer: seq<Step>, owners: set<nat>, sub: nat,
                       unknown: set<InstanceId>, now: nat)
      requires run <= longer && Subjects(before, run, owners, unknown, now)
      requires Subjects(before, longer, {sub}, unknown, now)
      ensures Subjects(before, longer, owners + {sub}, unknown, now)
    {
      hide Subject;
      forall id | Owned(id, owners + {sub}) && id !in unknown && HasServer(before, id)
        ensures Subject(before, longer, id, before.rows[id].serverId.value, now)
      {
        if Owned(id, owners) {
          SubjectStays(before, run, longer, id, before.rows[id].serverId.value, now);
        }
      }
    }

    lemma StateAfterMore(before: State, run: seq<Step>, steps: seq<Step>)
      ensures StateAfter(before, run + steps) == StateAfter(StateAfter(before, run), steps)
    {
    }

    /** So have those of all active instances that these subscriptions own, but for the ones
        without a server or without a known provider. */
    ghost predicate Subjects(before: State, run: seq<Step>, owners: set<nat>, but: set<InstanceId>, now: nat) {
      forall id :: Owned(id, owners) && id !in but && HasServer(before, id) ==>
        Subject(before, run, id, before.rows[id].serverId.value, now)
    }

    /** The instance has been dealt with. */
    ghost predicate Dealt(before: State, after: State, id: InstanceId, unknown: set<InstanceId>, now: nat) {
      id in before.rows && id in after.rows && before.rows[id].status == Active ==>
        DealtRow(before, after, id, unknown, now)
    }

    /** suspendPastDue.  Only active instances of subscriptions that have been past due for
        more than seven days are touched, and only their servers are deleted; and unless
        something fails every one of them is suspended, and its subscription too. */
    method SuspendPastDue(now: nat, outages: Outages)
      modifies this, w
      ensures old(w.history) <= w.history
      ensures subs.Keys == old(subs).Keys
      ensures forall sub :: sub in PastDueFor(old(subs), now) <==>
                sub in subs && old(subs)[sub].status == PastDue && old(subs)[sub].updatedAt + 7 * 86400 < now
      ensures forall sub :: sub in subs ==>
                subs[sub] == if sub in PastDueFor(old(subs), now) - outages.unlisted - outages.unstored
                             then Subscription(Paused, now) else old(subs)[sub]
      ensures OnlyDue(old(w.st), w.st, PastDueFor(old(subs), now))
      ensures var served := PastDueFor(old(subs), now) - outages.unlisted;
        && Subjects(old(w.st), w.history[|old(w.history)|..], served, outages.unknown, now)
        && (Smooth(w.history, |old(w.history)|) ==> AllDealt(old(w.st), w.st, outages.unknown, served, now))
    {
      ghost var before, subsBefore, start := w.st, subs, |w.history|;
      var due := PastDueFor(subs, now);
      var rest := due;
      ghost var done: set<nat> := {};
      assert Smooth(w.history, start) && OnlyDue(before, w.st, due) && RowsIntact(before, w.st, due);
      assert Paid(subsBefore, subs, {}, outages.unstored, now);
      assert Subjects(before, w.history[start..], {}, outages.unknown, now);
      hide OnlyDue, AllDealt, Smooth, RowsIntact, OnlyOwned, Paid, Subjects, StateAfter;
      while rest != {}
        invariant rest <= due && done == due - rest - outages.unlisted
        invariant old(w.history) <= w.history
        invariant Paid(subsBefore, subs, done, outages.unstored, now)
        invariant OnlyDue(before, w.st, due) && RowsIntact(before, w.st, rest)
        invariant start <= |w.history| && w.st == StateAfter(before, w.history[start..])
        invariant Subjects(before, w.history[start..], done, outages.unknown, now)
        invariant Smooth(w.history, start) ==> AllDealt(before, w.st, outages.unknown, done, now)
        decreases rest
      {
        var sub :| sub in rest;
        ghost var h := w.history;
        if sub !in outages.unlisted {
          ServeOne(sub, now, outages.unknown, before, due, rest, done, start);
          SmoothParts(h, w.history, start);
          Pay(sub, outages.unstored, now, subsBefore, done);
          done := done + {sub};
        } else {
          NothingOwned(w.st, sub);
          IntactLess(before, w.st, w.st, rest, sub);
        }
        Taken(due, rest, outages.unlisted, sub);
        rest := rest - {sub};
      }
      AllPaid(subsBefore, subs, done, outages, now);
    }

    /** The instances of one subscription. */
    method ServeOne(sub: nat, now: nat, unknown: set<InstanceId>, ghost before: State, ghost due: set<nat>,
                    ghost rest: set<nat>, ghost done: set<nat>, ghost base: nat)
      requires sub in rest && rest <= due && OnlyDue(before, w.st, due) && RowsIntact(before, w.st, rest)
      requires base <= |w.history| && w.st == StateAfter(before, w.history[base..])
      requires Subjects(before, w.history[base..], done, unknown, now)
      modifies w
      ensures old(w.history) <= w.history && w.st == StateAfter(before, w.history[base..])
      ensures OnlyDue(before, w.st, due) && RowsIntact(before, w.st, rest - {sub})
      ensures Subjects(before, w.history[base..], done + {sub}, unknown, now)
      ensures Smooth(w.history, |old(w.history)|) && AllDealt(before, old(w.st), unknown, done, now) ==>
                AllDealt(before, w.st, unknown, done + {sub}, now)
    {
      ghost var h, st := w.history, w.st;
      hide OnlyDue, AllDealt, Smooth, RowsIntact, OnlyOwned, Subjects, Kept, StateAfter;
      IntactPart(before, st, rest, sub);
      SuspendAll(sub, now, unknown, before, due, base);
      assert h[base..] <= w.history[base..];
      SubjectsGrow(before, h[base..], w.history[base..], done, sub, unknown, now);
      if Smooth(w.history, |h|) && AllDealt(before, st, unknown, done, now) {
        DealtGrows(before, st, w.st, unknown, done, sub, now);
      }
      IntactLess(before, st, w.st, rest, sub);
    }

    /** UpdateSubscriptionStatus. */
    method Pay(sub: nat, unstored: set<nat>, now: nat, ghost before: map<nat, Subscription>, ghost done: set<nat>)
      requires Paid(before, subs, done, unstored, now) && sub in before && sub !in done
      modifies this`subs
      ensures Paid(before, subs, done + {sub}, unstored, now)
    {
      if sub !in unstored {
        subs := subs[sub := Subscription(Paused, now)];
      }
    }

    /** The subscriptions that have been dealt with are suspended. */
    predicate Paid(before: map<nat, Subscription>, after: map<nat, Subscription>, done: set<nat>, unstored: set<nat>,
                   now: nat) {
      && after.Keys == before.Keys
      && forall sub :: sub in before ==>
           after[sub] == if sub in done && sub !in unstored then Subscription(Paused, now) else before[sub]
    }

    lemma AllPaid(before: map<nat, Subscription>, after: map<nat, Subscription>, served: set<nat>,
                  outages: Outages, now: nat)
      requires Paid(before, after, served, outages.unstored, now)
      requires served == PastDueFor(before, now) - outages.unlisted
      ensures after.Keys == before.Keys
      ensures forall sub :: sub in after ==>
                after[sub] == if sub in PastDueFor(before, now) - outages.unlisted - outages.unstored
                              then Subscription(Paused, now) else before[sub]
    {
    }

    /** Every instance that these subscriptions own has been dealt with. */
    ghost predicate AllDealt(before: State, after: State, unknown: set<InstanceId>, owners: set<nat>, now: nat) {
      forall id :: Owned(id, owners) ==> Dealt(before, after, id, unknown, now)
    }

    /** The rows of the instances these subscriptions own are as before. */
    predicate RowsIntact(before: State, after: State, owners: set<nat>) {
      forall id :: id in before.rows && Owned(id, owners) ==> id in after.rows && after.rows[id] == before.rows[id]
    }

    /** Only rows of one subscription's instances have changed. */
    predicate OnlyOwned(before: State, after: State, sub: nat) {
      && after.rows.Keys == before.rows.Keys
      && forall id :: id in before.rows && !Owned(id, {sub}) ==> after.rows[id] == before.rows[id]
    }

    lemma NothingOwned(st: State, sub: nat)
      ensures OnlyOwned(st, st, sub)
    {
    }

    lemma IntactPart(before: State, after: State, owners: set<nat>, sub: nat)
      requires RowsIntact(before, after, owners) && sub in owners
      ensures RowsIntact(before, after, {sub})
    {
    }

    lemma IntactLess(before: State, st: State, after: State, owners: set<nat>, sub: nat)
      requires RowsIntact(before, st, owners) && OnlyOwned(st, after, sub)
      ensures RowsIntact(before, after, owners - {sub})
    {
    }

    lemma DealtGrows(before: State, st: State, after: State, unknown: set<InstanceId>, owners: set<nat>, sub: nat,
                     now: nat)
      requires AllDealt(before, st, unknown, owners, now) && OnlyOwned(st, after, sub) && Kept(st, after)
      requires AllDealt(before, after, unknown, {sub}, now)
      ensures AllDealt(before, after, unknown, owners + {sub}, now)
    {
      forall id | Owned(id, owners + {sub}) ensures Dealt(before, after, id, unknown, now) {
        if owner[id] != sub {
          assert Owned(id, owners) && Dealt(before, st, id, unknown, now);
          StaysDealt(before, st, after, id, unknown, now);
        }
      }
    }

    lemma StaysDealt(before: State, st: State, after: State, id: InstanceId, unknown: set<InstanceId>, now: nat)
      requires Dealt(before, st, id, unknown, now) && Kept(st, after) && after.rows.Keys == st.rows.Keys
      requires id in st.rows ==> after.rows[id] == st.rows[id]
      ensures Dealt(before, after, id, unknown, now)
    {
      if HasServer(before, id) && id !in unknown && Dealt(before, st, id, unknown, now) && id in st.rows {
        var server := before.rows[id].serverId.value;
        var snap, img :| StoredAs(before, st, id, server, now, snap, img);
        assert StoredAs(before, after, id, server, now, snap, img);
      }
    }

    lemma StoredSince(before: State, st: State, after: State, id: InstanceId, server: ServerId, due: set<nat>, now: nat)
      requires OnlyDue(before, st, due) && Stored(st, after, id, server, now)
      ensures Stored(before, after, id, server, now)
    {
      var snap, img :| StoredAs(st, after, id, server, now, snap, img);
      assert StoredAs(before, after, id, server, now, snap, img);
    }

    /** The inner loop, over copies of the rows read before it starts. */
    method SuspendAll(sub: nat, now: nat, unknown: set<InstanceId>, ghost before: State, ghost due: set<nat>,
                      ghost base: nat)
      requires sub in due && OnlyDue(before, w.st, due) && RowsIntact(before, w.st, {sub})
      requires base <= |w.history| && w.st == StateAfter(before, w.history[base..])
      modifies w
      ensures old(w.history) <= w.history && w.st == StateAfter(before, w.history[base..])
      ensures OnlyDue(before, w.st, due) && OnlyOwned(old(w.st), w.st, sub) && Kept(old(w.st), w.st)
      ensures Subjects(before, w.history[base..], {sub}, unknown, now)
      ensures Smooth(w.history, |old(w.history)|) ==> AllDealt(before, w.st, unknown, {sub}, now)
    {
      ghost var start, st0 := |w.history|, w.st;
      var copies := w.st.rows;
      var rest := set id | id in owner && owner[id] == sub && id in copies;
      NothingYet(before, copies, st0, rest, sub, unknown, due, w.history[base..], now);
      assert Smooth(w.history, start);
      hide OnlyDue, Smooth, DealtBut, Subjects, StateAfter, AsCopied, Kept, AllDealt, RowsIntact, Owned, OnlyOwned;
      while rest != {}
        invariant OnlyDue(before, w.st, due) && AsCopied(before, copies, w.st, rest, sub)
        invariant start <= |w.history| && old(w.history) <= w.history
        invariant w.st == StateAfter(before, w.history[base..]) && Kept(st0, w.st)
        invariant Subjects(before, w.history[base..], {sub}, unknown + rest, now)
        invariant Smooth(w.history, start) ==> DealtBut(before, w.st, rest, sub, unknown, now)
        decreases rest
      {
        var id :| id in rest;
        ghost var h, st := w.history, w.st;
        SuspendOne(sub, id, copies, now, unknown, before, due, rest, base);
        KeptChain(st0, st, w.st);
        SmoothParts(h, w.history, start);
        rest := rest - {id};
      }
      assert unknown + {} == unknown;
      NothingLeft(before, copies, st0, w.st, sub, unknown, now);
    }

    lemma NothingYet(before: State, copies: map<InstanceId, Instance>, st: State, rest: set<InstanceId>, sub: nat,
                     unknown: set<InstanceId>, due: set<nat>, run: seq<Step>, now: nat)
      requires OnlyDue(before, st, due) && RowsIntact(before, st, {sub}) && copies == st.rows
      requires rest == set id | id in owner && owner[id] == sub && id in copies
      ensures AsCopied(before, copies, st, rest, sub) && DealtBut(before, st, rest, sub, unknown, now)
      ensures Kept(st, st) && Subjects(before, run, {sub}, unknown + rest, now)
    {
      OnlyDueKeys(before, st, due);
      hide OnlyDue, DealtRow, Subject;
    }

    lemma NothingLeft(before: State, copies: map<InstanceId, Instance>, st: State, after: State, sub: nat,
                      unknown: set<InstanceId>, now: nat)
      requires AsCopied(before, copies, after, {}, sub) && copies == st.rows
      ensures OnlyOwned(st, after, sub)
      ensures DealtBut(before, after, {}, sub, unknown, now) ==> AllDealt(before, after, unknown, {sub}, now)
    {
      hide Dealt;
    }

    static lemma KeptChain(a: State, b: State, c: State)
      requires Kept(a, b) && Kept(b, c)
      ensures Kept(a, c)
    {
    }

    /** One turn of the inner loop. */
    method SuspendOne(ghost sub: nat, id: InstanceId, copies: map<InstanceId, Instance>, now: nat,
                      unknown: set<InstanceId>, ghost before: State, ghost due: set<nat>, ghost rest: set<InstanceId>,
                      ghost base: nat)
      requires base <= |w.history| && w.st == StateAfter(before, w.history[base..])
      requires Subjects(before, w.history[base..], {sub}, unknown + rest, now)
      requires sub in due && OnlyDue(before, w.st, due) && id in rest && AsCopied(before, copies, w.st, rest, sub)
      modifies w
      ensures old(w.history) <= w.history
      ensures OnlyDue(before, w.st, due) && AsCopied(before, copies, w.st, rest - {id}, sub)
      ensures w.st == StateAfter(before, w.history[base..]) && Kept(old(w.st), w.st)
      ensures Subjects(before, w.history[base..], {sub}, unknown + (rest - {id}), now)
      ensures Smooth(w.history, |old(w.history)|) && DealtBut(before, old(w.st), rest, sub, unknown, now) ==>
                DealtBut(before, w.st, rest - {id}, sub, unknown, now)
    {
      ghost var st, run := w.st, w.history[base..];
      hide OnlyDue, Dealt, DealtRow, Smooth, DealtBut, Subjects, Subject, StateAfter;
      if copies[id].status == Active {
        SuspendActive(id, copies[id], now, unknown, before, due, base);
        CopiedLess(before, copies, st, w.st, rest, sub, id, if id !in unknown then copies[id].serverId else None);
        RowsOf(st, w.st, id, if id !in unknown then copies[id].serverId else None);
      } else {
        CopiedLess(before, copies, st, w.st, rest, sub, id, None);
      }
      hide AsCopied, OnlyRow, Kept;
      SubjectsLess(before, run, w.history[base..], sub, rest, unknown, id, now);
      if Smooth(w.history, |old(w.history)|) && DealtBut(before, st, rest, sub, unknown, now) {
        OneMoreDealt(before, st, w.st, rest, sub, id, unknown, now);
      }
    }

    /** The suspension of one active instance. */
    method SuspendActive(id: InstanceId, inst: Instance, now: nat, unknown: set<InstanceId>,
                         ghost before: State, ghost due: set<nat>, ghost base: nat)
      requires base <= |w.history| && w.st == StateAfter(before, w.history[base..])
      requires OnlyDue(before, w.st, due) && Owned(id, due) && inst.status == Active
      requires id in before.rows && id in w.st.rows && inst == before.rows[id] == w.st.rows[id]
      modifies w
      ensures old(w.history) <= w.history && w.st == StateAfter(before, w.history[base..])
      ensures OnlyDue(before, w.st, due)
      ensures OnlyRow(old(w.st), w.st, id, if id !in unknown then inst.serverId else None)
      ensures inst.serverId.Some? && id !in unknown ==>
                Subject(before, w.history[base..], id, inst.serverId.value, now)
      ensures Smooth(w.history, |old(w.history)|) ==> id in w.st.rows && DealtRow(before, w.st, id, unknown, now)
    {
      ghost var st, run := w.st, w.history[base..];
      hide OnlyDue, SuspendedRow, Smooth, Subject, Stored, StateAfter, WholeSuspension;
      ghost var p, steps := SuspendInstance(w, id, inst, id !in unknown, now);
      assert w.history[base..] == run + steps;
      StateAfterMore(before, run, steps);
      SuspensionIsDue(before, st, w.st, id, due, if id !in unknown then inst.serverId else None);
      hide OnlyRow;
      if inst.serverId.Some? && id !in unknown {
        SubjectNow(before, run, p, steps);
        if Stored(st, w.st, id, inst.serverId.value, now) {
          StoredSince(before, st, w.st, id, inst.serverId.value, due, now);
        }
      }
    }

    lemma RowsOf(st: State, after: State, id: InstanceId, server: Option<ServerId>)
      requires OnlyRow(st, after, id, server)
      ensures after.rows.Keys == st.rows.Keys && Kept(st, after)
      ensures forall other :: other in st.rows && other != id ==> after.rows[other] == st.rows[other]
    {
    }

    lemma CopiedLess(before: State, copies: map<InstanceId, Instance>, st: State, after: State,
                     rest: set<InstanceId>, sub: nat, id: InstanceId, server: Option<ServerId>)
      requires AsCopied(before, copies, st, rest, sub) && id in rest
      requires after == st || OnlyRow(st, after, id, server)
      ensures AsCopied(before, copies, after, rest - {id}, sub)
    {
    }

    /** The rows that have not been dealt with are still as they were read. */
    predicate AsCopied(before: State, copies: map<InstanceId, Instance>, st: State, rest: set<InstanceId>, sub: nat) {
      && st.rows.Keys == copies.Keys == before.rows.Keys
      && (forall id :: id in rest ==> Owned(id, {sub}) && id in copies && copies[id] == before.rows[id])
      && (forall id :: id in copies && (id in rest || !Owned(id, {sub})) ==> st.rows[id] == copies[id])
    }

    /** Every instance of the subscription has been dealt with, but for the rest. */
    ghost predicate DealtBut(before: State, st: State, rest: set<InstanceId>, sub: nat, unknown: set<InstanceId>,
                             now: nat) {
      forall id :: Owned(id, {sub}) && id !in rest ==> Dealt(before, st, id, unknown, now)
    }

    lemma OneMoreDealt(before: State, st: State, after: State, rest: set<InstanceId>, sub: nat, id: InstanceId,
                       unknown: set<InstanceId>, now: nat)
      requires DealtBut(before, st, rest, sub, unknown, now) && Kept(st, after)
      requires after.rows.Keys == st.rows.Keys == before.rows.Keys
      requires forall other :: other in st.rows && other != id ==> after.rows[other] == st.rows[other]
      requires id in before.rows && before.rows[id].status == Active ==>
                 DealtRow(before, after, id, unknown, now)
      ensures DealtBut(before, after, rest - {id}, sub, unknown, now)
    {
      forall other | Owned(other, {sub}) && other !in rest - {id} ensures Dealt(before, after, other, unknown, now) {
        if other != id {
          assert Dealt(before, st, other, unknown, now);
          StaysDealt(before, st, after, other, unknown, now);
        }
      }
    }

    lemma OnlyDueKeys(before: State, after: State, due: set<nat>)
      requires OnlyDue(before, after, due)
      ensures after.rows.Keys == before.rows.Keys
    {
    }

    lemma SuspensionIsDue(before: State, st: State, after: State, id: InstanceId, due: set<nat>,
                          server: Option<ServerId>)
      requires OnlyDue(before, st, due) && OnlyRow(st, after, id, server)
      requires id in before.rows && before.rows[id].status == Active && Owned(id, due)
      requires st.rows[id] == before.rows[id] && server in {None, before.rows[id].serverId}
      ensures OnlyDue(before, after, due)
    {
    }

    /** What ending the subscriptions in `due` may have done so far. */
    ghost predicate OnlyExpired(before: State, after: State, due: set<nat>) {
      && after.rows.Keys == before.rows.Keys && after.servers == before.servers
      && after.snapshots.Keys == before.snapshots.Keys
      && (forall id :: id in before.rows && !Owned(id, due) ==> after.rows[id] == before.rows[id])
      && (forall snap :: snap in before.snapshots ==>
            && after.snapshots[snap].instance == before.snapshots[snap].instance
            && after.snapshots[snap].image == before.snapshots[snap].image
            && (!Owned(before.snapshots[snap].instance, due) ==>
                  after.snapshots[snap] == before.snapshots[snap]))
      && (forall img :: img in before.images ==>
            (img in after.images && after.images[img] == before.images[img])
            || DueImage(before, img, due))
      && (forall img :: img in after.images ==> img in before.images)
    }

    /** Nothing of the instance is left: its row is terminated, its snapshots are deleted. */
    ghost predicate Ended(before: State, after: State, id: InstanceId, unknown: set<InstanceId>) {
      id in before.rows && before.rows[id].status !in {Terminated, Terminating} ==>
        && id in after.rows && after.rows[id].status == Terminated
        && (id !in unknown ==> forall snap :: Undeleted(before, id, snap) ==> Cleared(after, snap))
    }

    /** terminateSuspended.  An image goes only if it belongs to a snapshot of an instance
        whose subscription has been suspended for more than thirty days; and unless
        something fails every such instance is ended. */
    method TerminateSuspended(now: nat, outages: Outages)
      modifies w
      ensures old(w.history) <= w.history
      ensures forall sub :: sub in ExpiredFor(subs, now) <==>
                sub in subs && subs[sub].status == Paused && subs[sub].updatedAt + 30 * 86400 < now
      ensures OnlyExpired(old(w.st), w.st, ExpiredFor(subs, now))
      ensures AllTried(old(w.st), w.history, |old(w.history)|, ExpiredFor(subs, now) - outages.unlisted,
                       outages.unknown)
      ensures Smooth(w.history, |old(w.history)|) ==>
                AllEnded(old(w.st), w.st, outages.unknown, ExpiredFor(subs, now) - outages.unlisted)
    {
      ghost var before, start := w.st, |w.history|;
      var due := ExpiredFor(subs, now);
      var rest := due;
      ghost var done: set<nat> := {};
      assert Smooth(w.history, start) && OnlyExpired(before, w.st, due) && Intact(before, w.st, due);
      assert AllTried(before, w.history, start, {}, outages.unknown);
      hide OnlyExpired, AllEnded, Smooth, Intact, OnlyTheirs, AllTried;
      while rest != {}
        invariant rest <= due && done == due - rest - outages.unlisted
        invariant start <= |w.history| && old(w.history) <= w.history
        invariant OnlyExpired(before, w.st, due) && Intact(before, w.st, rest)
        invariant AllTried(before, w.history, start, done, outages.unknown)
        invariant Smooth(w.history, start) ==> AllEnded(before, w.st, outages.unknown, done)
        decreases rest
      {
        var sub :| sub in rest;
        ghost var h, st := w.history, w.st;
        if sub !in outages.unlisted {
          SomeIntact(before, st, rest, sub);
          TerminateAll(sub, outages.unknown, before, due);
          SmoothParts(h, w.history, start);
          if Smooth(w.history, start) {
            EndedGrows(before, st, w.st, outages.unknown, due, done, sub);
          }
          TriedGrows(before, h, w.history, start, done, sub, outages.unknown);
          done := done + {sub};
        } else {
          NothingTheirs(st, sub);
        }
        LessIntact(before, st, w.st, rest, sub);
        Taken(due, rest, outages.unlisted, sub);
        rest := rest - {sub};
      }
      assert done == due - outages.unlisted;
    }

    ghost predicate AllEnded(before: State, after: State, unknown: set<InstanceId>, owners: set<nat>) {
      forall id :: Owned(id, owners) ==> Ended(before, after, id, unknown)
    }

    /** The rows and snapshots of the instances these subscriptions own are as before. */
    predicate Intact(before: State, after: State, owners: set<nat>) {
      && RowsIntact(before, after, owners)
      && (forall snap :: snap in before.snapshots && Owned(before.snapshots[snap].instance, owners) ==>
            snap in after.snapshots && after.snapshots[snap] == before.snapshots[snap])
    }

    /** Only rows and snapshots of one subscription's instances have changed, and images
        have gone. */
    predicate OnlyTheirs(before: State, after: State, sub: nat) {
      && OnlyOwned(before, after, sub)
      && (forall snap :: snap in before.snapshots ==>
            && snap in after.snapshots
            && after.snapshots[snap].instance == before.snapshots[snap].instance
            && (!Owned(before.snapshots[snap].instance, {sub}) ==> after.snapshots[snap] == before.snapshots[snap]))
      && (forall img :: img in after.images ==> img in before.images)
    }

    lemma NothingTheirs(st: State, sub: nat)
      ensures OnlyTheirs(st, st, sub)
    {
    }

    lemma SomeIntact(before: State, after: State, owners: set<nat>, sub: nat)
      requires Intact(before, after, owners) && sub in owners
      ensures Intact(before, after, {sub})
    {
    }

    lemma LessIntact(before: State, st: State, after: State, owners: set<nat>, sub: nat)
      requires Intact(before, st, owners) && OnlyTheirs(st, after, sub)
      ensures Intact(before, after, owners - {sub})
    {
    }

    lemma EndedGrows(before: State, st: State, after: State, unknown: set<InstanceId>, due: set<nat>,
                     owners: set<nat>, sub: nat)
      requires AllEnded(before, st, unknown, owners) && OnlyTheirs(st, after, sub)
      requires AllEnded(before, after, unknown, {sub}) && OnlyExpired(before, st, due)
      ensures AllEnded(before, after, unknown, owners + {sub})
    {
      forall id | Owned(id, owners + {sub}) ensures Ended(before, after, id, unknown) {
        if owner[id] != sub {
          assert Owned(id, owners);
          assert Ended(before, st, id, unknown);
        }
      }
    }

    /** The inner loop, over the instances that are not terminated yet. */
    method TerminateAll(sub: nat, unknown: set<InstanceId>, ghost before: State, ghost due: set<nat>)
      requires sub in due && OnlyExpired(before, w.st, due) && Intact(before, w.st, {sub})
      modifies w
      ensures old(w.history) <= w.history
      ensures OnlyExpired(before, w.st, due) && OnlyTheirs(old(w.st), w.st, sub)
      ensures Smooth(w.history, |old(w.history)|) ==> AllEnded(before, w.st, unknown, {sub})
      ensures AllTried(before, w.history, |old(w.history)|, {sub}, unknown)
    {
      ghost var start, st0 := |w.history|, w.st;
      var instances := Listed(w.st, sub);
      var rest := instances;
      assert Smooth(w.history, start);
      hide Smooth, OnlyTheirs, OnlyExpired, OnlyOneEnded, SnapshotsIntact, Undeleted, Cleared, Listed, AllEnded, Intact;
      NothingTheirs(st0, sub);
      NobodyEnded(before, st0, unknown, w.history, start);
      hide EndedIn, Ended, TriedIn, Tried, AllTried, Called, SnapshotTried;
      ListedIntact(before, st0, sub);
      while rest != {}
        invariant rest <= instances
        invariant start <= |w.history| && old(w.history) <= w.history
        invariant OnlyExpired(before, w.st, due) && OnlyTheirs(st0, w.st, sub)
        invariant SnapshotsIntact(before, w.st, rest)
        invariant Smooth(w.history, start) ==> EndedIn(before, w.st, instances - rest - {}, unknown)
        invariant TriedIn(before, w.history, start, instances - rest - {}, unknown)
        decreases rest
      {
        var id :| id in rest;
        ghost var h, st, done := w.history, w.st, instances - rest - {};
        TerminateOne(id, id !in unknown, before, due);
        SmoothParts(h, w.history, start);
        TheirsToo(st0, st, w.st, id, sub);
        if Smooth(w.history, start) {
          OneMoreEnded(before, st, w.st, done, rest, id, unknown, due);
        }
        InstanceTried(before, st, h, w.history, start, done, rest, id, unknown);
        FewerIntact(before, st, w.st, rest, id);
        Taken(instances, rest, {}, id);
        rest := rest - {id};
      }
      if Smooth(w.history, start) {
        ListedIsAll(before, st0, w.st, sub, unknown);
      }
      TriedIsAll(before, st0, w.history, start, sub, unknown);
    }

    /** Every call that ends the instance has been made, whatever failed. */
    ghost predicate Tried(before: State, h: seq<Step>, start: nat, id: InstanceId, unknown: set<InstanceId>) {
      id in before.rows && before.rows[id].status !in {Terminated, Terminating} ==>
        && Called(h, start, SetStatus(id, Terminated))
        && (id !in unknown ==>
              forall snap :: Undeleted(before, id, snap) ==>
                SnapshotTried(h, start, snap, before.snapshots[snap].image))
    }

    ghost predicate TriedIn(before: State, h: seq<Step>, start: nat, ids: set<InstanceId>, unknown: set<InstanceId>) {
      forall id :: id in ids ==> Tried(before, h, start, id, unknown)
    }

    ghost predicate AllTried(before: State, h: seq<Step>, start: nat, owners: set<nat>, unknown: set<InstanceId>) {
      forall id :: Owned(id, owners) ==> Tried(before, h, start, id, unknown)
    }

    lemma TriedLater(before: State, h: seq<Step>, longer: seq<Step>, start: nat, later: nat, id: InstanceId,
                     unknown: set<InstanceId>)
      requires h <= longer && start <= later && Tried(before, h, later, id, unknown)
      ensures Tried(before, longer, start, id, unknown)
    {
      hide SnapshotTried, Called;
      if id in before.rows && before.rows[id].status !in {Terminated, Terminating} {
        StillCalled(h, longer, start, later, SetStatus(id, Terminated));
        forall snap | id !in unknown && Undeleted(before, id, snap)
          ensures SnapshotTried(longer, start, snap, before.snapshots[snap].image)
        {
          StillTried(h, longer, start, later, snap, before.snapshots[snap].image);
        }
      }
    }

    lemma InstanceTried(before: State, st: State, h: seq<Step>, longer: seq<Step>, start: nat, done: set<InstanceId>,
                       rest: set<InstanceId>, id: InstanceId, unknown: set<InstanceId>)
      requires h <= longer && start <= |h| && TriedIn(before, h, start, done, unknown)
      requires id in rest && SnapshotsIntact(before, st, rest)
      requires Called(longer, |h|, SetStatus(id, Terminated))
      requires id !in unknown ==>
                 forall snap :: Undeleted(st, id, snap) ==> SnapshotTried(longer, |h|, snap, st.snapshots[snap].image)
      ensures TriedIn(before, longer, start, done + {id}, unknown)
    {
      hide SnapshotTried, Called;
      forall other | other in done ensures Tried(before, longer, start, other, unknown) {
        TriedLater(before, h, longer, start, start, other, unknown);
      }
      forall snap | Undeleted(before, id, snap)
        ensures Undeleted(st, id, snap) && st.snapshots[snap] == before.snapshots[snap]
      {
      }
      assert Tried(before, longer, |h|, id, unknown);
      TriedLater(before, longer, longer, start, |h|, id, unknown);
    }

    lemma TriedGrows(before: State, h: seq<Step>, longer: seq<Step>, start: nat, owners: set<nat>, sub: nat,
                     unknown: set<InstanceId>)
      requires h <= longer && start <= |h| && AllTried(before, h, start, owners, unknown)
      requires AllTried(before, longer, |h|, {sub}, unknown)
      ensures AllTried(before, longer, start, owners + {sub}, unknown)
    {
      hide Tried;
      forall id | Owned(id, owners + {sub}) ensures Tried(before, longer, start, id, unknown) {
        if Owned(id, owners) {
          TriedLater(before, h, longer, start, start, id, unknown);
        } else {
          TriedLater(before, longer, longer, start, |h|, id, unknown);
        }
      }
    }

    ghost predicate EndedIn(before: State, after: State, ids: set<InstanceId>, unknown: set<InstanceId>) {
      forall id :: id in ids ==> Ended(before, after, id, unknown)
    }

    lemma NobodyEnded(before: State, after: State, unknown: set<InstanceId>, h: seq<Step>, start: nat)
      ensures EndedIn(before, after, {}, unknown) && TriedIn(before, h, start, {}, unknown)
    {
    }

    /** The instances of a subscription that are not terminated or about to be. */
    function Listed(st: State, sub: nat): set<InstanceId> {
      set id | id in owner && owner[id] == sub && id in st.rows && st.rows[id].status !in {Terminated, Terminating}
    }

    lemma ListedIntact(before: State, st: State, sub: nat)
      requires Intact(before, st, {sub})
      ensures SnapshotsIntact(before, st, Listed(st, sub))
      ensures forall id :: id in Listed(st, sub) ==> Owned(id, {sub})
    {
    }

    lemma ListedIsAll(before: State, st: State, after: State, sub: nat, unknown: set<InstanceId>)
      requires Intact(before, st, {sub})
      requires EndedIn(before, after, Listed(st, sub), unknown)
      ensures AllEnded(before, after, unknown, {sub})
    {
    }

    lemma TriedIsAll(before: State, st: State, h: seq<Step>, start: nat, sub: nat, unknown: set<InstanceId>)
      requires Intact(before, st, {sub})
      requires TriedIn(before, h, start, Listed(st, sub), unknown)
      ensures AllTried(before, h, start, {sub}, unknown)
    {
    }

    predicate SnapshotsIntact(before: State, after: State, ids: set<InstanceId>) {
      forall snap :: snap in before.snapshots && before.snapshots[snap].instance in ids ==>
        snap in after.snapshots && after.snapshots[snap] == before.snapshots[snap]
    }

    lemma FewerIntact(before: State, st: State, after: State, ids: set<InstanceId>, id: InstanceId)
      requires SnapshotsIntact(before, st, ids) && OnlyOneEnded(st, after, id)
      ensures SnapshotsIntact(before, after, ids - {id})
    {
    }

    lemma OneMoreEnded(before: State, st: State, after: State, done: set<InstanceId>, rest: set<InstanceId>,
                       id: InstanceId, unknown: set<InstanceId>, due: set<nat>)
      requires EndedIn(before, st, done, unknown)
      requires id in rest && done !! rest && SnapshotsIntact(before, st, rest)
      requires OnlyExpired(before, st, due) && OnlyOneEnded(st, after, id)
      requires id in after.rows ==> after.rows[id].status == Terminated
      requires id !in unknown ==> forall snap :: Undeleted(st, id, snap) ==> Cleared(after, snap)
      ensures EndedIn(before, after, done + {id}, unknown)
    {
      hide Ended, Undeleted, Cleared;
      forall other | other in done ensures Ended(before, after, other, unknown) {
        EndedStays(before, st, after, other, id, unknown, due);
      }
      RowsStay(before, st, after, id, due);
      JustEnded(before, st, after, id, unknown);
    }

    lemma RowsStay(before: State, st: State, after: State, id: InstanceId, due: set<nat>)
      requires OnlyExpired(before, st, due) && OnlyOneEnded(st, after, id)
      ensures id in before.rows ==> id in after.rows
      ensures forall snap :: snap in st.snapshots && st.snapshots[snap].instance != id ==>
                snap in after.snapshots && after.snapshots[snap] == st.snapshots[snap]
    {
    }

    lemma TheirsToo(st0: State, st: State, after: State, id: InstanceId, sub: nat)
      requires OnlyTheirs(st0, st, sub) && OnlyOneEnded(st, after, id) && Owned(id, {sub})
      ensures OnlyTheirs(st0, after, sub)
    {
    }

    lemma EndedStays(before: State, st: State, after: State, id: InstanceId, other: InstanceId,
                     unknown: set<InstanceId>, due: set<nat>)
      requires id != other && Ended(before, st, id, unknown) && OnlyOneEnded(st, after, other)
      requires OnlyExpired(before, st, due)
      ensures Ended(before, after, id, unknown)
    {
    }

    lemma JustEnded(before: State, st: State, after: State, id: InstanceId, unknown: set<InstanceId>)
      requires forall snap :: snap in before.snapshots && before.snapshots[snap].instance == id ==>
                 snap in st.snapshots && st.snapshots[snap] == before.snapshots[snap]
      requires id in after.rows ==> after.rows[id].status == Terminated
      requires id in before.rows ==> id in after.rows
      requires id !in unknown ==> forall snap :: Undeleted(st, id, snap) ==> Cleared(after, snap)
      ensures Ended(before, after, id, unknown)
    {
      assert forall snap :: Undeleted(before, id, snap) ==> Undeleted(st, id, snap);
    }

    /** One instance, its snapshots and their images. */
    predicate OnlyOneEnded(st: State, after: State, id: InstanceId) {
      && after.rows.Keys == st.rows.Keys
      && (forall other :: other in st.rows && other != id ==> after.rows[other] == st.rows[other])
      && (forall snap :: snap in st.snapshots ==>
            && snap in after.snapshots
            && after.snapshots[snap].instance == st.snapshots[snap].instance
            && (st.snapshots[snap].instance != id ==> after.snapshots[snap] == st.snapshots[snap]))
      && (forall img :: img in after.images ==> img in st.images)
    }

    method TerminateOne(id: InstanceId, listed: bool, ghost before: State, ghost due: set<nat>)
      requires Owned(id, due) && OnlyExpired(before, w.st, due)
      modifies w
      ensures old(w.history) <= w.history
      ensures OnlyExpired(before, w.st, due) && OnlyOneEnded(old(w.st), w.st, id)
      ensures Smooth(w.history, |old(w.history)|) ==>
                && (id in w.st.rows ==> w.st.rows[id].status == Terminated)
                && (listed ==> forall snap :: Undeleted(old(w.st), id, snap) ==> Cleared(w.st, snap))
      ensures Called(w.history, |old(w.history)|, SetStatus(id, Terminated))
      ensures listed ==> forall snap :: Undeleted(old(w.st), id, snap) ==>
                SnapshotTried(w.history, |old(w.history)|, snap, old(w.st).snapshots[snap].image)
    {
      ghost var start, st := |w.history|, w.st;
      assert Smooth(w.history, start);
      hide Smooth, OnlyItsSnapshots, OnlyExpired, SnapshotTried;
      DeleteAllSnapshots(w, id, listed);
      ghost var cleared, h := w.st, w.history;
      var marked := w.UpdateInstanceStatus(id, Terminated);
      assert w.history[|h|].call == SetStatus(id, Terminated);
      if listed {
        TriedStay(st, id, {}, h, w.history, start);
      }
      ExpiredToo(before, st, cleared, w.st, id, due);
    }

    lemma ExpiredToo(before: State, st: State, cleared: State, after: State, id: InstanceId, due: set<nat>)
      requires Owned(id, due) && OnlyExpired(before, st, due) && OnlyItsSnapshots(st, cleared, id)
      requires after == cleared || after == WithStatus(cleared, id, Terminated)
      ensures OnlyExpired(before, after, due) && OnlyOneEnded(st, after, id)
    {
      ClearedIsOne(st, cleared, after, id);
      forall img | img in before.images
        ensures (img in after.images && after.images[img] == before.images[img]) || DueImage(before, img, due)
      {
        GoneImage(before, st, cleared, img, id, due);
      }
      hide OnlyItsSnapshots, DueImage, WithStatus;
      OneEndedIsExpired(before, st, after, id, due);
    }

    lemma OneEndedIsExpired(before: State, st: State, after: State, id: InstanceId, due: set<nat>)
      requires Owned(id, due) && OnlyExpired(before, st, due) && OnlyOneEnded(st, after, id)
      requires forall snap :: snap in st.snapshots ==> after.snapshots[snap].image == st.snapshots[snap].image
      requires after.servers == st.servers && after.snapshots.Keys == st.snapshots.Keys
      requires forall img :: img in before.images ==>
                 (img in after.images && after.images[img] == before.images[img]) || DueImage(before, img, due)
      ensures OnlyExpired(before, after, due)
    {
      hide DueImage;
    }

    ghost predicate DueImage(before: State, img: ImageId, due: set<nat>) {
      exists snap :: snap in before.snapshots && before.snapshots[snap].image == Some(img)
                     && Owned(before.snapshots[snap].instance, due)
    }

    lemma ClearedIsOne(st: State, cleared: State, after: State, id: InstanceId)
      requires OnlyItsSnapshots(st, cleared, id)
      requires after == cleared || after == WithStatus(cleared, id, Terminated)
      ensures OnlyOneEnded(st, after, id)
      ensures forall snap :: snap in st.snapshots ==> after.snapshots[snap].image == st.snapshots[snap].image
      ensures after.servers == st.servers && after.snapshots.Keys == st.snapshots.Keys
    {
    }

    lemma GoneImage(before: State, st: State, cleared: State, img: ImageId, id: InstanceId, due: set<nat>)
      requires Owned(id, due) && OnlyExpired(before, st, due) && OnlyItsSnapshots(st, cleared, id)
      requires img in before.images
      ensures (img in cleared.images && cleared.images[img] == before.images[img]) || DueImage(before, img, due)
    {
      if img in st.images && img !in cleared.images {
        var snap :| snap in st.snapshots && st.snapshots[snap].instance == id && st.snapshots[snap].image == Some(img);
        assert snap in before.snapshots;
      }
    }
  }
}
