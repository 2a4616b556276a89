/** Where a customer's disk is, and which snapshot a resume would choose
    (GetSystemSnapshotByInstanceID in backend/internal/db/queries.go). */
module Custody {
  import opened Options
  import opened World

  /** The image holds this disk. */
  predicate ImageHolds(st: State, img: ImageId, disk: nat) {
    img in st.images && st.images[img].disk == disk
  }

  /** The server holds this disk. */
  predicate ServerHolds(st: State, server: ServerId, disk: nat) {
    server in st.servers && st.servers[server].disk == disk
  }

  /** The row names a server that was built from the image, holds the disk and was seen
      running. */
  predicate RowOnServerFrom(st: State, id: InstanceId, img: ImageId, disk: nat) {
    && id in st.rows && st.rows[id].serverId.Some?
    && var server := st.rows[id].serverId.value;
    && ServerHolds(st, server, disk)
    && st.servers[server].image == Some(img) && st.servers[server].seenRunning
  }

  /** A ready system snapshot of the instance. */
  predicate Candidate(st: State, id: InstanceId, snap: SnapshotId) {
    && snap in st.snapshots && st.snapshots[snap].instance == id
    && st.snapshots[snap].isSystem && st.snapshots[snap].status == Ready
  }

  ghost predicate Latest(st: State, id: InstanceId, snap: SnapshotId) {
    && Candidate(st, id, snap)
    && forall other :: Candidate(st, id, other) ==> st.snapshots[other].createdAt <= st.snapshots[snap].createdAt
  }

  /** Whatever the query picks, it is this snapshot. */
  ghost predicate Picks(st: State, id: InstanceId, snap: SnapshotId) {
    Latest(st, id, snap) && forall other :: Latest(st, id, other) ==> other == snap
  }

  /** GetSystemSnapshotByInstanceID. */
  method GetSystemSnapshot(st: State, id: InstanceId) returns (latest: Option<SnapshotId>)
    ensures latest.Some? ==> Latest(st, id, latest.value)
    ensures latest.None? ==> forall snap :: !Candidate(st, id, snap)
  {
    latest := None;
    var rest := st.snapshots.Keys;
    while rest != {}
      invariant rest <= st.snapshots.Keys
      invariant latest.Some? ==> Candidate(st, id, latest.value)
      invariant forall snap :: Candidate(st, id, snap) && snap !in rest ==>
                  latest.Some? && st.snapshots[snap].createdAt <= st.snapshots[latest.value].createdAt
      decreases rest
    {
      var snap :| snap in rest;
      rest := rest - {snap};
      if Candidate(st, id, snap)
         && (latest.None? || st.snapshots[latest.value].createdAt < st.snapshots[snap].createdAt) {
        latest := Some(snap);
      }
    }
  }

  /** Between suspension and resume, other jobs may run.  These calls leave the choice of
      the snapshot, and its data, alone. */
  predicate KeepsChoice(st: State, id: InstanceId, snap: SnapshotId, call: Call)
    requires snap in st.snapshots
  {
    match call
    case SetSnapshotReady(other, img) =>
      if other == snap then Some(img) == st.snapshots[snap].image
      else
        other in st.snapshots && st.snapshots[other].instance == id && st.snapshots[other].isSystem ==>
          st.snapshots[other].createdAt < st.snapshots[snap].createdAt
    case SetSnapshotStatus(other, status) =>
      if other == snap then status == Ready
      else
        status == Ready && other in st.snapshots && st.snapshots[other].instance == id
        && st.snapshots[other].isSystem ==>
          st.snapshots[other].createdAt < st.snapshots[snap].createdAt
    case DeleteImage(img) => st.snapshots[snap].image != Some(img)
    case _ => true
  }

  lemma AsNewIsLatest(st: State, id: InstanceId, snap: SnapshotId, other: SnapshotId)
    requires Latest(st, id, snap) && Candidate(st, id, other)
    ensures Latest(st, id, other) <==> st.snapshots[other].createdAt == st.snapshots[snap].createdAt
  {
  }

  /** The choice and the data survive a call exactly if it is one of those. */
  lemma ChoiceIsKeptExactly(st: State, id: InstanceId, snap: SnapshotId, disk: nat, call: Call)
    requires Picks(st, id, snap) && Possible(st, call)
    requires st.snapshots[snap].image.Some? && ImageHolds(st, st.snapshots[snap].image.value, disk)
    ensures
      var after := Apply(st, call);
      (&& Picks(after, id, snap) && after.snapshots[snap].image == st.snapshots[snap].image
       && ImageHolds(after, st.snapshots[snap].image.value, disk))
      <==> KeepsChoice(st, id, snap, call)
  {
    var after := Apply(st, call);
    if KeepsChoice(st, id, snap, call) {
      forall other | Candidate(after, id, other) && other != snap
        ensures after.snapshots[other].createdAt < after.snapshots[snap].createdAt
      {
        if Candidate(st, id, other) {
          AsNewIsLatest(st, id, snap, other);
        }
      }
    } else if call.SetSnapshotReady? && call.snap != snap {
      assert Latest(after, id, snap) ==> Latest(after, id, call.snap);
    } else if call.SetSnapshotStatus? && call.snap != snap {
      assert Latest(after, id, snap) ==> Latest(after, id, call.snap);
    }
  }

  /** The choice depends on the ready system snapshots alone. */
  lemma SameCandidates(a: State, b: State, id: InstanceId, snap: SnapshotId)
    requires forall other :: Candidate(b, id, other) ==> Candidate(a, id, other)
    requires forall other :: Candidate(a, id, other) ==>
               Candidate(b, id, other) && a.snapshots[other] == b.snapshots[other]
    ensures Picks(a, id, snap) <==> Picks(b, id, snap)
  {
    forall other ensures Latest(a, id, other) <==> Latest(b, id, other) {
    }
  }

  /** Every ready system snapshot of the instance is older. */
  ghost predicate NoneNewer(st: State, id: InstanceId, now: nat) {
    forall snap :: Candidate(st, id, snap) ==> st.snapshots[snap].createdAt < now
  }
}
