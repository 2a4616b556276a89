/** The two stores that the background jobs keep in step: the Postgres rows and the
    resources at the cloud provider.  Every statement and every provider call is one
    atomic step that either takes effect and returns no error, or returns an error and
    leaves both stores alone.  The world records each step, so a process that dies
    between two calls leaves behind one of the recorded states. */
module World {
  import opened Options

  type InstanceId = nat
  type SnapshotId = nat
  type ServerId = nat
  type ImageId = nat
  type Address = nat

  datatype VpsStatus =
    | Requested | Provisioning | Bootstrapping | InstallingAgent | Active | Restarting
    | Suspending | Suspended | Resuming | Terminating | Terminated
    | Snapshotting | Restoring | Upgrading | Downgrading | Error

  datatype SnapshotStatus = Creating | Ready | Failed | Deleting | Deleted

  /** A row of vps_instances. */
  datatype Instance = Instance(status: VpsStatus, serverId: Option<ServerId>, ipv4: Option<Address>)

  /** A row of snapshots. */
  datatype Snapshot = Snapshot(instance: InstanceId, image: Option<ImageId>, status: SnapshotStatus,
                               isSystem: bool, createdAt: nat)

  /** A live server.  The address is fixed at creation, although the provider may report
      it late.  The three flags remember what the provider has said about the server so
      far: a poll saw it running, a reply carried its address, a password reset worked. */
  datatype Server = Server(address: Address, plan: string, image: Option<ImageId>, disk: nat,
                           seenRunning: bool, seenAddress: bool, passwordReset: bool)

  /** A provider image: the server it was taken from and the disk contents it holds. */
  datatype Image = Image(source: ServerId, disk: nat)

  datatype State = State(rows: map<InstanceId, Instance>,
                         snapshots: map<SnapshotId, Snapshot>,
                         servers: map<ServerId, Server>,
                         images: map<ImageId, Image>)

  /** The calls that can change a store. */
  datatype Call =
    | SetStatus(id: InstanceId, status: VpsStatus)
    | SetStatusIf(id: InstanceId, expected: VpsStatus, status: VpsStatus)
    | SetProviderInfo(id: InstanceId, server: ServerId, ip: Option<Address>)
    | WriteBlankAddress(id: InstanceId, server: ServerId)   // SetProviderInfo with the empty string for an address
    | ClearProviderInfo(id: InstanceId)
    | InsertSnapshot(snap: SnapshotId, instance: InstanceId, isSystem: bool, at: nat)
    | SetSnapshotReady(snap: SnapshotId, img: ImageId)
    | SetSnapshotStatus(snap: SnapshotId, snapStatus: SnapshotStatus)
    | CreateServer(server: ServerId, address: Address, plan: string, img: ImageId, withAddress: bool)
    | ObserveServer(server: ServerId, running: bool, withAddress: bool)
    | ResetPassword(server: ServerId)
    | DeleteServer(server: ServerId)
    | CreateImage(img: ImageId, server: ServerId)
    | DeleteImage(img: ImageId)

  datatype Step = Step(call: Call, ok: bool, after: State)

  /** What the provider and the database refuse: new ids are fresh, a server or image that
      is used must exist, a conditional update must match a row, and the empty string is
      not an `inet` value. */
  predicate Possible(st: State, call: Call) {
    match call
    case SetStatusIf(id, expected, _) => id in st.rows && st.rows[id].status == expected
    case WriteBlankAddress(_, _) => false
    case InsertSnapshot(snap, _, _, _) => snap !in st.snapshots
    case CreateServer(server, _, _, img, _) => server !in st.servers && img in st.images
    case ObserveServer(server, _, _) => server in st.servers
    case ResetPassword(server) => server in st.servers
    case CreateImage(img, server) => img !in st.images && server in st.servers
    case _ => true
  }

  /** The effect of a successful call. */
  function Apply(st: State, call: Call): State
    requires Possible(st, call)
  {
    match call
    case SetStatus(id, status) => WithStatus(st, id, status)
    case SetStatusIf(id, _, status) => WithStatus(st, id, status)
    case SetProviderInfo(id, server, ip) =>
      if id in st.rows
      then st.(rows := st.rows[id := st.rows[id].(serverId := Some(server), ipv4 := ip)]) else st
    case ClearProviderInfo(id) =>
      if id in st.rows
      then st.(rows := st.rows[id := st.rows[id].(serverId := None, ipv4 := None)]) else st
    case InsertSnapshot(snap, instance, isSystem, at) =>
      st.(snapshots := st.snapshots[snap := Snapshot(instance, None, Creating, isSystem, at)])
    case SetSnapshotReady(snap, img) =>
      if snap in st.snapshots
      then st.(snapshots := st.snapshots[snap := st.snapshots[snap].(status := Ready, image := Some(img))])
      else st
    case SetSnapshotStatus(snap, status) =>
      if snap in st.snapshots
      then st.(snapshots := st.snapshots[snap := st.snapshots[snap].(status := status)]) else st
    case CreateServer(server, address, plan, img, withAddress) =>
      st.(servers := st.servers[server :=
        Server(address, plan, Some(img), st.images[img].disk, false, withAddress, false)])
    case ObserveServer(server, running, withAddress) =>
      var seen := st.servers[server];
      st.(servers := st.servers[server := seen.(seenRunning := seen.seenRunning || running,
                                                seenAddress := seen.seenAddress || withAddress)])
    case ResetPassword(server) =>
      st.(servers := st.servers[server := st.servers[server].(passwordReset := true)])
    case DeleteServer(server) => st.(servers := st.servers - {server})
    case CreateImage(img, server) =>
      st.(images := st.images[img := Image(server, st.servers[server].disk)])
    case DeleteImage(img) => st.(images := st.images - {img})
  }

  function WithStatus(st: State, id: InstanceId, status: VpsStatus): State {
    if id in st.rows then st.(rows := st.rows[id := st.rows[id].(status := status)]) else st
  }

  function After(st: State, call: Call, ok: bool): State
    requires ok ==> Possible(st, call)
  {
    if ok then Apply(st, call) else st
  }

  /** What a recorded step must be: possible if it worked, and with the effect of its call. */
  predicate Valid(before: State, step: Step) {
    && (step.ok ==> Possible(before, step.call))
    && step.after == After(before, step.call, step.ok)
  }

  /** The state after a sequence of steps. */
  function StateAfter(before: State, steps: seq<Step>): State {
    if steps == [] then before else steps[|steps| - 1].after
  }

  /** The call was made and worked. */
  ghost predicate Took(steps: seq<Step>, call: Call) {
    exists k :: 0 <= k < |steps| && steps[k].ok && steps[k].call == call
  }

  lemma TookLast(steps: seq<Step>)
    requires steps != []
    ensures var init, last := steps[..|steps| - 1], steps[|steps| - 1];
      forall call :: Took(steps, call) <==> Took(init, call) || (last.ok && last.call == call)
  {
    var init, last := steps[..|steps| - 1], steps[|steps| - 1];
    forall call ensures Took(steps, call) <==> Took(init, call) || (last.ok && last.call == call) {
      if Took(steps, call) {
        var k :| 0 <= k < |steps| && steps[k].ok && steps[k].call == call;
        assert k < |init| ==> init[k] == steps[k];
      }
      if Took(init, call) {
        var k :| 0 <= k < |init| && init[k].ok && init[k].call == call;
        assert steps[k] == init[k];
      }
    }
  }

  /** The row of an instance names no server, or one that exists; its address is unset or
      is the address of that very server. */
  predicate RowSound(st: State, id: InstanceId) {
    id in st.rows && st.rows[id].serverId.Some? ==>
      var server := st.rows[id].serverId.value;
      && server in st.servers
      && (st.rows[id].ipv4.None? || st.rows[id].ipv4 == Some(st.servers[server].address))
  }

  /** Exactly the calls that cannot break the soundness of a row. */
  predicate KeepsRowSound(st: State, id: InstanceId, call: Call) {
    match call
    case SetProviderInfo(i, server, ip) =>
      i == id && id in st.rows ==>
        server in st.servers && (ip.None? || ip == Some(st.servers[server].address))
    case DeleteServer(server) => id in st.rows ==> st.rows[id].serverId != Some(server)
    case _ => true
  }

  /** A sound row stays sound under a call if and only if the call is one of those above.
      The order of row writes and deletes in every job is there for this. */
  lemma RowSoundnessIsExact(st: State, id: InstanceId, call: Call)
    requires RowSound(st, id) && Possible(st, call)
    ensures RowSound(Apply(st, call), id) <==> KeepsRowSound(st, id, call)
  {
  }

  /** No call has failed since `start`. */
  ghost predicate Smooth(h: seq<Step>, start: int) {
    forall k :: 0 <= k < |h| && start <= k ==> h[k].ok
  }

  lemma SmoothParts(h: seq<Step>, h': seq<Step>, start: int)
    requires h <= h' && start <= |h|
    ensures Smooth(h', start) <==> Smooth(h, start) && Smooth(h', |h|)
  {
    assert forall k :: 0 <= k < |h| ==> h'[k] == h[k];
  }

  class Stores {
    var st: State
    ghost var history: seq<Step>

    /** One call: it succeeds with its effect, or fails with none. */
    method Perform(call: Call) returns (ok: bool)
      modifies this
      ensures ok ==> Possible(old(st), call)
      ensures st == After(old(st), call, ok)
      ensures history == old(history) + [Step(call, ok, st)]
      ensures forall start :: start <= |old(history)| ==>
                (Smooth(history, start) <==> Smooth(old(history), start) && ok)
    {
      ok := *;
      if !Possible(st, call) {
        ok := false;
      }
      if ok {
        st := Apply(st, call);
      }
      ghost var before := history;
      history := history + [Step(call, ok, st)];
      forall start | start <= |before|
        ensures Smooth(history, start) <==> Smooth(before, start) && ok
      {
        SmoothParts(before, history, start);
        assert history[|before|] == Step(call, ok, st);
      }
    }

    /** db.UpdateInstanceStatus. */
    method UpdateInstanceStatus(id: InstanceId, status: VpsStatus) returns (ok: bool)
      modifies this
      ensures st == if ok then WithStatus(old(st), id, status) else old(st)
      ensures history == old(history) + [Step(SetStatus(id, status), ok, st)]
      ensures forall start :: start <= |old(history)| ==>
                (Smooth(history, start) <==> Smooth(old(history), start) && ok)
    {
      ok := Perform(SetStatus(id, status));
    }

    /** db.UpdateSnapshotStatus and db.UpdateSnapshotError. */
    method UpdateSnapshotStatus(snap: SnapshotId, status: SnapshotStatus) returns (ok: bool)
      modifies this
      ensures st == if ok && snap in old(st).snapshots
                    then old(st).(snapshots := old(st).snapshots[snap := old(st).snapshots[snap].(status := status)])
                    else old(st)
      ensures history == old(history) + [Step(SetSnapshotStatus(snap, status), ok, st)]
      ensures forall start :: start <= |old(history)| ==>
                (Smooth(history, start) <==> Smooth(old(history), start) && ok)
    {
      ok := Perform(SetSnapshotStatus(snap, status));
    }

    /** The provider's DeleteSnapshot. */
    method DropImage(img: ImageId) returns (ok: bool)
      modifies this
      ensures st == if ok then old(st).(images := old(st).images - {img}) else old(st)
      ensures history == old(history) + [Step(DeleteImage(img), ok, st)]
      ensures forall start :: start <= |old(history)| ==>
                (Smooth(history, start) <==> Smooth(old(history), start) && ok)
    {
      ok := Perform(DeleteImage(img));
    }
  }

  /** A new id: uuid.New() on the database side, the provider's own numbering on the other. */
  method FreshId(used: set<nat>) returns (id: nat)
    ensures id !in used
  {
    id := 0;
    var rest := used;
    while rest != {}
      invariant rest <= used
      invariant forall x :: x in used && x !in rest ==> x < id
      decreases rest
    {
      var x :| x in rest;
      rest := rest - {x};
      id := if x < id then id else x + 1;
    }
  }
}
