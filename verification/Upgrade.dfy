/** The plan upgrade (backend/internal/jobs/upgrader.go): snapshot the server, build a
    replacement from the image, point the row at it, wait, reset its password, and only
    then delete the old server.  About fifteen exits lead out of it, each through one of
    three clean-up closures. */
module Upgrade {
  import opened Options
  import opened World

  /** What one run knows from the start: the instance, the server and address its caller
      read from the row, the server type to move to, and where the run begins. */
  datatype Saga = Saga(id: InstanceId, oldServer: ServerId, oldIp: Option<Address>,
                       plan: string, start: nat, before: State)

  /** The reply to GetServer. */
  datatype Reply = Reply(running: bool, ip: Option<Address>, plan: string)

  // ---------------------------------------------------------------------------
  // The discipline a run keeps, as a property of its calls

  /** The row names a replacement that was built from an image of the old server, has
      been seen running, has an address and has accepted a password reset. */
  predicate Vetted(saga: Saga, st: State) {
    && saga.id in st.rows && st.rows[saga.id].serverId.Some?
    && var server := st.rows[saga.id].serverId.value;
    && server != saga.oldServer && server in st.servers
    && st.servers[server].seenRunning && st.servers[server].seenAddress
    && st.servers[server].passwordReset
    && st.servers[server].image.Some? && st.servers[server].image.value in st.images
    && st.images[st.servers[server].image.value].source == saga.oldServer
  }

  /** What a call of the run may touch, and when. */
  predicate Allowed(saga: Saga, st: State, call: Call) {
    && KeepsRowSound(st, saga.id, call)
    && match call
       case SetStatus(id, _) => id == saga.id
       case SetStatusIf(id, _, _) => id == saga.id
       case SetProviderInfo(id, _, _) => id == saga.id
       case ClearProviderInfo(id) => id == saga.id
       case WriteBlankAddress(_, _) => true
       case DeleteServer(server) =>
         if server == saga.oldServer then Vetted(saga, st) else server !in saga.before.servers
       case DeleteImage(img) => img !in saga.before.images
       case CreateServer(server, _, _, _, _) => server !in saga.before.servers && server != saga.oldServer
       case CreateImage(img, _) => img !in saga.before.images
       case ResetPassword(server) => server !in saga.before.servers
       case ObserveServer(server, _, _) => server !in saga.before.servers || server == saga.oldServer
       case InsertSnapshot(snap, _, _, _) => snap !in saga.before.snapshots
       case SetSnapshotReady(snap, _) => snap !in saga.before.snapshots
       case SetSnapshotStatus(snap, _) => snap !in saga.before.snapshots
  }

  ghost function StateBefore(saga: Saga, h: seq<Step>, k: nat): State
    requires saga.start <= k <= |h|
  {
    if k == saga.start then saga.before else h[k - 1].after
  }

  ghost predicate GoodStep(saga: Saga, h: seq<Step>, k: nat)
    requires saga.start <= k < |h|
  {
    var before := StateBefore(saga, h, k);
    && (h[k].ok ==> Possible(before, h[k].call))
    && h[k].after == After(before, h[k].call, h[k].ok)
    && Allowed(saga, before, h[k].call)
  }

  ghost predicate Disciplined(saga: Saga, h: seq<Step>) {
    && saga.start <= |h|
    && forall k :: saga.start <= k < |h| ==> GoodStep(saga, h, k)
  }

  /** Everything outside the run's reach: the other rows, the other servers, the images
      and snapshots that were there before, and the old server's address. */
  predicate Untouched(saga: Saga, st: State) {
    OtherRows(saga, st) && OtherServers(saga, st) && OtherImages(saga, st) && OtherSnapshots(saga, st)
  }

  predicate OtherRows(saga: Saga, st: State) {
    && st.rows.Keys == saga.before.rows.Keys
    && (forall id :: id in st.rows && id != saga.id ==> st.rows[id] == saga.before.rows[id])
  }

  predicate OtherServers(saga: Saga, st: State) {
    && (forall server :: server in saga.before.servers && server != saga.oldServer ==>
          server in st.servers && st.servers[server] == saga.before.servers[server])
    && (saga.oldServer in st.servers ==>
          && saga.oldServer in saga.before.servers
          && st.servers[saga.oldServer].address == saga.before.servers[saga.oldServer].address)
  }

  predicate OtherImages(saga: Saga, st: State) {
    forall img :: img in saga.before.images ==> img in st.images && st.images[img] == saga.before.images[img]
  }

  predicate OtherSnapshots(saga: Saga, st: State) {
    forall snap :: snap in saga.before.snapshots ==>
      snap in st.snapshots && st.snapshots[snap] == saga.before.snapshots[snap]
  }

  lemma AllowedKeepsRowSound(saga: Saga, st: State, call: Call)
    requires Allowed(saga, st, call)
    ensures KeepsRowSound(st, saga.id, call)
  {
  }

  lemma NothingTouchedYet(saga: Saga)
    ensures Untouched(saga, saga.before)
  {
  }

  lemma AllowedKeepsRows(saga: Saga, st: State, call: Call)
    requires Possible(st, call) && Allowed(saga, st, call) && OtherRows(saga, st)
    ensures OtherRows(saga, Apply(st, call))
  {
    hide KeepsRowSound, Vetted;
  }

  lemma AllowedKeepsServers(saga: Saga, st: State, call: Call)
    requires Possible(st, call) && Allowed(saga, st, call) && OtherServers(saga, st)
    ensures OtherServers(saga, Apply(st, call))
  {
    hide KeepsRowSound, Vetted;
  }

  lemma AllowedKeepsImages(saga: Saga, st: State, call: Call)
    requires Possible(st, call) && Allowed(saga, st, call) && OtherImages(saga, st)
    ensures OtherImages(saga, Apply(st, call))
  {
    hide KeepsRowSound, Vetted;
  }

  lemma AllowedKeepsSnapshots(saga: Saga, st: State, call: Call)
    requires Possible(st, call) && Allowed(saga, st, call) && OtherSnapshots(saga, st)
    ensures OtherSnapshots(saga, Apply(st, call))
  {
    hide KeepsRowSound, Vetted;
  }

  lemma AllowedCallsTouchNothingElse(saga: Saga, st: State, call: Call)
    requires Possible(st, call) && Allowed(saga, st, call) && Untouched(saga, st)
    ensures Untouched(saga, Apply(st, call))
  {
    hide Allowed, Possible, Apply, OtherRows, OtherServers, OtherImages, OtherSnapshots;
    AllowedKeepsRows(saga, st, call);
    AllowedKeepsServers(saga, st, call);
    AllowedKeepsImages(saga, st, call);
    AllowedKeepsSnapshots(saga, st, call);
  }

  /** Wherever a disciplined run is cut off, the row names an existing server and that
      server's address, and nothing outside the run's reach has changed. */
  lemma {:induction false} CrashAnywhereIsSound(saga: Saga, h: seq<Step>, k: nat)
    requires Disciplined(saga, h) && RowSound(saga.before, saga.id)
    requires saga.start <= k <= |h|
    ensures RowSound(StateBefore(saga, h, k), saga.id)
    ensures Untouched(saga, StateBefore(saga, h, k))
    decreases k
  {
    hide Untouched, Allowed;
    if k > saga.start {
      CrashAnywhereIsSound(saga, h, k - 1);
      assert GoodStep(saga, h, k - 1);
      var before, call := StateBefore(saga, h, k - 1), h[k - 1].call;
      if h[k - 1].ok {
        AllowedCallsTouchNothingElse(saga, before, call);
        RowSoundnessIsExact(before, saga.id, call);
        AllowedKeepsRowSound(saga, before, call);
      }
    } else {
      NothingTouchedYet(saga);
    }
  }

  /** The old server is alive until a call deletes it, and at that call the replacement
      had passed every check. */
  lemma {:induction false} OldServerOutlivesTheChecks(saga: Saga, h: seq<Step>, k: nat)
    requires Disciplined(saga, h) && saga.oldServer in saga.before.servers
    requires saga.start <= k <= |h| && saga.oldServer !in StateBefore(saga, h, k).servers
    ensures exists i :: saga.start <= i < k && h[i].call == DeleteServer(saga.oldServer)
                        && Vetted(saga, StateBefore(saga, h, i))
    decreases k
  {
    assert GoodStep(saga, h, k - 1);
    if saga.oldServer !in StateBefore(saga, h, k - 1).servers {
      OldServerOutlivesTheChecks(saga, h, k - 1);
    }
  }

  // ---------------------------------------------------------------------------
  // The run

  /** The calls of the run that returned an error. */
  ghost function Failures(saga: Saga, h: seq<Step>): set<Call> {
    set k | saga.start <= k < |h| && !h[k].ok :: h[k].call
  }

  ghost predicate InRun(saga: Saga, w: Stores)
    reads w
  {
    && Disciplined(saga, w.history)
    && w.st == StateBefore(saga, w.history, |w.history|)
  }

  /** No clean-up call of the run failed: every delete worked, and so did the write that
      puts the old server back into the row. */
  ghost predicate CleanupWorked(saga: Saga, h: seq<Step>) {
    && SetProviderInfo(saga.id, saga.oldServer, saga.oldIp) !in Failures(saga, h)
    && forall call :: call in Failures(saga, h) ==> !call.DeleteServer? && !call.DeleteImage?
  }

  /** The write that puts the old server back into the row failed. */
  ghost predicate RestoreFailed(saga: Saga, h: seq<Step>) {
    SetProviderInfo(saga.id, saga.oldServer, saga.oldIp) in Failures(saga, h)
  }

  /** The provider could not be asked about a server. */
  ghost predicate ServerUnknown(saga: Saga, h: seq<Step>, server: ServerId) {
    exists call :: call in Failures(saga, h) && call.ObserveServer? && call.server == server
  }

  /** No call failed but, perhaps, questions about the replacement. */
  ghost predicate OnlyPollsFailed(saga: Saga, h: seq<Step>) {
    forall call :: call in Failures(saga, h) ==> IsPoll(saga, call)
  }

  predicate IsPoll(saga: Saga, call: Call) {
    call.ObserveServer? && call.server != saga.oldServer
  }

  ghost predicate StatusWritesWorked(saga: Saga, h: seq<Step>) {
    forall call :: call in Failures(saga, h) ==> !call.SetStatus?
  }

  // ---------------------------------------------------------------------------
  // What the provider says about the replacement

  /** How often it was asked about the replacement, whether an answer said that it runs, and
      whether its address came with its creation or with an answer after that one; whether it
      could not describe the old server, and whether that could not be put back into the row. */
  datatype News = News(asked: nat, running: bool, address: bool, unknown: bool, stuck: bool)

  const NO_NEWS := News(0, false, false, false, false)

  function Told(saga: Saga, news: News, call: Call, ok: bool): News {
    match call
    case CreateServer(_, _, _, _, withAddress) => news.(address := news.address || (ok && withAddress))
    case ObserveServer(server, running, withAddress) =>
      if server == saga.oldServer then news.(unknown := news.unknown || !ok)
      else news.(asked := news.asked + 1, running := news.running || (ok && running),
                 address := news.address || (ok && withAddress && news.running))
    case SetProviderInfo(_, _, _) =>
      news.(stuck := news.stuck || (!ok && call == SetProviderInfo(saga.id, saga.oldServer, saga.oldIp)))
    case _ => news
  }

  ghost function NewsOf(saga: Saga, h: seq<Step>): News
    decreases |h|
  {
    if |h| <= saga.start then NO_NEWS
    else Told(saga, NewsOf(saga, h[..|h| - 1]), h[|h| - 1].call, h[|h| - 1].ok)
  }

  /** The run recorded an answer saying that the replacement runs. */
  ghost predicate SaidRunning(saga: Saga, h: seq<Step>, k: int) {
    && 0 <= saga.start <= k < |h| && h[k].ok && h[k].call.ObserveServer?
    && h[k].call.server != saga.oldServer && h[k].call.running
  }

  /** And one with its address. */
  ghost predicate SaidAddress(saga: Saga, h: seq<Step>, k: int) {
    && saga.start <= k < |h| && h[k].ok
    && (|| (h[k].call.CreateServer? && h[k].call.withAddress)
        || (&& h[k].call.ObserveServer? && h[k].call.server != saga.oldServer && h[k].call.withAddress
            && exists j :: j < k && SaidRunning(saga, h, j)))
  }

  /** The calls that asked about the replacement. */
  ghost function Polls(saga: Saga, h: seq<Step>): set<nat> {
    set k | saga.start <= k < |h| && IsPoll(saga, h[k].call)
  }

  lemma {:induction false} NewsIsExact(saga: Saga, h: seq<Step>)
    ensures NewsOf(saga, h).asked == |Polls(saga, h)|
    ensures NewsOf(saga, h).unknown <==> ServerUnknown(saga, h, saga.oldServer)
    ensures NewsOf(saga, h).stuck <==> RestoreFailed(saga, h)
    ensures NewsOf(saga, h).running <==> exists k :: SaidRunning(saga, h, k)
    ensures NewsOf(saga, h).address <==> exists k :: SaidAddress(saga, h, k)
    decreases |h|
  {
    hide SaidRunning, SaidAddress;
    if |h| > saga.start {
      NewsIsExact(saga, h[..|h| - 1]);
      PollsGrow(saga, h);
      FailuresGrow(saga, h);
      RunningGrows(saga, h);
      AddressGrows(saga, h);
    } else {
      NothingSaidYet(saga, h);
    }
  }

  lemma NothingSaidYet(saga: Saga, h: seq<Step>)
    requires |h| <= saga.start
    ensures Polls(saga, h) == {} && Failures(saga, h) == {}
    ensures forall k :: !SaidRunning(saga, h, k)
    ensures forall k :: !SaidAddress(saga, h, k)
  {
  }

  lemma FailuresGrow(saga: Saga, h: seq<Step>)
    requires |h| > saga.start
    ensures Failures(saga, h)
            == Failures(saga, h[..|h| - 1]) + if h[|h| - 1].ok then {} else {h[|h| - 1].call}
  {
    var init, last := h[..|h| - 1], h[|h| - 1];
    forall call | call in Failures(saga, init) ensures call in Failures(saga, h) {
      var k :| saga.start <= k < |init| && !init[k].ok && init[k].call == call;
      assert !h[k].ok && h[k].call == call;
    }
    assert !last.ok ==> !h[|init|].ok && h[|init|].call == last.call;
  }

  lemma PollsGrow(saga: Saga, h: seq<Step>)
    requires |h| > saga.start
    ensures |Polls(saga, h)|
            == |Polls(saga, h[..|h| - 1])| + if IsPoll(saga, h[|h| - 1].call) then 1 else 0
  {
    var last := |h| - 1;
    assert Polls(saga, h) == Polls(saga, h[..last]) + if IsPoll(saga, h[last].call) then {last} else {};
  }

  lemma RunningGrows(saga: Saga, h: seq<Step>)
    requires |h| > saga.start
    ensures var init, last := h[..|h| - 1], h[|h| - 1];
      (exists k :: SaidRunning(saga, h, k))
      <==> (exists k :: SaidRunning(saga, init, k)) || (last.ok && IsPoll(saga, last.call) && last.call.running)
  {
    var init := h[..|h| - 1];
    assert SaidRunning(saga, h, |h| - 1) || !SaidRunning(saga, h, |h| - 1);
    forall k | k < |init| ensures SaidRunning(saga, h, k) == SaidRunning(saga, init, k) {
    }
  }

  lemma AddressGrows(saga: Saga, h: seq<Step>)
    requires |h| > saga.start
    ensures var init, last := h[..|h| - 1], h[|h| - 1];
      (exists k :: SaidAddress(saga, h, k))
      <==> || (exists k :: SaidAddress(saga, init, k))
           || (last.ok && last.call.CreateServer? && last.call.withAddress)
           || (last.ok && IsPoll(saga, last.call) && last.call.withAddress
               && exists k :: SaidRunning(saga, init, k))
  {
    var init := h[..|h| - 1];
    forall k | k < |init| ensures SaidRunning(saga, h, k) == SaidRunning(saga, init, k) {
    }
    forall k | k < |init| ensures SaidAddress(saga, h, k) == SaidAddress(saga, init, k) {
    }
    assert SaidAddress(saga, h, |h| - 1) || !SaidAddress(saga, h, |h| - 1);
  }

  method Do(w: Stores, ghost saga: Saga, call: Call) returns (ok: bool)
    requires InRun(saga, w) && Allowed(saga, w.st, call)
    modifies w
    ensures InRun(saga, w) && old(w.history) <= w.history
    ensures |w.history| == |old(w.history)| + 1
    ensures w.history[|old(w.history)|].call == call && w.history[|old(w.history)|].ok == ok
    ensures ok ==> Possible(old(w.st), call)
    ensures w.st == After(old(w.st), call, ok)
    ensures Failures(saga, w.history) == old(Failures(saga, w.history)) + (if ok then {} else {call})
    ensures OnlyPollsFailed(saga, w.history) <==> old(OnlyPollsFailed(saga, w.history)) && (ok || IsPoll(saga, call))
    ensures NewsOf(saga, w.history) == Told(saga, old(NewsOf(saga, w.history)), call, ok)
  {
    ghost var h := w.history;
    ok := w.Perform(call);
    ghost var h' := w.history;
    forall k | saga.start <= k < |h'| ensures GoodStep(saga, h', k) {
      if k < |h| {
        assert GoodStep(saga, h, k);
      }
    }
    assert h' == h + [Step(call, ok, w.st)] && h'[..|h'| - 1] == h;
    assert !ok ==> !h'[|h|].ok && h'[|h|].call == call;
    forall c | c in Failures(saga, h) ensures c in Failures(saga, h') {
      var k :| saga.start <= k < |h| && !h[k].ok && h[k].call == c;
      assert !h'[k].ok && h'[k].call == c;
    }
  }

  /** GetServer: an error, or a reply about a server that exists, with its own address or
      with none yet. */
  method GetServer(w: Stores, ghost saga: Saga, server: ServerId) returns (reply: Option<Reply>)
    requires InRun(saga, w) && Allowed(saga, w.st, ObserveServer(server, true, true))
    modifies w
    ensures InRun(saga, w) && old(w.history) <= w.history
    ensures Failures(saga, w.history) >= old(Failures(saga, w.history))
    ensures forall call :: call in Failures(saga, w.history) && call !in old(Failures(saga, w.history)) ==>
              call.ObserveServer?
    ensures reply.None? ==> w.st == old(w.st) && ServerUnknown(saga, w.history, server)
    ensures reply.Some? ==>
              && server in old(w.st).servers
              && w.st == Apply(old(w.st), ObserveServer(server, reply.value.running, reply.value.ip.Some?))
              && reply.value.plan == old(w.st).servers[server].plan
              && (reply.value.ip.Some? ==> reply.value.ip.value == old(w.st).servers[server].address)
    ensures OnlyPollsFailed(saga, w.history) ==>
              old(OnlyPollsFailed(saga, w.history)) && (reply.None? ==> server != saga.oldServer)
    ensures NewsOf(saga, w.history)
            == Told(saga, old(NewsOf(saga, w.history)),
                    ObserveServer(server, reply.Some? && reply.value.running, reply.Some? && reply.value.ip.Some?),
                    reply.Some?)
    ensures |w.history| > |old(w.history)| && (reply.Some? ==>
              w.history[|w.history| - 1].call == ObserveServer(server, reply.value.running, reply.value.ip.Some?))
  {
    var running: bool, withAddress: bool := *, *;
    var known := w.st.servers;
    var ok := Do(w, saga, ObserveServer(server, running, withAddress));
    if !ok {
      assert ObserveServer(server, running, withAddress) in Failures(saga, w.history);
      return None;
    }
    return Some(Reply(running, if withAddress then Some(known[server].address) else None, known[server].plan));
  }

  /** The closure restoreActive: an unconditional status write whose error is dropped. */
  method RestoreActive(w: Stores, ghost saga: Saga, id: InstanceId)
    requires InRun(saga, w) && id == saga.id
    modifies w
    ensures InRun(saga, w) && old(w.history) <= w.history
    ensures NewsOf(saga, w.history) == old(NewsOf(saga, w.history))
    ensures Failures(saga, w.history) >= old(Failures(saga, w.history))
    ensures w.st.servers == old(w.st).servers && w.st.images == old(w.st).images
    ensures w.st.snapshots == old(w.st).snapshots
    ensures w.st.rows == old(w.st).rows || w.st == WithStatus(old(w.st), id, Active)
    ensures StatusWritesWorked(saga, w.history) ==> w.st == WithStatus(old(w.st), id, Active)
    ensures OnlyPollsFailed(saga, w.history) ==>
              old(OnlyPollsFailed(saga, w.history)) && w.st == WithStatus(old(w.st), id, Active)
    ensures forall call :: call in Failures(saga, w.history) && call !in old(Failures(saga, w.history)) ==>
              call.SetStatus?
  {
    var ok := Do(w, saga, SetStatus(id, Active));
    assert !ok ==> SetStatus(id, Active) in Failures(saga, w.history);
  }

  /** The closure cleanupSnapshot: mark the snapshot row, delete the image, mark it again.
      The image is gone unless the provider refused. */
  method CleanupSnapshot(w: Stores, ghost saga: Saga, snap: SnapshotId, img: ImageId)
    requires InRun(saga, w) && snap !in saga.before.snapshots && img !in saga.before.images
    modifies w
    ensures InRun(saga, w) && old(w.history) <= w.history
    ensures NewsOf(saga, w.history) == old(NewsOf(saga, w.history))
    ensures Failures(saga, w.history) >= old(Failures(saga, w.history))
    ensures w.st.servers == old(w.st).servers && w.st.rows == old(w.st).rows
    ensures w.st.images == old(w.st).images - {img} ||
            (w.st.images == old(w.st).images && DeleteImage(img) in Failures(saga, w.history))
    ensures forall call :: call in Failures(saga, w.history) && call !in old(Failures(saga, w.history)) ==>
              call.SetSnapshotStatus? || call.DeleteImage?
    ensures w.st.snapshots.Keys == old(w.st).snapshots.Keys
    ensures forall other :: other in w.st.snapshots && other != snap ==>
              w.st.snapshots[other] == old(w.st).snapshots[other]
    ensures snap in w.st.snapshots && w.st.snapshots[snap] != old(w.st).snapshots[snap] ==>
              || w.st.snapshots[snap] == old(w.st).snapshots[snap].(status := Deleting)
              || (w.st.snapshots[snap] == old(w.st).snapshots[snap].(status := Deleted) && img !in w.st.images)
    ensures OnlyPollsFailed(saga, w.history) ==>
              && old(OnlyPollsFailed(saga, w.history)) && w.st.images == old(w.st).images - {img}
              && (snap in w.st.snapshots ==> w.st.snapshots[snap].status == Deleted)
  {
    hide InRun, Failures, OnlyPollsFailed, NewsOf;
    var marked := Do(w, saga, SetSnapshotStatus(snap, Deleting));
    var gone := Do(w, saga, DeleteImage(img));
    if !gone {
      return;
    }
    marked := Do(w, saga, SetSnapshotStatus(snap, Deleted));
  }

  /** Lookups that touch neither store: the provider's registration, the plan mapping, and
      what preparing the replacement needs (agent configuration, cloud-init template, user).
      Each may fail. */
  datatype Lookups = Lookups(provider: bool, mapping: bool, prepared: bool)

  predicate AllFound(lookups: Lookups) {
    lookups.provider && lookups.mapping && lookups.prepared
  }

  /** The stores between building the replacement and letting go of it: everything from
      before is there, plus the upgrade image and the replacement built from it. */
  predicate Doubled(saga: Saga, st: State, img: ImageId, server: ServerId) {
    && server !in saga.before.servers && img !in saga.before.images
    && saga.oldServer in saga.before.servers
    && st.servers.Keys == saga.before.servers.Keys + {server}
    && st.images.Keys == saga.before.images.Keys + {img}
    && st.servers[server].image == Some(img) && st.images[img].source == saga.oldServer
    && st.servers[server].plan == saga.plan
    && saga.id in st.rows
  }

  /** The books balance: the upgrade image is gone, and exactly one of the old server and
      the replacement is left.  Either the row names a server from before and none was
      added, or it names the replacement, on the new plan, and the old server is gone. */
  predicate Settled(saga: Saga, st: State) {
    && st.images.Keys == saga.before.images.Keys
    && saga.id in st.rows && saga.id in saga.before.rows
    && if st.rows[saga.id].serverId in {saga.before.rows[saga.id].serverId, Some(saga.oldServer)}
       then st.servers.Keys == saga.before.servers.Keys
       else
         && st.rows[saga.id].serverId.Some?
         && st.rows[saga.id].serverId.value !in saga.before.servers
         && st.servers.Keys
            == saga.before.servers.Keys - {saga.oldServer} + {st.rows[saga.id].serverId.value}
         && st.servers[st.rows[saga.id].serverId.value].plan == saga.plan
  }

  /** The upgrade is through: the row names a new server on the new plan, seen running and
      with a new password, the old server and the image are gone, and nothing else has come
      or gone. */
  predicate Replaced(saga: Saga, st: State) {
    && st.images.Keys == saga.before.images.Keys
    && saga.id in st.rows && st.rows[saga.id].status == Active && st.rows[saga.id].serverId.Some?
    && var server := st.rows[saga.id].serverId.value;
    && server !in saga.before.servers
    && st.servers.Keys == saga.before.servers.Keys - {saga.oldServer} + {server}
    && st.servers[server].plan == saga.plan
    && st.servers[server].seenRunning && st.servers[server].passwordReset
    && st.rows[saga.id].ipv4 == Some(st.servers[server].address)
  }

  /** Ask about the replacement. */
  method AskReplacement(w: Stores, ghost saga: Saga, id: InstanceId, server: ServerId) returns (reply: Option<Reply>)
    requires InRun(saga, w) && server !in saga.before.servers && server != saga.oldServer
    requires server in w.st.servers && id in w.st.rows && w.st.rows[id].serverId == Some(server)
    modifies w
    ensures InRun(saga, w) && old(w.history) <= w.history
    ensures Failures(saga, w.history) >= old(Failures(saga, w.history))
    ensures SameButFlags(old(w.st), w.st, id, server) && w.st.rows == old(w.st).rows
    ensures reply.Some? ==>
              && (reply.value.running ==> w.st.servers[server].seenRunning)
              && (reply.value.ip.Some? ==> w.st.servers[server].seenAddress)
              && reply.value.ip in {None, Some(w.st.servers[server].address)}
    ensures OnlyPollsFailed(saga, w.history) ==> old(OnlyPollsFailed(saga, w.history))
    ensures var news := old(NewsOf(saga, w.history));
      NewsOf(saga, w.history)
      == news.(asked := news.asked + 1, running := news.running || (reply.Some? && reply.value.running),
               address := news.address || (reply.Some? && reply.value.ip.Some? && news.running))
    ensures |w.history| > |old(w.history)| && (reply.Some? ==>
              w.history[|w.history| - 1].call == ObserveServer(server, reply.value.running, reply.value.ip.Some?))
  {
    hide InRun, Failures, OnlyPollsFailed, NewsOf;
    reply := GetServer(w, saga, server);
  }

  /** Store the replacement's address in the row that names it. */
  method StoreAddress(w: Stores, ghost saga: Saga, id: InstanceId, server: ServerId, ip: Option<Address>)
    requires InRun(saga, w) && id == saga.id && server != saga.oldServer
    requires server in w.st.servers && id in w.st.rows && w.st.rows[id].serverId == Some(server)
    requires ip == Some(w.st.servers[server].address)
    modifies w
    ensures InRun(saga, w) && old(w.history) <= w.history
    ensures Failures(saga, w.history) >= old(Failures(saga, w.history))
    ensures SameButFlags(old(w.st), w.st, id, server) && w.st.servers == old(w.st).servers
    ensures OnlyPollsFailed(saga, w.history) ==> old(OnlyPollsFailed(saga, w.history)) && w.st.rows[id].ipv4 == ip
    ensures NewsOf(saga, w.history) == old(NewsOf(saga, w.history))
    ensures |w.history| > |old(w.history)| && w.history[|w.history| - 1].call == SetProviderInfo(id, server, ip)
  {
    hide InRun, Failures, OnlyPollsFailed, NewsOf;
    var stored := Do(w, saga, SetProviderInfo(id, server, ip));
  }

  /** The last call was the answer that the server runs, without an address, or the store of
      the address that came with it. */
  predicate EndsRunning(saga: Saga, h: seq<Step>, st: State, server: ServerId) {
    && h != [] && server in st.servers
    && h[|h| - 1].call in {ObserveServer(server, true, false),
                           SetProviderInfo(saga.id, server, Some(st.servers[server].address))}
  }

  /** One poll of the replacement, and its address into the row if it came along. */
  method PollOnce(w: Stores, ghost saga: Saga, id: InstanceId, server: ServerId) returns (running: bool)
    requires InRun(saga, w) && id == saga.id && server !in saga.before.servers
    requires server in w.st.servers && id in w.st.rows && w.st.rows[id].serverId == Some(server)
    requires !NewsOf(saga, w.history).running && server != saga.oldServer
    modifies w
    ensures InRun(saga, w) && old(w.history) <= w.history
    ensures Failures(saga, w.history) >= old(Failures(saga, w.history))
    ensures SameButFlags(old(w.st), w.st, id, server)
    ensures running ==> w.st.servers[server].seenRunning
    ensures OnlyPollsFailed(saga, w.history) ==> old(OnlyPollsFailed(saga, w.history))
    ensures var news := old(NewsOf(saga, w.history));
      NewsOf(saga, w.history) == news.(asked := news.asked + 1, running := running)
    ensures running ==> EndsRunning(saga, w.history, w.st, server)
  {
    hide InRun, Failures, OnlyPollsFailed, NewsOf;
    var reply := AskReplacement(w, saga, id, server);
    running := reply.Some? && reply.value.running;
    if running && reply.value.ip.Some? {
      StoreAddress(w, saga, id, server, reply.value.ip);
    }
  }

  /** Poll until the replacement runs or the polls are used up.  The answer is yes if and only
      if the provider said that it runs, and no only after all the polls, whether they failed
      or were answered otherwise. */
  method WaitForServer(w: Stores, ghost saga: Saga, id: InstanceId, server: ServerId, polls: nat)
    returns (ready: bool)
    requires InRun(saga, w) && id == saga.id && server !in saga.before.servers
    requires server in w.st.servers && id in w.st.rows && w.st.rows[id].serverId == Some(server)
    requires !NewsOf(saga, w.history).running && server != saga.oldServer
    modifies w
    ensures InRun(saga, w) && old(w.history) <= w.history
    ensures Failures(saga, w.history) >= old(Failures(saga, w.history))
    ensures SameButFlags(old(w.st), w.st, id, server)
    ensures ready ==> w.st.servers[server].seenRunning && EndsRunning(saga, w.history, w.st, server)
    ensures OnlyPollsFailed(saga, w.history) ==> old(OnlyPollsFailed(saga, w.history))
    ensures var before, news := old(NewsOf(saga, w.history)), NewsOf(saga, w.history);
      && news == before.(asked := news.asked, running := ready)
      && before.asked <= news.asked <= before.asked + polls
      && (!ready ==> news.asked == before.asked + polls)
  {
    hide InRun, Failures, OnlyPollsFailed, NewsOf;
    var left := polls;
    while left > 0
      invariant InRun(saga, w) && old(w.history) <= w.history
      invariant Failures(saga, w.history) >= old(Failures(saga, w.history))
      invariant SameButFlags(old(w.st), w.st, id, server)
      invariant OnlyPollsFailed(saga, w.history) ==> old(OnlyPollsFailed(saga, w.history))
      invariant 0 <= left <= polls
      invariant var news := old(NewsOf(saga, w.history));
        NewsOf(saga, w.history) == news.(asked := news.asked + polls - left)
    {
      left := left - 1;
      ghost var st := w.st;
      var running := PollOnce(w, saga, id, server);
      SameButFlagsChain(old(w.st), st, w.st, id, server);
      if running {
        return true;
      }
    }
    return false;
  }

  lemma SameButFlagsChain(a: State, b: State, c: State, id: InstanceId, server: ServerId)
    requires SameButFlags(a, b, id, server) && SameButFlags(b, c, id, server)
    ensures SameButFlags(a, c, id, server)
  {
  }

  /** The address that came with the caller's copy of the row belongs to the old server. */
  predicate OldAddressKnown(saga: Saga, st: State) {
    saga.oldServer in st.servers ==>
      saga.oldIp.None? || saga.oldIp == Some(st.servers[saga.oldServer].address)
  }

  lemma OldAddressStillKnown(saga: Saga, w: Stores)
    requires InRun(saga, w) && RowSound(saga.before, saga.id) && OldAddressKnown(saga, saga.before)
    ensures OldAddressKnown(saga, w.st)
  {
    CrashAnywhereIsSound(saga, w.history, |w.history|);
  }

  /** Nothing but the observations about one server, and the address in the row that
      names it, has changed. */
  predicate SameButFlags(a: State, b: State, id: InstanceId, server: ServerId) {
    && b.servers.Keys == a.servers.Keys && b.images == a.images
    && server in a.servers
    && b.servers[server].image == a.servers[server].image
    && b.servers[server].plan == a.servers[server].plan
    && b.servers[server].address == a.servers[server].address
    && b.servers[server].passwordReset == a.servers[server].passwordReset
    && (a.servers[server].seenRunning ==> b.servers[server].seenRunning)
    && (a.servers[server].seenAddress ==> b.servers[server].seenAddress)
    && id in a.rows && id in b.rows
    && b.rows[id].serverId == a.rows[id].serverId && b.rows[id].status == a.rows[id].status
    && b.rows[id].ipv4 in {a.rows[id].ipv4, Some(a.servers[server].address)}
  }

  /** The closure rollbackToOldServer: put the old server back into the row first, and
      only then delete the replacement and the image. */
  method RollbackToOldServer(w: Stores, ghost saga: Saga, id: InstanceId, oldServer: ServerId,
                             oldIp: Option<Address>, server: ServerId, snap: SnapshotId, img: ImageId)
    requires InRun(saga, w) && Doubled(saga, w.st, img, server)
    requires id == saga.id && oldServer == saga.oldServer && oldIp == saga.oldIp
    requires OldAddressKnown(saga, w.st)
    requires snap !in saga.before.snapshots && id in saga.before.rows
    requires !NewsOf(saga, w.history).stuck
    modifies w
    ensures InRun(saga, w) && old(w.history) <= w.history
    ensures NewsOf(saga, w.history)
            == old(NewsOf(saga, w.history)).(stuck := NewsOf(saga, w.history).stuck)
    ensures CleanupWorked(saga, w.history) ==> Settled(saga, w.st)
    ensures id in w.st.rows
    ensures StatusWritesWorked(saga, w.history) ==>
              w.st.rows[id].status == if NewsOf(saga, w.history).stuck then Error else Active
    ensures OnlyPollsFailed(saga, w.history) ==> old(OnlyPollsFailed(saga, w.history)) && !Replaced(saga, w.st)
  {
    hide InRun, Failures, OnlyPollsFailed, NewsOf;
    var restored := Do(w, saga, SetProviderInfo(id, oldServer, oldIp));
    if !restored {
      assert SetProviderInfo(id, oldServer, oldIp) in Failures(saga, w.history);
      GiveUp(w, saga, id);
      return;
    }
    ReturnToOldServer(w, saga, id, server, snap, img);
  }

  /** With the row back on the old server. */
  method ReturnToOldServer(w: Stores, ghost saga: Saga, id: InstanceId, server: ServerId, snap: SnapshotId,
                           img: ImageId)
    requires InRun(saga, w) && Doubled(saga, w.st, img, server) && id == saga.id
    requires w.st.rows[id].serverId == Some(saga.oldServer) != Some(server)
    requires snap !in saga.before.snapshots && id in saga.before.rows
    modifies w
    ensures InRun(saga, w) && old(w.history) <= w.history
    ensures NewsOf(saga, w.history) == old(NewsOf(saga, w.history))
    ensures CleanupWorked(saga, w.history) ==> Settled(saga, w.st)
    ensures id in w.st.rows
    ensures StatusWritesWorked(saga, w.history) ==> w.st.rows[id].status == Active
    ensures OnlyPollsFailed(saga, w.history) ==> old(OnlyPollsFailed(saga, w.history)) && !Replaced(saga, w.st)
  {
    hide InRun, Failures, OnlyPollsFailed, NewsOf;
    ghost var st := w.st;
    RestoreActive(w, saga, id);
    var deleted := Do(w, saga, DeleteServer(server));
    assert !deleted ==> DeleteServer(server) in Failures(saga, w.history);
    CleanupSnapshot(w, saga, snap, img);
    hide Settled, Doubled;
    if CleanupWorked(saga, w.history) {
      BackToOne(saga, st, w.st, img, server);
    }
  }

  /** Steps 5 and 5b: wait for the replacement, learn its address, reset its password.
      Nothing is cleaned up here; the caller rolls back when the answer is no. */
  method Vet(w: Stores, ghost saga: Saga, id: InstanceId, server: ServerId, createdIp: Option<Address>,
             ghost img: ImageId, polls: nat)
    returns (vetted: bool)
    requires InRun(saga, w) && Doubled(saga, w.st, img, server) && id == saga.id
    requires w.st.rows[id].serverId == Some(server)
    requires createdIp.Some? ==> w.st.servers[server].seenAddress
                                 && createdIp == Some(w.st.servers[server].address)
    requires !NewsOf(saga, w.history).running && (createdIp.Some? <==> NewsOf(saga, w.history).address)
    requires server != saga.oldServer && w.st.rows[id].ipv4 == createdIp
    requires !NewsOf(saga, w.history).unknown && !NewsOf(saga, w.history).stuck
    modifies w
    ensures InRun(saga, w) && old(w.history) <= w.history
    ensures Failures(saga, w.history) >= old(Failures(saga, w.history))
    ensures Doubled(saga, w.st, img, server) && w.st.rows[id].serverId == Some(server)
    ensures vetted ==> Vetted(saga, w.st)
    ensures var before, news := old(NewsOf(saga, w.history)), NewsOf(saga, w.history);
      && (vetted ==> news.running && news.address)
      && (news.running || news.asked == before.asked + polls)
    ensures !NewsOf(saga, w.history).unknown && !NewsOf(saga, w.history).stuck
    ensures OnlyPollsFailed(saga, w.history) ==>
              && old(OnlyPollsFailed(saga, w.history))
              && (vetted <==> NewsOf(saga, w.history).running && NewsOf(saga, w.history).address)
              && (vetted ==> w.st.rows[id].ipv4 == Some(w.st.servers[server].address))
  {
    hide InRun, Failures, OnlyPollsFailed, NewsOf;
    ghost var began := w.st;
    var ready := WaitForServer(w, saga, id, server, polls);
    SameButFlagsKeepsDoubled(saga, began, w.st, id, server, img);
    if !ready {
      return false;
    }
    ghost var running := w.st;
    var ip := LearnAddress(w, saga, id, server, createdIp);
    SameButFlagsKeepsDoubled(saga, running, w.st, id, server, img);
    if ip.None? {
      return false;
    }
    vetted := Do(w, saga, ResetPassword(server));
  }

  lemma SameButFlagsKeepsDoubled(saga: Saga, a: State, b: State, id: InstanceId, server: ServerId, img: ImageId)
    requires Doubled(saga, a, img, server) && SameButFlags(a, b, id, server) && id == saga.id
    ensures Doubled(saga, b, img, server)
  {
  }

  /** The replacement's address: from a fresh reply if it has one, else as at its creation. */
  method LearnAddress(w: Stores, ghost saga: Saga, id: InstanceId, server: ServerId, createdIp: Option<Address>)
    returns (ip: Option<Address>)
    requires InRun(saga, w) && id == saga.id && server !in saga.before.servers
    requires server in w.st.servers && id in w.st.rows && w.st.rows[id].serverId == Some(server)
    requires createdIp.Some? ==> w.st.servers[server].seenAddress
                                 && createdIp == Some(w.st.servers[server].address)
    requires NewsOf(saga, w.history).running && (createdIp.Some? <==> NewsOf(saga, w.history).address)
    requires server != saga.oldServer
    requires createdIp.Some? ==> w.st.rows[id].ipv4 == createdIp
    modifies w
    ensures InRun(saga, w) && old(w.history) <= w.history
    ensures Failures(saga, w.history) >= old(Failures(saga, w.history))
    ensures SameButFlags(old(w.st), w.st, id, server)
    ensures ip.Some? ==> w.st.servers[server].seenAddress && ip == Some(w.st.servers[server].address)
    ensures createdIp.Some? ==> ip == createdIp
    ensures NewsOf(saga, w.history).running && (ip.Some? <==> NewsOf(saga, w.history).address)
    ensures var before, news := old(NewsOf(saga, w.history)), NewsOf(saga, w.history);
      news.unknown == before.unknown && news.stuck == before.stuck
    ensures OnlyPollsFailed(saga, w.history) ==>
              old(OnlyPollsFailed(saga, w.history)) && (ip.Some? ==> w.st.rows[id].ipv4 == ip)
  {
    hide InRun, Failures, OnlyPollsFailed, NewsOf;
    ip := createdIp;
    var reply := AskReplacement(w, saga, id, server);
    if reply.Some? && reply.value.ip.Some? {
      ip := reply.value.ip;
      StoreAddress(w, saga, id, server, ip);
    }
  }

  /** The row ends up on the replacement if and only if the provider said that it runs and
      gave its address; and if it never said that it runs, it was asked so many times. */
  ghost predicate Outcome(saga: Saga, h: seq<Step>, st: State, polls: nat) {
    && (Replaced(saga, st) <==> NewsOf(saga, h).running && NewsOf(saga, h).address)
    && (NewsOf(saga, h).running || NewsOf(saga, h).asked == polls)
  }

  /** From the replacement's creation to the end: swap the row, vet the replacement, then
      delete the old server and drop the image. */
  method AdoptReplacement(w: Stores, ghost saga: Saga, id: InstanceId, oldServer: ServerId,
                          oldIp: Option<Address>, server: ServerId, createdIp: Option<Address>,
                          snap: SnapshotId, img: ImageId, polls: nat)
    requires InRun(saga, w) && Doubled(saga, w.st, img, server)
    requires id == saga.id && oldServer == saga.oldServer && oldIp == saga.oldIp
    requires OldAddressKnown(saga, saga.before)
    requires createdIp.Some? ==> w.st.servers[server].seenAddress
                                 && createdIp == Some(w.st.servers[server].address)
    requires snap !in saga.before.snapshots && id in saga.before.rows && RowSound(saga.before, id)
    requires w.st.rows[id].serverId == saga.before.rows[id].serverId != Some(server)
    requires !NewsOf(saga, w.history).running && (createdIp.Some? <==> NewsOf(saga, w.history).address)
    requires !NewsOf(saga, w.history).unknown && !NewsOf(saga, w.history).stuck
    modifies w
    ensures InRun(saga, w) && old(w.history) <= w.history
    ensures CleanupWorked(saga, w.history) ==> Settled(saga, w.st)
    ensures id in w.st.rows
    ensures !NewsOf(saga, w.history).unknown
    ensures StatusWritesWorked(saga, w.history) ==>
              w.st.rows[id].status == if NewsOf(saga, w.history).stuck then Error else Active
    ensures OnlyPollsFailed(saga, w.history) ==>
              && old(OnlyPollsFailed(saga, w.history))
              && Outcome(saga, w.history, w.st, old(NewsOf(saga, w.history)).asked + polls)
  {
    hide InRun, Failures, OnlyPollsFailed, NewsOf;
    var swapped := Do(w, saga, SetProviderInfo(id, server, createdIp));
    if !swapped {
      DropReplacement(w, saga, id, server, snap, img);
      return;
    }
    var vetted := Vet(w, saga, id, server, createdIp, img, polls);
    if !vetted {
      OldAddressStillKnown(saga, w);
      RollbackToOldServer(w, saga, id, oldServer, oldIp, server, snap, img);
      return;
    }
    ReleaseOldServer(w, saga, id, oldServer, server, snap, img);
  }

  /** The exit when the row could not be pointed at the replacement. */
  method DropReplacement(w: Stores, ghost saga: Saga, id: InstanceId, server: ServerId, snap: SnapshotId, img: ImageId)
    requires InRun(saga, w) && Doubled(saga, w.st, img, server) && id == saga.id
    requires snap !in saga.before.snapshots && id in saga.before.rows
    requires w.st.rows[id].serverId == saga.before.rows[id].serverId != Some(server)
    modifies w
    ensures InRun(saga, w) && old(w.history) <= w.history
    ensures NewsOf(saga, w.history) == old(NewsOf(saga, w.history))
    ensures CleanupWorked(saga, w.history) ==> Settled(saga, w.st)
    ensures id in w.st.rows
    ensures StatusWritesWorked(saga, w.history) ==> w.st.rows[id].status == Active
    ensures OnlyPollsFailed(saga, w.history) ==> old(OnlyPollsFailed(saga, w.history))
  {
    hide InRun, Failures, OnlyPollsFailed, NewsOf;
    ghost var st := w.st;
    var deleted := Do(w, saga, DeleteServer(server));
    assert !deleted ==> DeleteServer(server) in Failures(saga, w.history);
    CleanupSnapshot(w, saga, snap, img);
    RestoreActive(w, saga, id);
    hide Settled, Doubled;
    if CleanupWorked(saga, w.history) {
      BackToOne(saga, st, w.st, img, server);
    }
  }

  /** Without the replacement and the image, and with the row on a server from before, the
      books balance. */
  lemma BackToOne(saga: Saga, st: State, after: State, img: ImageId, server: ServerId)
    requires Doubled(saga, st, img, server) && saga.id in saga.before.rows && saga.id in after.rows
    requires after.servers.Keys == st.servers.Keys - {server} && after.images.Keys == st.images.Keys - {img}
    requires after.rows[saga.id].serverId in {saga.before.rows[saga.id].serverId, Some(saga.oldServer)}
    ensures Settled(saga, after)
  {
  }

  /** Steps 7 to 9: with the replacement vetted, delete the old server, drop the image,
      and mark the instance active. */
  method ReleaseOldServer(w: Stores, ghost saga: Saga, id: InstanceId, oldServer: ServerId,
                          ghost server: ServerId, snap: SnapshotId, img: ImageId)
    requires InRun(saga, w) && Doubled(saga, w.st, img, server) && Vetted(saga, w.st)
    requires id == saga.id && oldServer == saga.oldServer && id in saga.before.rows
    requires snap !in saga.before.snapshots && w.st.rows[id].serverId == Some(server)
    requires saga.before.rows[id].serverId != Some(server)
    modifies w
    ensures InRun(saga, w) && old(w.history) <= w.history
    ensures NewsOf(saga, w.history) == old(NewsOf(saga, w.history))
    ensures CleanupWorked(saga, w.history) ==> Settled(saga, w.st)
    ensures id in w.st.rows
    ensures StatusWritesWorked(saga, w.history) ==> w.st.rows[id].status == Active
    ensures OnlyPollsFailed(saga, w.history) ==>
              && old(OnlyPollsFailed(saga, w.history))
              && (old(w.st).rows[id].ipv4 == Some(old(w.st).servers[server].address) ==> Replaced(saga, w.st))
  {
    hide InRun, Failures, OnlyPollsFailed, NewsOf;
    var deleted := Do(w, saga, DeleteServer(oldServer));
    assert !deleted ==> DeleteServer(oldServer) in Failures(saga, w.history);
    CleanupSnapshot(w, saga, snap, img);
    RestoreActive(w, saga, id);
  }

  /** executeUpgrade.  `inst` is the copy of the row its caller read earlier and may be
      stale; `mapping` is the target server type and `now` the time of the snapshot row.

      Whatever fails, the whole run is disciplined, so a crash between any two calls finds
      the row sound and the old server alive until its replacement was vetted.  If no
      clean-up call failed the books balance, and if no status write failed the instance
      is not left behind in `upgrading`. */
  method ExecuteUpgrade(w: Stores, id: InstanceId, inst: Instance, hasTokens: bool, mapping: string,
                        lookups: Lookups, now: nat, polls: nat)
    returns (ghost saga: Saga)
    requires RowSound(w.st, id)
    requires inst.serverId.Some? && inst.serverId.value in w.st.servers ==>
               inst.ipv4.None? || inst.ipv4 == Some(w.st.servers[inst.serverId.value].address)
    modifies w
    ensures saga.id == id && saga.plan == mapping && saga.before == old(w.st) && saga.start == |old(w.history)|
    ensures inst.serverId.Some? ==> saga.oldServer == inst.serverId.value
    ensures old(w.history) <= w.history && InRun(saga, w)
    ensures forall k :: saga.start <= k <= |w.history| ==>
              RowSound(StateBefore(saga, w.history, k), id) && Untouched(saga, StateBefore(saga, w.history, k))
    ensures saga.oldServer in old(w.st).servers && saga.oldServer !in w.st.servers ==>
              exists i :: saga.start <= i < |w.history| && w.history[i].call == DeleteServer(saga.oldServer)
                          && Vetted(saga, StateBefore(saga, w.history, i))
    ensures |w.history| > saga.start && w.history[saga.start].call == SetStatusIf(id, Active, Upgrading)
    ensures w.history[saga.start].ok ==> id in old(w.st).rows && old(w.st).rows[id].status == Active
    ensures !w.history[saga.start].ok ==> |w.history| == saga.start + 1 && w.st == old(w.st)
    ensures NoUpgradeDue(inst, hasTokens, mapping, old(w.st)) ==>
              w.st.servers.Keys == old(w.st).servers.Keys && w.st.images == old(w.st).images
    ensures id in old(w.st).rows && CleanupWorked(saga, w.history) ==> Settled(saga, w.st)
    ensures w.st.rows.Keys == old(w.st).rows.Keys
    ensures (&& id in old(w.st).rows && old(w.st).rows[id].status == Active
             && w.history[saga.start].ok && StatusWritesWorked(saga, w.history))
            ==> w.st.rows[id].status
                == if || (lookups.provider && inst.serverId.None?)
                      || ServerUnknown(saga, w.history, saga.oldServer)
                      || (RestoreFailed(saga, w.history) && !NoUpgradeDue(inst, hasTokens, mapping, old(w.st)))
                   then Error else Active
    ensures (&& id in old(w.st).rows && old(w.st).rows[id].status == Active
             && !NoUpgradeDue(inst, hasTokens, mapping, old(w.st)) && AllFound(lookups)
             && OnlyPollsFailed(saga, w.history))
            ==> && (Replaced(saga, w.st) <==> (exists k :: SaidRunning(saga, w.history, k))
                                              && (exists k :: SaidAddress(saga, w.history, k)))
                && ((exists k :: SaidRunning(saga, w.history, k)) || |Polls(saga, w.history)| == polls)
  {
    var oldServer := if inst.serverId.Some? then inst.serverId.value else 0;
    saga := Saga(id, oldServer, inst.ipv4, mapping, |w.history|, w.st);
    var claimed := Do(w, saga, SetStatusIf(id, Active, Upgrading));
    if claimed {
      ReplaceServer(w, saga, id, inst, hasTokens, mapping, lookups, now, polls);
    }
    hide Allowed, Vetted, Settled, Replaced, NoUpgradeDue, OnlyPollsFailed, NewsOf;
    NewsIsExact(saga, w.history);
    EveryCutIsSound(saga, w.history);
    hide Untouched, RowSound;
    if saga.oldServer in saga.before.servers && saga.oldServer !in w.st.servers {
      OldServerOutlivesTheChecks(saga, w.history, |w.history|);
    }
  }

  lemma EveryCutIsSound(saga: Saga, h: seq<Step>)
    requires Disciplined(saga, h) && RowSound(saga.before, saga.id)
    ensures forall k :: saga.start <= k <= |h| ==>
              RowSound(StateBefore(saga, h, k), saga.id) && Untouched(saga, StateBefore(saga, h, k))
    ensures StateBefore(saga, h, |h|).rows.Keys == saga.before.rows.Keys
  {
    forall k | saga.start <= k <= |h|
      ensures RowSound(StateBefore(saga, h, k), saga.id) && Untouched(saga, StateBefore(saga, h, k))
    {
      CrashAnywhereIsSound(saga, h, k);
    }
  }

  /** Nothing to replace: no server, a server that is gone, one that is already of the
      wanted type, or an instance without its tokens. */
  predicate NoUpgradeDue(inst: Instance, hasTokens: bool, mapping: string, st: State) {
    || inst.serverId.None? || inst.serverId.value !in st.servers || !hasTokens
    || (mapping != "" && st.servers[inst.serverId.value].plan == mapping)
  }

  /** The run once the row is claimed as `upgrading`. */
  method ReplaceServer(w: Stores, ghost saga: Saga, id: InstanceId, inst: Instance, hasTokens: bool,
                       mapping: string, lookups: Lookups, now: nat, polls: nat)
    requires InRun(saga, w) && id == saga.id && RowSound(saga.before, id) && mapping == saga.plan
    requires id in saga.before.rows && w.st == WithStatus(saga.before, id, Upgrading)
    requires inst.serverId.Some? ==> saga.oldServer == inst.serverId.value && saga.oldIp == inst.ipv4
    requires inst.serverId.Some? && inst.serverId.value in w.st.servers ==>
               inst.ipv4.None? || inst.ipv4 == Some(w.st.servers[inst.serverId.value].address)
    requires NewsOf(saga, w.history) == NO_NEWS
    modifies w
    ensures InRun(saga, w) && old(w.history) <= w.history
    ensures NoUpgradeDue(inst, hasTokens, mapping, old(w.st)) ==>
              w.st.servers.Keys == old(w.st).servers.Keys && w.st.images == old(w.st).images
    ensures CleanupWorked(saga, w.history) ==> Settled(saga, w.st)
    ensures id in w.st.rows
    ensures StatusWritesWorked(saga, w.history) ==>
              w.st.rows[id].status
              == if || (lookups.provider && inst.serverId.None?) || NewsOf(saga, w.history).unknown
                    || (NewsOf(saga, w.history).stuck && !NoUpgradeDue(inst, hasTokens, mapping, old(w.st)))
                 then Error else Active
    ensures (&& OnlyPollsFailed(saga, w.history) && AllFound(lookups)
             && !NoUpgradeDue(inst, hasTokens, mapping, old(w.st)))
            ==> Outcome(saga, w.history, w.st, polls)
  {
    hide InRun, Failures, OnlyPollsFailed, NewsOf, Outcome, RowSound, CleanupWorked;
    if !lookups.provider {
      RestoreActive(w, saga, id);
      return;
    }
    if inst.serverId.None? {
      GiveUp(w, saga, id);
      return;
    }
    ReplaceKnown(w, saga, id, inst.serverId.value, inst.ipv4, hasTokens, mapping, lookups, now, polls);
  }

  /** The run for an instance with a server. */
  method ReplaceKnown(w: Stores, ghost saga: Saga, id: InstanceId, oldServer: ServerId, oldIp: Option<Address>,
                      hasTokens: bool, mapping: string, lookups: Lookups, now: nat, polls: nat)
    requires InRun(saga, w) && id == saga.id && RowSound(saga.before, id) && mapping == saga.plan
    requires id in saga.before.rows && w.st == WithStatus(saga.before, id, Upgrading)
    requires saga.oldServer == oldServer && saga.oldIp == oldIp && OldAddressKnown(saga, saga.before)
    requires NewsOf(saga, w.history) == NO_NEWS
    modifies w
    ensures InRun(saga, w) && old(w.history) <= w.history
    ensures !Due(saga, old(w.st), hasTokens) ==>
              w.st.servers.Keys == old(w.st).servers.Keys && w.st.images == old(w.st).images
    ensures CleanupWorked(saga, w.history) ==> Settled(saga, w.st)
    ensures id in w.st.rows
    ensures StatusWritesWorked(saga, w.history) ==>
              w.st.rows[id].status
              == if NewsOf(saga, w.history).unknown
                    || (NewsOf(saga, w.history).stuck && Due(saga, old(w.st), hasTokens))
                 then Error else Active
    ensures OnlyPollsFailed(saga, w.history) && lookups.mapping && lookups.prepared && Due(saga, old(w.st), hasTokens)
            ==> Outcome(saga, w.history, w.st, polls)
  {
    hide InRun, Failures, OnlyPollsFailed, NewsOf, Outcome, RowSound, CleanupWorked;
    if !lookups.mapping {
      RestoreActive(w, saga, id);
      return;
    }
    var current := AskCurrent(w, saga, oldServer);
    if current.None? {
      GiveUp(w, saga, id);
      return;
    }
    UpgradeFrom(w, saga, id, oldServer, oldIp, current.value, hasTokens, mapping, lookups.prepared, now, polls);
  }

  /** Ask about the server that is to be replaced. */
  method AskCurrent(w: Stores, ghost saga: Saga, oldServer: ServerId) returns (reply: Option<Reply>)
    requires InRun(saga, w) && oldServer == saga.oldServer && NewsOf(saga, w.history) == NO_NEWS
    modifies w
    ensures InRun(saga, w) && old(w.history) <= w.history
    ensures w.st.rows == old(w.st).rows && w.st.images == old(w.st).images && w.st.snapshots == old(w.st).snapshots
    ensures w.st.servers.Keys == old(w.st).servers.Keys
    ensures reply.Some? ==>
              && oldServer in old(w.st).servers && NewsOf(saga, w.history) == NO_NEWS
              && reply.value.plan == old(w.st).servers[oldServer].plan
              && w.st.servers[oldServer].address == old(w.st).servers[oldServer].address
              && reply.value.ip in {None, Some(w.st.servers[oldServer].address)}
    ensures reply.None? ==> NewsOf(saga, w.history) == NO_NEWS.(unknown := true)
    ensures OnlyPollsFailed(saga, w.history) ==> old(OnlyPollsFailed(saga, w.history)) && reply.Some?
  {
    hide InRun, Failures, OnlyPollsFailed, NewsOf;
    reply := GetServer(w, saga, oldServer);
  }

  /** The instance has a server that is to be replaced. */
  predicate Due(saga: Saga, st: State, hasTokens: bool) {
    && saga.oldServer in st.servers && hasTokens
    && (saga.plan == "" || st.servers[saga.oldServer].plan != saga.plan)
  }

  /** The run once the provider has described the current server. */
  method UpgradeFrom(w: Stores, ghost saga: Saga, id: InstanceId, oldServer: ServerId, oldIp: Option<Address>,
                     current: Reply, hasTokens: bool, mapping: string, prepared: bool, now: nat, polls: nat)
    requires InRun(saga, w) && id == saga.id && RowSound(saga.before, id) && mapping == saga.plan
    requires id in saga.before.rows && oldServer == saga.oldServer && oldIp == saga.oldIp
    requires oldServer in saga.before.servers && OldAddressKnown(saga, saga.before)
    requires w.st.rows == WithStatus(saga.before, id, Upgrading).rows
    requires w.st.servers.Keys == saga.before.servers.Keys && w.st.images == saga.before.images
    requires w.st.snapshots == saga.before.snapshots
    requires current.ip.Some? ==> current.ip == Some(w.st.servers[oldServer].address)
    requires NewsOf(saga, w.history) == NO_NEWS
    modifies w
    ensures InRun(saga, w) && old(w.history) <= w.history
    ensures (mapping != "" && current.plan == mapping) || !hasTokens ==>
              w.st.servers.Keys == old(w.st).servers.Keys && w.st.images == old(w.st).images
    ensures CleanupWorked(saga, w.history) ==> Settled(saga, w.st)
    ensures id in w.st.rows
    ensures StatusWritesWorked(saga, w.history) ==>
              w.st.rows[id].status
              == if NewsOf(saga, w.history).stuck && hasTokens && (mapping == "" || current.plan != mapping)
                 then Error else Active
    ensures !NewsOf(saga, w.history).unknown
    ensures mapping != "" && current.plan == mapping && current.ip.Some? && OnlyPollsFailed(saga, w.history) ==>
              w.st.rows[id].serverId == Some(oldServer) && w.st.rows[id].ipv4 == current.ip
    ensures (&& OnlyPollsFailed(saga, w.history) && hasTokens && prepared
             && !(mapping != "" && current.plan == mapping))
            ==> Outcome(saga, w.history, w.st, polls)
  {
    hide InRun, Failures, OnlyPollsFailed, NewsOf, CleanupWorked, Replaced;
    if current.plan != "" && current.plan == mapping {
      if current.ip.Some? {
        var stored := Do(w, saga, SetProviderInfo(id, oldServer, current.ip));
      }
      RestoreActive(w, saga, id);
      return;
    }
    if !hasTokens {
      RestoreActive(w, saga, id);
      return;
    }
    BuildReplacement(w, saga, id, oldServer, oldIp, mapping, prepared, now, polls);
  }

  /** The exits that mark the instance as `error`. */
  method GiveUp(w: Stores, ghost saga: Saga, id: InstanceId)
    requires InRun(saga, w) && id == saga.id && id in w.st.rows
    modifies w
    ensures InRun(saga, w) && old(w.history) <= w.history
    ensures NewsOf(saga, w.history) == old(NewsOf(saga, w.history))
    ensures w.st == old(w.st) || w.st == WithStatus(old(w.st), id, Error)
    ensures StatusWritesWorked(saga, w.history) ==> w.st == WithStatus(old(w.st), id, Error)
    ensures OnlyPollsFailed(saga, w.history) ==> old(OnlyPollsFailed(saga, w.history))
    ensures Failures(saga, w.history) >= old(Failures(saga, w.history))
  {
    var marked := Do(w, saga, SetStatus(id, Error));
    assert !marked ==> SetStatus(id, Error) in Failures(saga, w.history);
  }

  /** Step 2: a system snapshot of the old server.  On an error there is neither an image
      nor a row that claims one. */
  method TakeSnapshot(w: Stores, ghost saga: Saga, id: InstanceId, oldServer: ServerId, now: nat)
    returns (snap: SnapshotId, img: Option<ImageId>)
    requires InRun(saga, w) && id == saga.id && oldServer in w.st.servers
    requires w.st.images == saga.before.images && w.st.snapshots == saga.before.snapshots
    modifies w
    ensures InRun(saga, w) && old(w.history) <= w.history
    ensures NewsOf(saga, w.history) == old(NewsOf(saga, w.history))
    ensures w.st.rows == old(w.st).rows && w.st.servers == old(w.st).servers
    ensures snap !in saga.before.snapshots
    ensures w.st.snapshots - {snap} == old(w.st).snapshots
    ensures snap in w.st.snapshots ==>
              w.st.snapshots[snap] in {Snapshot(id, None, Creating, true, now), Snapshot(id, None, Failed, true, now)}
    ensures img.Some? ==> snap in w.st.snapshots && w.st.snapshots[snap].status == Creating
    ensures img.None? && snap in w.st.snapshots ==>
              w.st.snapshots[snap].status == Failed || SetSnapshotStatus(snap, Failed) in Failures(saga, w.history)
    ensures OnlyPollsFailed(saga, w.history) ==> old(OnlyPollsFailed(saga, w.history)) && img.Some?
    ensures img.None? ==> w.st.images == saga.before.images
    ensures img.Some? ==>
              && img.value !in saga.before.images
              && w.st.images.Keys == saga.before.images.Keys + {img.value}
              && w.st.images[img.value].source == oldServer
  {
    hide InRun, Failures, OnlyPollsFailed, NewsOf;
    snap := FreshId(w.st.snapshots.Keys);
    img := None;
    var inserted := Do(w, saga, InsertSnapshot(snap, id, true, now));
    if inserted {
      img := TakeImage(w, saga, oldServer, snap);
    }
  }

  /** The image of the server, or a note in the snapshot row that there is none. */
  method TakeImage(w: Stores, ghost saga: Saga, oldServer: ServerId, snap: SnapshotId) returns (img: Option<ImageId>)
    requires InRun(saga, w) && oldServer in w.st.servers && w.st.images == saga.before.images
    requires snap !in saga.before.snapshots && snap in w.st.snapshots
    modifies w
    ensures InRun(saga, w) && old(w.history) <= w.history
    ensures NewsOf(saga, w.history) == old(NewsOf(saga, w.history))
    ensures w.st.rows == old(w.st).rows && w.st.servers == old(w.st).servers
    ensures w.st.snapshots == old(w.st).snapshots
            || (img.None?
                && w.st.snapshots == old(w.st).snapshots[snap := old(w.st).snapshots[snap].(status := Failed)])
    ensures snap in w.st.snapshots
    ensures img.None? ==>
              w.st.snapshots[snap].status == Failed || SetSnapshotStatus(snap, Failed) in Failures(saga, w.history)
    ensures OnlyPollsFailed(saga, w.history) ==> old(OnlyPollsFailed(saga, w.history)) && img.Some?
    ensures img.None? ==> w.st.images == saga.before.images
    ensures img.Some? ==>
              && img.value !in saga.before.images
              && w.st.images.Keys == saga.before.images.Keys + {img.value}
              && w.st.images[img.value].source == oldServer
  {
    hide InRun, Failures, OnlyPollsFailed, NewsOf;
    var image := FreshId(w.st.images.Keys);
    var imaged := Do(w, saga, CreateImage(image, oldServer));
    if !imaged {
      var noted := Do(w, saga, SetSnapshotStatus(snap, Failed));
      assert !noted ==> SetSnapshotStatus(snap, Failed) in Failures(saga, w.history);
      return None;
    }
    return Some(image);
  }

  /** The exits before there is an image. */
  method NothingBuilt(w: Stores, ghost saga: Saga, id: InstanceId)
    requires InRun(saga, w) && id == saga.id && id in saga.before.rows && id in w.st.rows
    requires w.st.rows[id].serverId == saga.before.rows[id].serverId
    requires w.st.servers.Keys == saga.before.servers.Keys && w.st.images.Keys == saga.before.images.Keys
    modifies w
    ensures InRun(saga, w) && old(w.history) <= w.history
    ensures NewsOf(saga, w.history) == old(NewsOf(saga, w.history))
    ensures Settled(saga, w.st) && id in w.st.rows
    ensures StatusWritesWorked(saga, w.history) ==> w.st.rows[id].status == Active
    ensures OnlyPollsFailed(saga, w.history) ==> old(OnlyPollsFailed(saga, w.history))
  {
    hide InRun, Failures, OnlyPollsFailed, NewsOf;
    RestoreActive(w, saga, id);
  }

  /** The exits between the image and the replacement: drop the image, go back to active. */
  method AbandonSnapshot(w: Stores, ghost saga: Saga, id: InstanceId, snap: SnapshotId, img: ImageId)
    requires InRun(saga, w) && id == saga.id && id in saga.before.rows && id in w.st.rows
    requires snap !in saga.before.snapshots && img !in saga.before.images
    requires w.st.rows[id].serverId == saga.before.rows[id].serverId
    requires w.st.servers.Keys == saga.before.servers.Keys
    requires w.st.images.Keys == saga.before.images.Keys + {img}
    modifies w
    ensures InRun(saga, w) && old(w.history) <= w.history
    ensures NewsOf(saga, w.history) == old(NewsOf(saga, w.history))
    ensures CleanupWorked(saga, w.history) ==> Settled(saga, w.st)
    ensures id in w.st.rows
    ensures StatusWritesWorked(saga, w.history) ==> w.st.rows[id].status == Active
    ensures OnlyPollsFailed(saga, w.history) ==> old(OnlyPollsFailed(saga, w.history))
  {
    hide InRun, Failures, OnlyPollsFailed, NewsOf;
    CleanupSnapshot(w, saga, snap, img);
    RestoreActive(w, saga, id);
  }

  /** Steps 2 to 4: the snapshot, its row, and the server built from its image. */
  method BuildReplacement(w: Stores, ghost saga: Saga, id: InstanceId, oldServer: ServerId,
                          oldIp: Option<Address>, mapping: string, prepared: bool, now: nat, polls: nat)
    requires InRun(saga, w) && id == saga.id && RowSound(saga.before, id)
    requires id in saga.before.rows && oldServer == saga.oldServer && oldIp == saga.oldIp
    requires oldServer in saga.before.servers && OldAddressKnown(saga, saga.before) && mapping == saga.plan
    requires w.st.rows == WithStatus(saga.before, id, Upgrading).rows
    requires w.st.servers.Keys == saga.before.servers.Keys && w.st.images == saga.before.images
    requires w.st.snapshots == saga.before.snapshots
    requires NewsOf(saga, w.history) == NO_NEWS
    modifies w
    ensures InRun(saga, w) && old(w.history) <= w.history
    ensures CleanupWorked(saga, w.history) ==> Settled(saga, w.st)
    ensures id in w.st.rows
    ensures !NewsOf(saga, w.history).unknown
    ensures StatusWritesWorked(saga, w.history) ==>
              w.st.rows[id].status == if NewsOf(saga, w.history).stuck then Error else Active
    ensures OnlyPollsFailed(saga, w.history) && prepared ==> Outcome(saga, w.history, w.st, polls)
  {
    hide InRun, Failures, Settled, CleanupWorked, OnlyPollsFailed, NewsOf, Outcome;
    var snap, image := TakeSnapshot(w, saga, id, oldServer, now);
    if image.None? {
      NothingBuilt(w, saga, id);
      return;
    }
    var img := image.value;
    var stored := Do(w, saga, SetSnapshotReady(snap, img));
    if !stored || !prepared {
      AbandonSnapshot(w, saga, id, snap, img);
      return;
    }
    BuildFrom(w, saga, id, oldServer, oldIp, mapping, snap, img, polls);
  }

  /** Step 4: the server built from the image. */
  method BuildFrom(w: Stores, ghost saga: Saga, id: InstanceId, oldServer: ServerId, oldIp: Option<Address>,
                   mapping: string, snap: SnapshotId, img: ImageId, polls: nat)
    requires InRun(saga, w) && id == saga.id && RowSound(saga.before, id)
    requires id in saga.before.rows && oldServer == saga.oldServer && oldIp == saga.oldIp
    requires oldServer in saga.before.servers && OldAddressKnown(saga, saga.before) && mapping == saga.plan
    requires w.st.rows == WithStatus(saga.before, id, Upgrading).rows
    requires w.st.servers.Keys == saga.before.servers.Keys && snap !in saga.before.snapshots
    requires img !in saga.before.images && w.st.images.Keys == saga.before.images.Keys + {img}
    requires w.st.images[img].source == oldServer
    requires NewsOf(saga, w.history) == NO_NEWS
    modifies w
    ensures InRun(saga, w) && old(w.history) <= w.history
    ensures CleanupWorked(saga, w.history) ==> Settled(saga, w.st)
    ensures id in w.st.rows
    ensures !NewsOf(saga, w.history).unknown
    ensures StatusWritesWorked(saga, w.history) ==>
              w.st.rows[id].status == if NewsOf(saga, w.history).stuck then Error else Active
    ensures OnlyPollsFailed(saga, w.history) ==>
              old(OnlyPollsFailed(saga, w.history)) && Outcome(saga, w.history, w.st, polls)
  {
    hide InRun, Failures, Settled, CleanupWorked, OnlyPollsFailed, NewsOf, Outcome;
    var server := FreshId(w.st.servers.Keys);
    var address: Address, withAddress: bool := *, *;
    var built := Do(w, saga, CreateServer(server, address, mapping, img, withAddress));
    if !built {
      AbandonSnapshot(w, saga, id, snap, img);
      return;
    }
    AdoptReplacement(w, saga, id, oldServer, oldIp, server, if withAddress then Some(address) else None,
                     snap, img, polls);
  }
}
