/** Finalising a Codex link (backend/internal/api/codex.go).  Several backend processes
    may notice the same fresh login; the gateway must be restarted for it only once.  A
    finaliser takes a Postgres advisory lock, checks again under the lock whether the link
    is already recorded, restarts the gateway, waits for health and records the link. */
module Codex {
  import opened Options

  /** Where a finaliser is. */
  datatype Point = TryLock | Recheck | Configure | Restart | Poll | Persist | Unlock | Gone

  /** The outcome of its next call. */
  datatype Event =
    | LockAnswer(acquired: bool) | LockError
    | CheckAnswer(complete: bool) | CheckError
    | Configured(ok: bool) | Restarted(ok: bool)
    | Polled(healthy: bool) | PollTimedOut
    | Persisted(ok: bool) | Unlocked

  /** The program of finaliseCodexLink; the deferred unlock follows every exit once the
      lock is held.  Only Hermes instances are configured first. */
  function Advance(at: Point, hermes: bool, e: Event): Option<Point> {
    match (at, e)
    case (TryLock, LockAnswer(acquired)) => Some(if acquired then Recheck else Gone)
    case (TryLock, LockError) => Some(Gone)
    case (Recheck, CheckAnswer(complete)) =>
      Some(if complete then Unlock else if hermes then Configure else Restart)
    case (Recheck, CheckError) => Some(Unlock)
    case (Configure, Configured(ok)) => Some(if ok then Restart else Unlock)
    case (Restart, Restarted(ok)) => Some(if ok then Poll else Unlock)
    case (Poll, Polled(healthy)) => Some(if healthy then Persist else Poll)
    case (Poll, PollTimedOut) => Some(Unlock)
    case (Persist, Persisted(_)) => Some(Unlock)
    case (Unlock, Unlocked) => Some(Gone)
    case _ => None
  }

  /** What is recorded of the link in the instance row. */
  datatype Link = Link(linked: bool, reauthRequired: bool)

  /** codexFinalisationComplete. */
  predicate Complete(link: Link) {
    link.linked && !link.reauthRequired
  }

  /** SetCodexLinkState with a time: the stale-auth error goes with it.  Without one it
      clears the link and leaves the error. */
  function Linked(link: Link): Link { Link(true, false) }
  function Unlinked(link: Link): Link { link.(linked := false) }

  datatype Mark = Spawned(who: nat) | Did(who: nat, e: Event) | LinkCleared | ReauthReported | Other

  predicate GatewayRestart(m: Mark) { m.Did? && m.e.Restarted? }
  predicate LinkPersisted(m: Mark) { m.Did? && m.e == Persisted(true) }

  /** The row, the holder of the advisory lock, the live finalisers on all processes, and
      the log of what has happened. */
  datatype State = State(hermes: bool, link: Link, lock: Option<nat>, finalisers: map<nat, Point>, log: seq<Mark>)

  datatype Action =
    | Spawn(f: nat)                     // a status poll that saw LINKED, in any process
    | Do(f: nat, e: Event)
    | Crash(f: nat)                     // the process dies; Postgres drops its lock
    | Unlink
    | Heartbeat(reauthRequired: bool)   // overwrites agent_error
    | SelfHeal                          // the Hermes heartbeat records a link it finds active

  /** The stores answer truthfully: the lock is granted only when free, and the recheck
      returns what is recorded. */
  predicate Truthful(s: State, e: Event) {
    && (e == LockAnswer(true) ==> s.lock.None?)
    && (e.CheckAnswer? ==> e.complete == Complete(s.link))
  }

  function DoStep(s: State, f: nat, e: Event): Option<State>
    requires f in s.finalisers
  {
    var next := Advance(s.finalisers[f], s.hermes, e);
    if next.None? || !Truthful(s, e) then None
    else Some(s.(
      link := if e == Persisted(true) then Linked(s.link) else s.link,
      lock := if e == LockAnswer(true) then Some(f) else if e == Unlocked then None else s.lock,
      finalisers := if next.value == Gone then s.finalisers - {f} else s.finalisers[f := next.value],
      log := s.log + [Did(f, e)]))
  }

  function Next(s: State, a: Action): Option<State> {
    match a
    case Spawn(f) =>
      if f in s.finalisers then None
      else Some(s.(finalisers := s.finalisers[f := TryLock], log := s.log + [Spawned(f)]))
    case Do(f, e) => if f in s.finalisers then DoStep(s, f, e) else None
    case Crash(f) =>
      if f !in s.finalisers then None
      else Some(s.(finalisers := s.finalisers - {f}, lock := if s.lock == Some(f) then None else s.lock,
                   log := s.log + [Other]))
    case Unlink => Some(s.(link := Unlinked(s.link), log := s.log + [LinkCleared]))
    case Heartbeat(required) =>
      Some(s.(link := s.link.(reauthRequired := required), log := s.log + [if required then ReauthReported else Other]))
    case SelfHeal => if s.hermes then Some(s.(link := Linked(s.link), log := s.log + [Other])) else None
  }

  function Init(hermes: bool, link: Link): State {
    State(hermes, link, None, map[], [])
  }

  function Run(s: State, actions: seq<Action>): Option<State>
    decreases |actions|
  {
    if actions == [] then Some(s)
    else
      var last := |actions| - 1;
      var before := Run(s, actions[..last]);
      if before.None? then None else Next(before.value, actions[last])
  }

  // ---------------------------------------------------------------------------

  predicate Inside(at: Point) {
    at in {Recheck, Configure, Restart, Poll, Persist, Unlock}
  }

  /** No link persisted so far, or an unlink or a re-auth report since the last one. */
  predicate Reopened(log: seq<Mark>) {
    if log == [] then true
    else
      var last := log[|log| - 1];
      if LinkPersisted(last) then false
      else last in {LinkCleared, ReauthReported} || Reopened(log[..|log| - 1])
  }

  predicate RestartsJustified(log: seq<Mark>) {
    log != [] ==>
      var before := log[..|log| - 1];
      RestartsJustified(before) && (GatewayRestart(log[|log| - 1]) ==> Reopened(before))
  }

  /** Only the holder of the lock is inside; a persisted link that has not been reopened
      is still recorded; whoever is about to restart found it reopened. */
  ghost predicate Inv(s: State) {
    && (forall f :: f in s.finalisers && Inside(s.finalisers[f]) ==> s.lock == Some(f))
    && (forall f :: f in s.finalisers ==> s.finalisers[f] != Gone)
    && (!Reopened(s.log) ==> Complete(s.link))
    && (forall f :: f in s.finalisers && s.finalisers[f] in {Configure, Restart} ==> Reopened(s.log))
    && RestartsJustified(s.log)
  }

  /** What an event says about where the finaliser was and is. */
  lemma PointMoves(at: Point, hermes: bool, e: Event)
    requires Advance(at, hermes, e).Some? && at != Gone
    ensures var next := Advance(at, hermes, e).value;
      && (Inside(next) <==> (Inside(at) && e != Unlocked) || e == LockAnswer(true))
      && (next in {Configure, Restart} ==> at == Configure || e == CheckAnswer(false))
      && (e.CheckAnswer? ==> Inside(at)) && (e.Persisted? ==> Inside(at) && next == Unlock)
      && (e.Restarted? ==> at == Restart) && (e == Unlocked ==> Inside(at) && next == Gone)
  {
  }

  lemma DoKeepsInv(s: State, f: nat, e: Event)
    requires Inv(s) && f in s.finalisers && DoStep(s, f, e).Some?
    ensures Inv(DoStep(s, f, e).value)
  {
    hide Advance;
    var s' := DoStep(s, f, e).value;
    assert s'.log[..|s'.log| - 1] == s.log;
    PointMoves(s.finalisers[f], s.hermes, e);
  }

  lemma OtherKeepsInv(s: State, a: Action)
    requires Inv(s) && !a.Do? && Next(s, a).Some?
    ensures Inv(Next(s, a).value)
  {
    hide Advance, DoStep;
    var s' := Next(s, a).value;
    assert s'.log[..|s'.log| - 1] == s.log;
  }

  lemma StepKeepsInv(s: State, a: Action)
    requires Inv(s) && Next(s, a).Some?
    ensures Inv(Next(s, a).value)
  {
    hide Inv;
    if a.Do? {
      DoKeepsInv(s, a.f, a.e);
    } else {
      OtherKeepsInv(s, a);
    }
  }

  lemma {:induction false} RunKeepsInv(s: State, actions: seq<Action>)
    requires Inv(s) && Run(s, actions).Some?
    ensures Inv(Run(s, actions).value)
    decreases |actions|
  {
    hide Inv, Next;
    if actions != [] {
      var last := |actions| - 1;
      RunKeepsInv(s, actions[..last]);
      StepKeepsInv(Run(s, actions[..last]).value, actions[last]);
    }
  }

  /** Two finalisers of one instance are never both inside the lock, whatever the
      processes, crashes and polls. */
  lemma OneFinaliserInside(hermes: bool, link: Link, actions: seq<Action>, f: nat, g: nat)
    requires Run(Init(hermes, link), actions).Some?
    requires var s := Run(Init(hermes, link), actions).value;
      f in s.finalisers && g in s.finalisers && Inside(s.finalisers[f]) && Inside(s.finalisers[g])
    ensures f == g
  {
    RunKeepsInv(Init(hermes, link), actions);
  }

  lemma {:induction false} ReopenedSince(log: seq<Mark>, i: nat)
    requires Reopened(log) && i < |log| && LinkPersisted(log[i])
    ensures exists k :: i < k < |log| && log[k] in {LinkCleared, ReauthReported}
  {
    var last := |log| - 1;
    if log[last] !in {LinkCleared, ReauthReported} {
      ReopenedSince(log[..last], i);
      var k :| i < k < last && log[..last][k] in {LinkCleared, ReauthReported};
      assert log[k] in {LinkCleared, ReauthReported};
    }
  }

  lemma {:induction false} JustifiedBetween(log: seq<Mark>, i: nat, j: nat)
    requires RestartsJustified(log) && i < j < |log| && LinkPersisted(log[i]) && GatewayRestart(log[j])
    ensures exists k :: i < k < j && log[k] in {LinkCleared, ReauthReported}
  {
    var last := |log| - 1;
    if j < last {
      JustifiedBetween(log[..last], i, j);
      var k :| i < k < j && log[..last][k] in {LinkCleared, ReauthReported};
      assert log[k] in {LinkCleared, ReauthReported};
    } else {
      ReopenedSince(log[..last], i);
      var k :| i < k < last && log[..last][k] in {LinkCleared, ReauthReported};
      assert log[k] in {LinkCleared, ReauthReported};
    }
  }

  /** Once a finaliser has persisted the link, no finaliser anywhere restarts the gateway
      again before an unlink or a heartbeat reporting codex_reauth_required. */
  lemma NoSecondRestart(hermes: bool, link: Link, actions: seq<Action>, i: nat, j: nat)
    requires Run(Init(hermes, link), actions).Some?
    requires var log := Run(Init(hermes, link), actions).value.log;
      i < j < |log| && LinkPersisted(log[i]) && GatewayRestart(log[j])
    ensures var log := Run(Init(hermes, link), actions).value.log;
      exists k :: i < k < j && log[k] in {LinkCleared, ReauthReported}
  {
    RunKeepsInv(Init(hermes, link), actions);
    JustifiedBetween(Run(Init(hermes, link), actions).value.log, i, j);
  }

  // ---------------------------------------------------------------------------
  // The order of a finaliser's calls

  function Walk(at: Point, hermes: bool, trace: seq<Event>): Option<Point> {
    if trace == [] then Some(at)
    else
      var last := |trace| - 1;
      var before := Walk(at, hermes, trace[..last]);
      if before.None? then None else Advance(before.value, hermes, trace[last])
  }

  lemma Emit(hermes: bool, trace: seq<Event>, e: Event) returns (longer: seq<Event>)
    requires Walk(TryLock, hermes, trace).Some? && Advance(Walk(TryLock, hermes, trace).value, hermes, e).Some?
    ensures longer == trace + [e]
    ensures Walk(TryLock, hermes, longer) == Advance(Walk(TryLock, hermes, trace).value, hermes, e)
  {
    longer := trace + [e];
    assert longer[..|trace|] == trace;
  }

  lemma NoEventsYet(hermes: bool)
    ensures Walk(TryLock, hermes, []) == Some(TryLock)
  {
  }

  /** What can come right after what: the recheck after the lock, the agent configuration of
      a Hermes instance after a recheck that found the link open, the restart after that
      (or, for OpenClaw, right after the recheck), the polls after a restart that worked, the
      link after a healthy poll, and the unlock after whatever ended it. */
  predicate MayFollow(hermes: bool, previous: Option<Event>, e: Event) {
    match e
    case LockAnswer(_) => previous.None?
    case LockError => previous.None?
    case CheckAnswer(_) => previous == Some(LockAnswer(true))
    case CheckError => previous == Some(LockAnswer(true))
    case Configured(_) => hermes && previous == Some(CheckAnswer(false))
    case Restarted(_) => previous == Some(if hermes then Configured(true) else CheckAnswer(false))
    case Polled(_) => previous in {Some(Restarted(true)), Some(Polled(false))}
    case PollTimedOut => previous in {Some(Restarted(true)), Some(Polled(false))}
    case Persisted(_) => previous == Some(Polled(true))
    case Unlocked =>
      previous in {Some(CheckError), Some(CheckAnswer(true)), Some(Configured(false)), Some(Restarted(false)),
                   Some(PollTimedOut), Some(Persisted(true)), Some(Persisted(false))}
  }

  function Before(trace: seq<Event>, k: nat): Option<Event>
    requires k <= |trace|
  {
    if k == 0 then None else Some(trace[k - 1])
  }

  predicate Ordered(hermes: bool, trace: seq<Event>) {
    forall k :: 0 <= k < |trace| ==> MayFollow(hermes, Before(trace, k), trace[k])
  }

  /** Where a finaliser is after its last event. */
  function PointAfter(hermes: bool, last: Option<Event>): Point {
    match last
    case None => TryLock
    case Some(LockAnswer(true)) => Recheck
    case Some(CheckAnswer(false)) => if hermes then Configure else Restart
    case Some(Configured(true)) => Restart
    case Some(Restarted(true)) => Poll
    case Some(Polled(healthy)) => if healthy then Persist else Poll
    case Some(LockAnswer(false)) => Gone
    case Some(LockError) => Gone
    case Some(Unlocked) => Gone
    case _ => Unlock
  }

  lemma AdvanceIsTheOrder(hermes: bool, last: Option<Event>, e: Event)
    requires last.Some? && last.value.Configured? ==> hermes
    ensures MayFollow(hermes, last, e) <==> Advance(PointAfter(hermes, last), hermes, e).Some?
    ensures MayFollow(hermes, last, e) ==>
              Advance(PointAfter(hermes, last), hermes, e) == Some(PointAfter(hermes, Some(e)))
  {
  }

  /** A finaliser's program allows exactly the ordered sequences of calls. */
  lemma {:induction false} OrderIsExact(hermes: bool, trace: seq<Event>)
    ensures Walk(TryLock, hermes, trace)
            == if Ordered(hermes, trace) then Some(PointAfter(hermes, Before(trace, |trace|))) else None
  {
    if trace != [] {
      var last := |trace| - 1;
      var init := trace[..last];
      OrderIsExact(hermes, init);
      OrderedMore(hermes, trace);
      if Ordered(hermes, init) {
        OnlyHermesConfigures(hermes, init);
        hide MayFollow, PointAfter, Advance, Ordered;
        AdvanceIsTheOrder(hermes, Before(init, last), trace[last]);
      }
    }
  }

  lemma OrderedMore(hermes: bool, trace: seq<Event>)
    requires trace != []
    ensures var last := |trace| - 1;
      Ordered(hermes, trace) <==>
        Ordered(hermes, trace[..last]) && MayFollow(hermes, Before(trace[..last], last), trace[last])
  {
    hide MayFollow;
    var last := |trace| - 1;
    var init := trace[..last];
    BeforeInPart(trace, last, last);
    forall k | 0 <= k < last
      ensures MayFollow(hermes, Before(trace, k), trace[k]) <==> MayFollow(hermes, Before(init, k), init[k])
    {
      BeforeInPart(trace, last, k);
    }
    hide Before;
  }

  lemma BeforeInPart(trace: seq<Event>, n: nat, k: nat)
    requires k <= n <= |trace|
    ensures Before(trace[..n], k) == Before(trace, k)
  {
  }

  lemma OnlyHermesConfigures(hermes: bool, trace: seq<Event>)
    requires Ordered(hermes, trace)
    ensures forall k :: 0 <= k < |trace| && trace[k].Configured? ==> hermes
  {
  }

  /** The calls of a finaliser since it was started. */
  function Own(log: seq<Mark>, f: nat): seq<Event> {
    if log == [] then []
    else
      var init, last := log[..|log| - 1], log[|log| - 1];
      if last == Spawned(f) then []
      else if last.Did? && last.who == f then Own(init, f) + [last.e]
      else Own(init, f)
  }

  /** Every finaliser is where its calls have led it, now and at every earlier call. */
  ghost predicate InOrder(s: State) {
    && (forall f :: f in s.finalisers ==> Walk(TryLock, s.hermes, Own(s.log, f)) == Some(s.finalisers[f]))
    && LogInOrder(s.hermes, s.log)
  }

  ghost predicate LogInOrder(hermes: bool, log: seq<Mark>) {
    forall j :: 0 <= j < |log| && log[j].Did? ==> Walk(TryLock, hermes, Own(log[..j + 1], log[j].who)).Some?
  }

  lemma OneMore(log: seq<Mark>, m: Mark, f: nat)
    ensures Own(log + [m], f)
            == if m == Spawned(f) then []
               else if m.Did? && m.who == f then Own(log, f) + [m.e] else Own(log, f)
  {
    assert (log + [m])[..|log|] == log;
  }

  lemma WalkMore(hermes: bool, trace: seq<Event>, e: Event)
    requires Walk(TryLock, hermes, trace).Some?
    ensures Walk(TryLock, hermes, trace + [e]) == Advance(Walk(TryLock, hermes, trace).value, hermes, e)
  {
    assert (trace + [e])[..|trace|] == trace;
  }

  lemma StepKeepsOrder(s: State, a: Action)
    requires InOrder(s) && Next(s, a).Some?
    ensures InOrder(Next(s, a).value)
  {
    var s' := Next(s, a).value;
    var m := s'.log[|s.log|];
    assert s'.log == s.log + [m] && s'.hermes == s.hermes;
    assert m.Did? ==> a == Do(m.who, m.e) && m.who in s.finalisers;
    if m.Did? {
      WalkMore(s.hermes, Own(s.log, m.who), m.e);
    }
    NoEventsYet(s.hermes);
    FinalisersMove(s, a);
    hide Walk, Own, Advance, LogInOrder, Next;
    if m.Did? {
      OneMore(s.log, m, m.who);
    }
    LogStaysInOrder(s.hermes, s.log, m);
    forall f | f in s'.finalisers ensures Walk(TryLock, s.hermes, Own(s'.log, f)) == Some(s'.finalisers[f]) {
      OneMore(s.log, m, f);
    }
  }

  /** Only the finaliser that is started or makes a call is somewhere else than before. */
  lemma FinalisersMove(s: State, a: Action)
    requires Next(s, a).Some?
    ensures var s' := Next(s, a).value;
      && s'.hermes == s.hermes && |s'.log| == |s.log| + 1 && s'.log[..|s.log|] == s.log
      && var m := s'.log[|s.log|];
      && forall f :: f in s'.finalisers ==>
           if m == Spawned(f) then s'.finalisers[f] == TryLock
           else if m.Did? && m.who == f then
             f in s.finalisers && Some(s'.finalisers[f]) == Advance(s.finalisers[f], s.hermes, m.e)
           else f in s.finalisers && s'.finalisers[f] == s.finalisers[f]
  {
    hide Advance;
  }

  lemma LogStaysInOrder(hermes: bool, log: seq<Mark>, m: Mark)
    requires LogInOrder(hermes, log)
    requires m.Did? ==> Walk(TryLock, hermes, Own(log + [m], m.who)).Some?
    ensures LogInOrder(hermes, log + [m])
  {
    hide Walk, Own;
    var longer := log + [m];
    forall j | 0 <= j < |longer| && longer[j].Did?
      ensures Walk(TryLock, hermes, Own(longer[..j + 1], longer[j].who)).Some?
    {
      if j < |log| {
        assert longer[..j + 1] == log[..j + 1];
      } else {
        assert longer[..j + 1] == longer;
      }
    }
  }

  lemma {:induction false} RunKeepsOrder(hermes: bool, link: Link, actions: seq<Action>)
    requires Run(Init(hermes, link), actions).Some?
    ensures InOrder(Run(Init(hermes, link), actions).value)
    ensures Run(Init(hermes, link), actions).value.hermes == hermes
    decreases |actions|
  {
    if actions != [] {
      var last := |actions| - 1;
      hide Walk, Own;
      RunKeepsOrder(hermes, link, actions[..last]);
      hide InOrder;
      StepKeepsOrder(Run(Init(hermes, link), actions[..last]).value, actions[last]);
    }
  }

  /** The last call of a finaliser, in the log. */
  lemma {:induction false} LastOwn(log: seq<Mark>, f: nat)
    requires Own(log, f) != []
    ensures exists i :: LastCall(log, f, i) && log[i].e == Own(log, f)[|Own(log, f)| - 1]
  {
    var last := |log| - 1;
    if log[last].Did? && log[last].who == f {
      assert LastCall(log, f, last);
    } else {
      LastOwn(log[..last], f);
      var i :| LastCall(log[..last], f, i) && log[..last][i].e == Own(log, f)[|Own(log, f)| - 1];
      assert LastCall(log, f, i);
    }
  }

  /** The finaliser made this call and has since done nothing else, nor been started anew. */
  predicate LastCall(log: seq<Mark>, f: nat, i: int) {
    && 0 <= i < |log| && log[i].Did? && log[i].who == f
    && forall k :: i < k < |log| ==> log[k] != Spawned(f) && !(log[k].Did? && log[k].who == f)
  }

  /** In every run, with any number of processes, polls and crashes: each call of a finaliser
      is its first, or comes right after a call of its own that it may follow. */
  lemma EveryCallInOrder(hermes: bool, link: Link, actions: seq<Action>, j: nat)
    requires Run(Init(hermes, link), actions).Some?
    requires var log := Run(Init(hermes, link), actions).value.log; j < |log| && log[j].Did?
    ensures var log := Run(Init(hermes, link), actions).value.log;
      || MayFollow(hermes, None, log[j].e)
      || exists i :: LastCall(log[..j], log[j].who, i) && MayFollow(hermes, Some(log[i].e), log[j].e)
  {
    RunKeepsOrder(hermes, link, actions);
    hide Run, LogInOrder, LastCall, MayFollow;
    PastCall(hermes, Run(Init(hermes, link), actions).value.log, j);
  }

  lemma PastCall(hermes: bool, log: seq<Mark>, j: nat)
    requires LogInOrder(hermes, log) && j < |log| && log[j].Did?
    ensures || MayFollow(hermes, None, log[j].e)
            || exists i :: LastCall(log[..j], log[j].who, i) && MayFollow(hermes, Some(log[i].e), log[j].e)
  {
    var f, e := log[j].who, log[j].e;
    var trace := Own(log[..j], f);
    assert log[..j + 1] == log[..j] + [log[j]];
    OneMore(log[..j], log[j], f);
    hide Own, LogInOrder, LastCall, MayFollow;
    LastMayFollow(hermes, trace, e);
    hide Walk;
    if trace != [] {
      LastOwn(log[..j], f);
      hide Ordered, Advance;
      var i := LastCallOf(log[..j], f, trace[|trace| - 1]);
      assert log[..j][i] == log[i];
    }
  }

  lemma LastCallOf(log: seq<Mark>, f: nat, e: Event) returns (i: nat)
    requires exists i :: LastCall(log, f, i) && log[i].e == e
    ensures LastCall(log, f, i) && i < |log| && log[i].Did? && log[i].e == e
  {
    i :| LastCall(log, f, i) && log[i].e == e;
  }

  lemma LastMayFollow(hermes: bool, trace: seq<Event>, e: Event)
    requires Walk(TryLock, hermes, trace + [e]).Some?
    ensures MayFollow(hermes, Before(trace, |trace|), e)
  {
    OrderIsExact(hermes, trace + [e]);
    hide Walk, MayFollow;
    assert (trace + [e])[|trace|] == e && Before(trace + [e], |trace|) == Before(trace, |trace|);
  }

  /** In every run, each restart of a Hermes gateway comes right after a configuration of the
      agent by the same finaliser that worked; and an OpenClaw agent is never configured. */
  lemma ConfiguredBeforeEveryRestart(link: Link, actions: seq<Action>, hermes: bool, j: nat)
    requires Run(Init(hermes, link), actions).Some? && j < |Run(Init(hermes, link), actions).value.log|
    ensures var log := Run(Init(hermes, link), actions).value.log;
      && (hermes && GatewayRestart(log[j]) ==>
            exists i :: LastCall(log[..j], log[j].who, i) && log[i].e == Configured(true))
      && (log[j].Did? && log[j].e.Configured? ==> hermes)
  {
    var log := Run(Init(hermes, link), actions).value.log;
    if log[j].Did? {
      EveryCallInOrder(hermes, link, actions, j);
      hide LastCall, Run;
      if hermes && GatewayRestart(log[j]) {
        var i :| LastCall(log[..j], log[j].who, i) && MayFollow(hermes, Some(log[i].e), log[j].e);
      }
    }
  }

  // ---------------------------------------------------------------------------
  // The code of one process

  predicate Restarts(trace: seq<Event>) {
    Restarted(true) in trace || Restarted(false) in trace
  }

  predicate NotPolled(trace: seq<Event>) {
    Polled(true) !in trace && Polled(false) !in trace
  }

  /** What the order means for the configuration of the agent. */
  lemma ConfiguredFirst(hermes: bool, trace: seq<Event>)
    requires Walk(TryLock, hermes, trace).Some?
    ensures Ordered(hermes, trace)
    ensures if hermes then Restarts(trace) ==> Configured(true) in trace
            else Configured(true) !in trace && Configured(false) !in trace
  {
    OrderIsExact(hermes, trace);
    hide Walk, PointAfter;
    if Restarted(true) in trace {
      AfterSomething(hermes, trace, Restarted(true));
    }
    if Restarted(false) in trace {
      AfterSomething(hermes, trace, Restarted(false));
    }
    if Configured(true) in trace {
      AfterSomething(hermes, trace, Configured(true));
    }
    if Configured(false) in trace {
      AfterSomething(hermes, trace, Configured(false));
    }
  }

  lemma AfterSomething(hermes: bool, trace: seq<Event>, e: Event)
    requires Ordered(hermes, trace) && e in trace && (e.Restarted? || e.Configured?)
    ensures e.Configured? ==> hermes
    ensures e.Restarted? && hermes ==> Configured(true) in trace
  {
    var k :| 0 <= k < |trace| && trace[k] == e;
    assert MayFollow(hermes, Before(trace, k), trace[k]);
  }

  /** The row and the advisory lock as one process sees them. */
  class Stores {
    var link: Link
    var lock: Option<nat>
    ghost var trouble: nat      // calls that failed so far, other than polls

    method Chance() returns (ok: bool)
      modifies this`trouble
      ensures trouble == if ok then old(trouble) else old(trouble) + 1
    {
      ok := *;
      trouble := if ok then trouble else trouble + 1;
    }

    /** finaliseCodexLink run by `me`, with nobody else interfering.  Its calls follow the
        program above to its end, so the results for every interleaving apply to it. */
    method FinaliseCodexLink(me: nat, hermes: bool, polls: nat) returns (ghost trace: seq<Event>)
      modifies this
      ensures Walk(TryLock, hermes, trace) == Some(Gone) && Ordered(hermes, trace)
      ensures if hermes then Restarts(trace) ==> Configured(true) in trace
              else Configured(true) !in trace && Configured(false) !in trace
      ensures lock == old(lock)
      ensures old(lock).Some? || (old(link).linked && !old(link).reauthRequired) ==>
                !Restarts(trace) && link == old(link)
      ensures link == if Persisted(true) in trace then Link(true, false) else old(link)
      ensures Persisted(true) in trace ==> Restarted(true) in trace && Polled(true) in trace
      ensures trouble == old(trouble) && old(lock).None? && (!old(link).linked || old(link).reauthRequired) ==>
                Restarted(true) in trace && (Persisted(true) in trace <==> Polled(true) in trace)
      ensures Restarted(true) in trace ==> Polled(true) in trace || multiset(trace)[Polled(false)] == polls
    {
      hide Walk, Ordered, MayFollow;
      trace := [];
      NoEventsYet(hermes);
      var answered := Chance();
      if !answered {
        trace := Emit(hermes, trace, LockError);
      } else if lock.Some? {
        trace := Emit(hermes, trace, LockAnswer(false));
      } else {
        trace := FinaliseWithLock(me, hermes, polls);
      }
      ConfiguredFirst(hermes, trace);
    }

    /** The lock has been granted. */
    method FinaliseWithLock(me: nat, hermes: bool, polls: nat) returns (ghost trace: seq<Event>)
      requires lock.None?
      modifies this
      ensures Walk(TryLock, hermes, trace) == Some(Gone) && lock.None? && trouble >= old(trouble)
      ensures Complete(old(link)) ==> !Restarts(trace) && link == old(link)
      ensures link == if Persisted(true) in trace then Linked(old(link)) else old(link)
      ensures Persisted(true) in trace ==> Restarted(true) in trace && Polled(true) in trace
      ensures trouble == old(trouble) && !Complete(old(link)) ==>
                Restarted(true) in trace && (Persisted(true) in trace <==> Polled(true) in trace)
      ensures Restarted(true) in trace ==> Polled(true) in trace || multiset(trace)[Polled(false)] == polls
    {
      NoEventsYet(hermes);
      hide Walk, Complete;
      lock := Some(me);
      trace := Emit(hermes, [], LockAnswer(true));
      trace := FinaliseUnderLock(hermes, polls, trace);
      lock := None;
      trace := Emit(hermes, trace, Unlocked);
    }

    /** Poll the gateway until it is healthy or the polls are used up. */
    method AwaitGateway(hermes: bool, polls: nat, ghost before: seq<Event>)
      returns (healthy: bool, ghost trace: seq<Event>)
      requires Walk(TryLock, hermes, before) == Some(Poll) && NotPolled(before)
      ensures forall e: Event :: !e.Polled? && !e.PollTimedOut? ==> (e in trace <==> e in before)
      ensures Walk(TryLock, hermes, trace) == Some(if healthy then Persist else Unlock)
      ensures healthy <==> Polled(true) in trace
      ensures multiset(trace)[Polled(false)] <= polls && (!healthy ==> multiset(trace)[Polled(false)] == polls)
    {
      hide Walk;
      trace := before;
      healthy := false;
      var left := polls;
      while left > 0 && !healthy
        invariant Walk(TryLock, hermes, trace) == Some(if healthy then Persist else Poll)
        invariant forall e: Event :: !e.Polled? ==> (e in trace <==> e in before)
        invariant healthy <==> Polled(true) in trace
        invariant 0 <= left <= polls && multiset(trace)[Polled(false)] + (if healthy then 1 else 0) == polls - left
      {
        healthy := *;
        trace := Emit(hermes, trace, Polled(healthy));
        left := left - 1;
      }
      if !healthy {
        trace := Emit(hermes, trace, PollTimedOut);
      }
    }

    /** The part between taking the lock and releasing it. */
    method FinaliseUnderLock(hermes: bool, polls: nat, ghost before: seq<Event>) returns (ghost trace: seq<Event>)
      requires Walk(TryLock, hermes, before) == Some(Recheck)
      requires !Restarts(before) && Persisted(true) !in before && NotPolled(before)
      modifies this`link, this`trouble
      ensures trouble >= old(trouble)
      ensures trouble == old(trouble) && !Complete(old(link)) ==>
                Restarted(true) in trace && (Persisted(true) in trace <==> Polled(true) in trace)
      ensures Restarted(true) in trace ==> Polled(true) in trace || multiset(trace)[Polled(false)] == polls
      ensures Walk(TryLock, hermes, trace) == Some(Unlock)
      ensures Complete(old(link)) ==> !Restarts(trace) && link == old(link)
      ensures link == if Persisted(true) in trace then Linked(old(link)) else old(link)
      ensures Persisted(true) in trace ==> Restarted(true) in trace && Polled(true) in trace
    {
      hide Walk;
      var checked := Chance();
      if !checked {
        trace := Emit(hermes, before, CheckError);
        return;
      }
      trace := Emit(hermes, before, CheckAnswer(Complete(link)));
      if Complete(link) {
        return;
      }
      if hermes {
        var configured := Chance();
        trace := Emit(hermes, trace, Configured(configured));
        if !configured {
          return;
        }
      }
      trace := RestartAndPersist(hermes, polls, trace);
    }

    /** From the restart on. */
    method RestartAndPersist(hermes: bool, polls: nat, ghost before: seq<Event>) returns (ghost trace: seq<Event>)
      requires Walk(TryLock, hermes, before) == Some(Restart)
      requires !Restarts(before) && Persisted(true) !in before && NotPolled(before)
      modifies this`link, this`trouble
      ensures Walk(TryLock, hermes, trace) == Some(Unlock) && trouble >= old(trouble)
      ensures trouble == old(trouble) ==>
                Restarted(true) in trace && (Persisted(true) in trace <==> Polled(true) in trace)
      ensures Restarted(true) in trace ==> Polled(true) in trace || multiset(trace)[Polled(false)] == polls
      ensures link == if Persisted(true) in trace then Linked(old(link)) else old(link)
      ensures Persisted(true) in trace ==> Restarted(true) in trace && Polled(true) in trace
    {
      hide Walk;
      var restarted := Chance();
      trace := Emit(hermes, before, Restarted(restarted));
      if restarted {
        trace := AwaitAndPersist(hermes, polls, trace);
      }
    }

    /** The part after the restart. */
    method AwaitAndPersist(hermes: bool, polls: nat, ghost before: seq<Event>) returns (ghost trace: seq<Event>)
      requires Walk(TryLock, hermes, before) == Some(Poll)
      requires Persisted(true) !in before && Restarted(true) in before && NotPolled(before)
      modifies this`link, this`trouble
      ensures Walk(TryLock, hermes, trace) == Some(Unlock) && trouble >= old(trouble)
      ensures trouble == old(trouble) ==> (Persisted(true) in trace <==> Polled(true) in trace)
      ensures Polled(true) in trace || multiset(trace)[Polled(false)] == polls
      ensures link == if Persisted(true) in trace then Linked(old(link)) else old(link)
      ensures Persisted(true) in trace ==> Polled(true) in trace
      ensures Restarted(true) in trace
    {
      hide Walk;
      var healthy;
      healthy, trace := AwaitGateway(hermes, polls, before);
      if !healthy {
        return;
      }
      var stored := Chance();
      if stored {
        link := Linked(link);
      }
      trace := Emit(hermes, trace, Persisted(stored));
    }
  }
}
