/** The marker that one backend process keeps so that its own status polls do not start a
    second finaliser (CodexLinkState in backend/internal/api/codex.go).  It expires although
    a finaliser may live on, which is why the advisory lock is needed within one process
    too. */
module CodexMarker {
  import opened Options

  const MARKER_SECONDS: nat := 90
  const FINALISER_CAP: nat := 120

  /** How long the marker counts, and how long a finaliser lives at most. */
  datatype Timing = Timing(marker: nat, cap: nat)

  /** One process and one instance: the clock, the marker, the live finalisers with the time
      each was started, and the polls that have seen the marker expired. */
  datatype State = State(now: nat, marker: Option<nat>, running: map<nat, nat>, expired: set<nat>)

  datatype Action =
    | Tick(seconds: nat)
    | Mark(f: nat)          // a poll finds no marker, sets one and starts a finaliser
    | SeeExpired(f: nat)    // a poll reads a marker that has expired
    | Recycle(f: nat)       // it replaces the marker and starts a finaliser
    | DropExpired(f: nat)   // it only deletes the marker
    | End(f: nat)           // a finaliser ends and deletes the marker

  predicate Expired(timing: Timing, s: State) {
    s.marker.Some? && s.now > s.marker.value + timing.marker
  }

  /** An action, or None where it cannot happen.  Time passes only while every finaliser
      keeps within its cap. */
  function Next(timing: Timing, s: State, a: Action): Option<State> {
    match a
    case Tick(seconds) =>
      if exists f :: f in s.running && s.now + seconds > s.running[f] + timing.cap then None
      else Some(s.(now := s.now + seconds))
    case Mark(f) =>
      if s.marker.Some? || f in s.running then None
      else Some(s.(marker := Some(s.now), running := s.running[f := s.now]))
    case SeeExpired(f) => if !Expired(timing, s) then None else Some(s.(expired := s.expired + {f}))
    case Recycle(f) =>
      if f !in s.expired || f in s.running then None
      else Some(State(s.now, Some(s.now), s.running[f := s.now], s.expired - {f}))
    case DropExpired(f) =>
      if f !in s.expired then None else Some(s.(marker := None, expired := s.expired - {f}))
    case End(f) => if f !in s.running then None else Some(s.(marker := None, running := s.running - {f}))
  }

  function Init(): State { State(0, None, map[], {}) }

  function Run(timing: Timing, s: State, actions: seq<Action>): Option<State>
    decreases |actions|
  {
    if actions == [] then Some(s)
    else
      var before := Run(timing, s, actions[..|actions| - 1]);
      if before.None? then None else Next(timing, before.value, actions[|actions| - 1])
  }

  /** The marker stands for the one finaliser there is. */
  predicate Inv(timing: Timing, s: State) {
    && s.expired == {}
    && (forall f :: f in s.running ==> s.marker == Some(s.running[f]) && s.now <= s.running[f] + timing.cap)
    && AtMostOne(s)
    && (s.marker.Some? ==> s.running != map[])
  }

  lemma StepKeepsInv(timing: Timing, s: State, a: Action)
    requires timing.cap <= timing.marker && Inv(timing, s) && Next(timing, s, a).Some?
    ensures Inv(timing, Next(timing, s, a).value)
  {
    if s.marker.Some? {
      var f :| f in s.running;
      assert s.marker == Some(s.running[f]);
    }
  }

  lemma {:induction false} RunKeepsInv(timing: Timing, actions: seq<Action>)
    requires timing.cap <= timing.marker && Run(timing, Init(), actions).Some?
    ensures Inv(timing, Run(timing, Init(), actions).value)
    decreases |actions|
  {
    hide Next;
    if actions != [] {
      var last := |actions| - 1;
      RunKeepsInv(timing, actions[..last]);
      StepKeepsInv(timing, Run(timing, Init(), actions[..last]).value, actions[last]);
    }
  }

  /** No two finalisers of the process are ever alive together. */
  ghost predicate Excludes(timing: Timing) {
    forall actions :: Run(timing, Init(), actions).Some? ==> AtMostOne(Run(timing, Init(), actions).value)
  }

  predicate AtMostOne(s: State) {
    forall f, g :: f in s.running && g in s.running ==> f == g
  }

  lemma Extend(timing: Timing, s: State, actions: seq<Action>, a: Action) returns (longer: seq<Action>)
    requires Run(timing, s, actions).Some? && Next(timing, Run(timing, s, actions).value, a).Some?
    ensures longer == actions + [a] && Run(timing, s, longer) == Next(timing, Run(timing, s, actions).value, a)
  {
    longer := actions + [a];
    assert longer[..|actions|] == actions;
  }

  lemma NothingRun(timing: Timing, s: State)
    ensures Run(timing, s, []) == Some(s)
  {
  }

  /** A finaliser outlives its marker, and the next poll starts another. */
  lemma Overlap(timing: Timing) returns (actions: seq<Action>)
    requires timing.cap > timing.marker
    ensures Run(timing, Init(), actions).Some? && Run(timing, Init(), actions).value.running.Keys == {0, 1}
  {
    NothingRun(timing, Init());
    hide Run;
    actions := Extend(timing, Init(), [], Mark(0));
    actions := Extend(timing, Init(), actions, Tick(timing.marker + 1));
    actions := Extend(timing, Init(), actions, SeeExpired(1));
    actions := Extend(timing, Init(), actions, Recycle(1));
  }

  /** The marker alone keeps finalisers of one process apart if and only if none can outlive
      it. */
  lemma ExclusionIsExact(timing: Timing)
    ensures Excludes(timing) <==> timing.cap <= timing.marker
  {
    if timing.cap <= timing.marker {
      forall actions | Run(timing, Init(), actions).Some?
        ensures AtMostOne(Run(timing, Init(), actions).value)
      {
        RunKeepsInv(timing, actions);
      }
    } else {
      var actions := Overlap(timing);
      var running := Run(timing, Init(), actions).value.running;
      assert 0 in running && 1 in running;
    }
  }

  /** With the code's ninety seconds and two minutes it does not. */
  lemma TheMarkerIsNotEnough()
    ensures !Excludes(Timing(MARKER_SECONDS, FINALISER_CAP))
  {
    ExclusionIsExact(Timing(MARKER_SECONDS, FINALISER_CAP));
  }

  // ---------------------------------------------------------------------------
  // The code

  /** The marker of one instance in one process, and its finalisers.  Every method does what
      actions of the machine do. */
  class Marker {
    const timing: Timing
    var now: nat
    var restartAt: Option<nat>
    var running: map<nat, nat>
    ghost var expired: set<nat>

    ghost function View(): State
      reads this
    {
      State(now, restartAt, running, expired)
    }

    /** markRestart, and the start of the finaliser when it is granted. */
    method MarkRestart(f: nat) returns (granted: bool, ghost trace: seq<Action>)
      requires f !in running && f !in expired
      modifies this
      ensures Run(timing, old(View()), trace) == Some(View())
      ensures granted <==> old(restartAt).None? || Expired(timing, old(View()))
      ensures if granted then running == old(running)[f := now] else View() == old(View())
    {
      ghost var s := View();
      NothingRun(timing, s);
      hide Run;
      trace := [];
      if restartAt.Some? && now <= restartAt.value + timing.marker {
        return false, trace;
      }
      if restartAt.None? {
        trace := Extend(timing, s, trace, Mark(f));
      } else {
        trace := Extend(timing, s, trace, SeeExpired(f));
        trace := Extend(timing, s, trace, Recycle(f));
        assert s.expired + {f} - {f} == s.expired;
      }
      restartAt := Some(now);
      running := running[f := now];
      return true, trace;
    }

    /** restartInFlight, which deletes a marker that has expired. */
    method RestartInFlight(f: nat) returns (inFlight: bool, ghost trace: seq<Action>)
      requires f !in expired
      modifies this
      ensures Run(timing, old(View()), trace) == Some(View())
      ensures inFlight <==> old(restartAt).Some? && !Expired(timing, old(View()))
    {
      ghost var s := View();
      NothingRun(timing, s);
      hide Run;
      trace := [];
      if restartAt.None? {
        return false, trace;
      }
      if now > restartAt.value + timing.marker {
        trace := Extend(timing, s, trace, SeeExpired(f));
        trace := Extend(timing, s, trace, DropExpired(f));
        assert s.expired + {f} - {f} == s.expired;
        restartAt := None;
        return false, trace;
      }
      return true, trace;
    }

    /** The deferred clearRestart of a finaliser. */
    method ClearRestart(f: nat)
      requires f in running
      modifies this
      ensures Next(timing, old(View()), End(f)) == Some(View())
    {
      restartAt := None;
      running := running - {f};
    }
  }
}
