/** The cap on concurrent terminal sessions of one user (incrementTerminalSession and its
    check in backend/internal/api/terminal.go).  A handler counts itself in before it looks,
    and counts itself out when it returns, whether it was let in or not. */
module Sessions {
  import opened Options
  import opened Sets

  const MAX_PER_USER: nat := 2

  function CountOf(counts: map<nat, nat>, user: nat): nat {
    if user in counts then counts[user] else 0
  }

  // ---------------------------------------------------------------------------
  // Any number of handlers of any users

  /** A handler that has counted itself in: the number it saw, and its decision if taken. */
  datatype Handler = Handler(user: nat, saw: nat, admitted: bool)

  datatype State = State(counts: map<nat, nat>, handlers: map<nat, Handler>)

  datatype Action = Enter(h: nat, user: nat) | Decide(h: nat) | Leave(h: nat)

  function Next(s: State, a: Action): Option<State> {
    match a
    case Enter(h, user) =>
      if h in s.handlers then None
      else
        var n := CountOf(s.counts, user) + 1;
        Some(State(s.counts[user := n], s.handlers[h := Handler(user, n, false)]))
    case Decide(h) =>
      if h !in s.handlers then None
      else Some(s.(handlers := s.handlers[h := s.handlers[h].(admitted := s.handlers[h].saw <= MAX_PER_USER)]))
    case Leave(h) =>
      if h !in s.handlers || CountOf(s.counts, s.handlers[h].user) == 0 then None
      else
        var user := s.handlers[h].user;
        Some(State(s.counts[user := CountOf(s.counts, user) - 1], s.handlers - {h}))
  }

  function Init(): State { State(map[], map[]) }

  function Run(s: State, actions: seq<Action>): Option<State>
    decreases |actions|
  {
    if actions == [] then Some(s)
    else
      var before := Run(s, actions[..|actions| - 1]);
      if before.None? then None else Next(before.value, actions[|actions| - 1])
  }

  function Present(s: State, user: nat): set<nat> {
    set h | h in s.handlers && s.handlers[h].user == user
  }

  function InSession(s: State, user: nat): set<nat> {
    set h | h in s.handlers && s.handlers[h].user == user && s.handlers[h].admitted
  }

  /** Those of them that the check lets in, now or later. */
  function Within(s: State, user: nat): set<nat> {
    set h | h in s.handlers && s.handlers[h].user == user && s.handlers[h].saw <= MAX_PER_USER
  }

  ghost predicate Inv(s: State) {
    forall user :: UserInv(s, user)
  }

  ghost predicate UserInv(s: State, user: nat) {
    && |Present(s, user)| == CountOf(s.counts, user)
    && |Within(s, user)| <= MAX_PER_USER
    && forall h :: h in s.handlers ==>
         s.handlers[h].saw >= 1 && (s.handlers[h].admitted ==> s.handlers[h].saw <= MAX_PER_USER)
  }

  /** Who is there after one more has come. */
  lemma Entered(s: State, h: nat, u: nat, user: nat)
    requires h !in s.handlers
    ensures var s', n := Next(s, Enter(h, u)).value, CountOf(s.counts, u) + 1;
      && Present(s', user) == Present(s, user) + (if u == user then {h} else {})
      && Within(s', user) == Within(s, user) + (if u == user && n <= MAX_PER_USER then {h} else {})
      && s'.handlers == s.handlers[h := Handler(u, n, false)]
      && CountOf(s'.counts, user) == if u == user then n else CountOf(s.counts, user)
  {
  }

  lemma EnterKeepsInv(s: State, h: nat, u: nat, user: nat)
    requires UserInv(s, u) && UserInv(s, user) && h !in s.handlers
    ensures UserInv(Next(s, Enter(h, u)).value, user)
  {
    assert h !in Present(s, user) && h !in Within(s, user);
    Entered(s, h, u, user);
    SubsetSize(Within(s, user), Present(s, user));
    hide Next, Present, Within;
  }

  lemma DecideKeepsInv(s: State, h: nat, user: nat)
    requires UserInv(s, user) && h in s.handlers
    ensures UserInv(Next(s, Decide(h)).value, user)
  {
    var s' := Next(s, Decide(h)).value;
    assert Present(s', user) == Present(s, user) && Within(s', user) == Within(s, user);
  }

  lemma LeaveKeepsInv(s: State, h: nat, user: nat)
    requires UserInv(s, user) && Next(s, Leave(h)).Some?
    ensures UserInv(Next(s, Leave(h)).value, user)
  {
    var s' := Next(s, Leave(h)).value;
    assert Present(s', user) == Present(s, user) - {h};
    assert Within(s', user) == Within(s, user) - {h};
    SubsetSize(Within(s', user), Within(s, user));
    assert s.handlers[h].user == user <==> h in Present(s, user);
  }

  lemma StepKeepsInv(s: State, a: Action, user: nat)
    requires Inv(s) && Next(s, a).Some?
    ensures UserInv(Next(s, a).value, user)
  {
    assert UserInv(s, user);
    match a
    case Enter(h, u) =>
      assert UserInv(s, u);
      EnterKeepsInv(s, h, u, user);
    case Decide(h) => DecideKeepsInv(s, h, user);
    case Leave(h) => LeaveKeepsInv(s, h, user);
  }

  lemma {:induction false} RunKeepsInv(actions: seq<Action>)
    requires Run(Init(), actions).Some?
    ensures Inv(Run(Init(), actions).value)
    decreases |actions|
  {
    if actions == [] {
      forall user ensures UserInv(State(map[], map[]), user) {
        assert Present(State(map[], map[]), user) == {} && Within(State(map[], map[]), user) == {};
      }
    } else {
      RunKeepsInv(actions[..|actions| - 1]);
      forall user ensures UserInv(Run(Init(), actions).value, user) {
        StepKeepsInv(Run(Init(), actions[..|actions| - 1]).value, actions[|actions| - 1], user);
      }
    }
  }

  /** However the handlers of all users interleave, no user is ever in more than two
      sessions; the next handler to come is turned away exactly if two or more of its user
      are there, counting those on their way out. */
  lemma AtMostTwoSessions(actions: seq<Action>, user: nat)
    requires Run(Init(), actions).Some?
    ensures var s := Run(Init(), actions).value;
      && |InSession(s, user)| <= 2
      && forall h :: h !in s.handlers ==>
           && Run(s, [Enter(h, user), Decide(h)]).Some?
           && h in Run(s, [Enter(h, user), Decide(h)]).value.handlers
           && (Run(s, [Enter(h, user), Decide(h)]).value.handlers[h].admitted <==> |Present(s, user)| < 2)
  {
    RunKeepsInv(actions);
    var s := Run(Init(), actions).value;
    assert UserInv(s, user);
    SubsetSize(InSession(s, user), Within(s, user));
    forall h | h !in s.handlers
      ensures var after := Run(s, [Enter(h, user), Decide(h)]);
        after.Some? && h in after.value.handlers && (after.value.handlers[h].admitted <==> |Present(s, user)| < 2)
    {
      var entered := Next(s, Enter(h, user)).value;
      TwoActions(s, entered, Next(entered, Decide(h)).value, Enter(h, user), Decide(h));
    }
  }

  /** The counters and the handlers that share them.  Every method does what the actions of
      the machine do. */
  class Counters {
    var counts: map<nat, nat>
    var handlers: map<nat, Handler>

    function View(): State
      reads this
    {
      State(counts, handlers)
    }

    /** incrementTerminalSession: LoadOrStore and an atomic add. */
    method Increment(h: nat, user: nat) returns (n: nat)
      requires h !in handlers
      modifies this
      ensures Next(old(View()), Enter(h, user)) == Some(View()) && n == handlers[h].saw
    {
      n := (if user in counts then counts[user] else 0) + 1;
      counts := counts[user := n];
      handlers := handlers[h := Handler(user, n, false)];
    }

    /** The start of a websocket handler: count in, then look. */
    method Open(h: nat, user: nat) returns (admitted: bool)
      requires h !in handlers
      modifies this
      ensures Run(old(View()), [Enter(h, user), Decide(h)]) == Some(View())
      ensures h in handlers && admitted == handlers[h].admitted
      ensures admitted <==> !(user in old(counts) && old(counts)[user] >= 2)
    {
      ghost var s := View();
      var n := Increment(h, user);
      ghost var entered := View();
      admitted := n <= MAX_PER_USER;
      handlers := handlers[h := handlers[h].(admitted := admitted)];
      TwoActions(s, entered, View(), Enter(h, user), Decide(h));
    }

    /** The deferred decrement. */
    method Close(h: nat)
      requires h in handlers && CountOf(counts, handlers[h].user) > 0
      modifies this
      ensures Next(old(View()), Leave(h)) == Some(View())
    {
      var user := handlers[h].user;
      counts := counts[user := counts[user] - 1];
      handlers := handlers - {h};
    }
  }

  lemma TwoActions(s: State, t: State, u: State, a: Action, b: Action)
    requires Next(s, a) == Some(t) && Next(t, b) == Some(u)
    ensures Run(s, [a, b]) == Some(u)
  {
    assert [a, b][..1] == [a] && [a][..0] == [];
    assert Run(s, []) == Some(s) && Run(s, [a]) == Some(t);
  }

  /** No decrement is ever lost or doubled: a handler that is there can always leave. */
  lemma LeavingIsAlwaysPossible(actions: seq<Action>, h: nat)
    requires Run(Init(), actions).Some? && h in Run(Init(), actions).value.handlers
    ensures Next(Run(Init(), actions).value, Leave(h)).Some?
  {
    RunKeepsInv(actions);
    var s := Run(Init(), actions).value;
    assert UserInv(s, s.handlers[h].user);
    assert h in Present(s, s.handlers[h].user);
  }
}
