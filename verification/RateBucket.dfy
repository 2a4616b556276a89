/** The byte budget of a terminal or desktop connection (rateBucket in
    backend/internal/api/terminal.go): a counter that starts again at the first call after
    its window has passed. */
module RateBucket {
  datatype Bucket = Bucket(limit: nat, window: nat, used: nat, resetAt: nat)

  datatype Call = Call(now: nat, bytes: nat)

  function New(limit: nat, window: nat, now: nat): Bucket { Bucket(limit, window, 0, now + window) }

  function Refreshed(b: Bucket, now: nat): Bucket {
    if now > b.resetAt then b.(used := 0, resetAt := now + b.window) else b
  }

  predicate Admits(b: Bucket, call: Call) {
    Refreshed(b, call.now).used + call.bytes <= b.limit
  }

  function AfterCall(b: Bucket, call: Call): Bucket {
    var current := Refreshed(b, call.now);
    if Admits(b, call) then current.(used := current.used + call.bytes) else current
  }

  class Counter {
    const limit: nat
    const window: nat
    var used: nat
    var resetAt: nat

    constructor (limit: nat, window: nat, now: nat)
      ensures View() == New(limit, window, now)
    {
      this.limit, this.window := limit, window;
      used, resetAt := 0, now + window;
    }

    function View(): Bucket
      reads this
    {
      Bucket(limit, window, used, resetAt)
    }

    method Allow(now: nat, n: nat) returns (ok: bool)
      modifies this
      ensures ok == Admits(old(View()), Call(now, n))
      ensures View() == AfterCall(old(View()), Call(now, n))
    {
      if now > resetAt {
        used := 0;
        resetAt := now + window;
      }
      if used + n > limit {
        return false;
      }
      used := used + n;
      return true;
    }
  }

  // ---------------------------------------------------------------------------
  // Runs

  function After(b: Bucket, calls: seq<Call>): (r: Bucket)
    ensures r.limit == b.limit && r.window == b.window
    decreases |calls|
  {
    if calls == [] then b else AfterCall(After(b, calls[..|calls| - 1]), calls[|calls| - 1])
  }

  /** The bytes admitted at times from `lo` to `hi`. */
  function Admitted(b: Bucket, calls: seq<Call>, lo: int, hi: int): nat
    decreases |calls|
  {
    if calls == [] then 0
    else
      var before, last := calls[..|calls| - 1], calls[|calls| - 1];
      Admitted(b, before, lo, hi)
      + if lo <= last.now <= hi && Admits(After(b, before), last) then last.bytes else 0
  }

  /** The clock does not go backwards, and starts no earlier than the bucket. */
  predicate InOrder(calls: seq<Call>, start: nat) {
    && (forall i :: 0 <= i < |calls| ==> start <= calls[i].now)
    && (forall i, j :: 0 <= i < j < |calls| ==> calls[i].now <= calls[j].now)
  }

  /** The bucket after a run: within its limit, its window begun at a time that has come
      and not yet over at the last call. */
  lemma {:induction false} RunInv(limit: nat, window: nat, start: nat, calls: seq<Call>)
    requires InOrder(calls, start)
    ensures var b := After(New(limit, window, start), calls);
      && b.used <= limit && b.resetAt >= start + window
      && (forall i :: 0 <= i < |calls| ==> calls[i].now <= b.resetAt)
      && (b.resetAt == start + window || exists i :: 0 <= i < |calls| && b.resetAt == calls[i].now + window)
    decreases |calls|
  {
    if calls != [] {
      var n := |calls| - 1;
      RunInv(limit, window, start, calls[..n]);
      var before := After(New(limit, window, start), calls[..n]);
      if calls[n].now <= before.resetAt && before.resetAt != start + window {
        var i :| 0 <= i < n && before.resetAt == calls[i].now + window;
      }
    }
  }

  /** Nothing is admitted in an interval that has not begun. */
  lemma {:induction false} NothingYet(b: Bucket, calls: seq<Call>, lo: int, hi: int)
    requires forall i :: 0 <= i < |calls| ==> calls[i].now < lo
    ensures Admitted(b, calls, lo, hi) == 0
    decreases |calls|
  {
    if calls != [] {
      NothingYet(b, calls[..|calls| - 1], lo, hi);
    }
  }

  /** The current window has been open since `resetAt - window`. */
  predicate Spent(b: Bucket, admitted: nat, lo: int, hi: int) {
    var begun := b.resetAt - b.window;
    && (lo >= begun ==> admitted <= b.used)
    && (lo < begun <= hi ==> admitted <= b.limit + b.used)
    && (hi < begun ==> admitted <= 2 * b.limit)
  }

  /** When a call comes, the window that was current has begun, and all calls before fell
      into it or earlier. */
  lemma WindowHasBegun(limit: nat, window: nat, start: nat, calls: seq<Call>)
    requires calls != [] && InOrder(calls, start)
    ensures InOrder(calls[..|calls| - 1], start)
    ensures var before, last := calls[..|calls| - 1], calls[|calls| - 1];
      var was := After(New(limit, window, start), before);
      && was.resetAt - window <= last.now && was.used <= limit && was.resetAt >= start + window
      && (forall i :: 0 <= i < |before| ==> before[i].now <= was.resetAt)
  {
    var n := |calls| - 1;
    RunInv(limit, window, start, calls[..n]);
    var was := After(New(limit, window, start), calls[..n]);
    hide After;
    if was.resetAt != start + window {
      var i :| 0 <= i < n && was.resetAt == calls[..n][i].now + window;
      assert calls[i].now <= calls[n].now;
    }
  }

  lemma {:induction false} SpentInv(limit: nat, window: nat, start: nat, calls: seq<Call>, lo: int, hi: int)
    requires InOrder(calls, start) && hi - lo <= window
    ensures var b := New(limit, window, start);
      Spent(After(b, calls), Admitted(b, calls, lo, hi), lo, hi)
    decreases |calls|
  {
    if calls != [] {
      var n := |calls| - 1;
      var b, before := New(limit, window, start), calls[..n];
      WindowHasBegun(limit, window, start, calls);
      SpentInv(limit, window, start, before, lo, hi);
      if calls[n].now > After(b, before).resetAt && lo >= calls[n].now {
        NothingYet(b, before, lo, hi);
      }
      hide InOrder;
    }
  }

  /** In any interval no longer than the window, at most twice the limit is admitted. */
  lemma TwiceTheLimit(limit: nat, window: nat, start: nat, calls: seq<Call>, lo: int, hi: int)
    requires InOrder(calls, start) && hi - lo <= window
    ensures Admitted(New(limit, window, start), calls, lo, hi) <= 2 * limit
  {
    SpentInv(limit, window, start, calls, lo, hi);
    RunInv(limit, window, start, calls);
  }

  /** And no less than twice the limit would do: it can be admitted within one tick. */
  lemma TwiceTheLimitIsReached(limit: nat, window: nat, start: nat) returns (calls: seq<Call>, lo: nat)
    ensures InOrder(calls, start) && Admitted(New(limit, window, start), calls, lo, lo + 1) == 2 * limit
  {
    lo := start + window;
    var b, first, second := New(limit, window, start), Call(lo, limit), Call(lo + 1, limit);
    calls := [first, second];
    assert calls[..1] == [first] && calls[..1][..0] == [];
    assert After(b, []) == b && Admitted(b, [], lo, lo + 1) == 0;
    assert After(b, calls[..1]) == b.(used := limit);
    assert Admitted(b, calls[..1], lo, lo + 1) == limit;
  }

  /** How many times the counter has started again. */
  function Resets(b: Bucket, calls: seq<Call>): nat
    decreases |calls|
  {
    if calls == [] then 0
    else
      var before := calls[..|calls| - 1];
      Resets(b, before) + if calls[|calls| - 1].now > After(b, before).resetAt then 1 else 0
  }

  lemma {:induction false} TotalInv(limit: nat, window: nat, start: nat, calls: seq<Call>, end: int)
    requires InOrder(calls, start) && forall i :: 0 <= i < |calls| ==> calls[i].now <= end
    ensures var b := New(limit, window, start);
      && Admitted(b, calls, start, end) <= limit * Resets(b, calls) + After(b, calls).used
      && After(b, calls).resetAt >= start + window * (1 + Resets(b, calls))
    decreases |calls|
  {
    if calls != [] {
      var n := |calls| - 1;
      var b := New(limit, window, start);
      TotalInv(limit, window, start, calls[..n], end);
      WindowHasBegun(limit, window, start, calls);
      hide InOrder;
      OneMore(limit, window, Resets(b, calls[..n]));
    }
  }

  lemma OneMore(limit: nat, window: nat, k: nat)
    ensures limit * (k + 1) == limit * k + limit && window * (1 + (k + 1)) == window * (1 + k) + window
  {
  }

  /** From its creation to a time `span` later, a bucket admits at most its limit for every
      window begun. */
  lemma LimitPerWindow(limit: nat, window: nat, start: nat, calls: seq<Call>, span: nat)
    requires window > 0 && InOrder(calls, start)
    requires forall i :: 0 <= i < |calls| ==> calls[i].now <= start + span
    ensures Admitted(New(limit, window, start), calls, start, start + span) <= limit * (1 + span / window)
  {
    var b := New(limit, window, start);
    TotalInv(limit, window, start, calls, start + span);
    RunInv(limit, window, start, calls);
    var k := Resets(b, calls);
    assert After(b, calls).resetAt <= start + span + window by {
      if After(b, calls).resetAt != start + window {
        var i :| 0 <= i < |calls| && After(b, calls).resetAt == calls[i].now + window;
      }
    }
    OneMore(window, window, k);
    WholeWindows(window, k, span);
    Monotone(limit, 1 + k, 1 + span / window);
    OneMore(limit, window, k);
  }

  lemma WholeWindows(window: nat, k: nat, span: nat)
    requires window > 0 && window * (1 + k) <= span + window
    ensures k <= span / window
  {
    assert span == window * (span / window) + span % window;
    if span / window < k {
      Monotone(window, span / window + 1, k);
    }
  }

  lemma Monotone(a: nat, x: nat, y: nat)
    requires x <= y
    ensures a * x <= a * y
  {
  }

  predicate AllBy(calls: seq<Call>, hi: int) {
    forall i :: 0 <= i < |calls| ==> calls[i].now <= hi
  }

  lemma {:induction false} UsedIsAdmitted(limit: nat, window: nat, start: nat, calls: seq<Call>, hi: int)
    requires InOrder(calls, start) && AllBy(calls, hi)
    ensures var b := New(limit, window, start);
      After(b, calls).used == Admitted(b, calls, After(b, calls).resetAt - window, hi)
    decreases |calls|
  {
    if calls != [] {
      var n := |calls| - 1;
      var b, before := New(limit, window, start), calls[..n];
      assert calls[n].now <= hi && AllBy(before, hi);
      hide InOrder, AllBy;
      WindowHasBegun(limit, window, start, calls);
      UsedIsAdmitted(limit, window, start, before, hi);
      if calls[n].now > After(b, before).resetAt {
        NothingYet(b, before, calls[n].now, hi);
      }
    }
  }

  /** Nobody is refused who stayed within the limit over the last window. */
  lemma RefusalIsEarned(limit: nat, window: nat, start: nat, calls: seq<Call>, call: Call)
    requires InOrder(calls + [call], start)
    requires !Admits(After(New(limit, window, start), calls), call)
    ensures Admitted(New(limit, window, start), calls, call.now - window, call.now) + call.bytes > limit
  {
    assert forall i :: 0 <= i < |calls| ==> (calls + [call])[i] == calls[i];
    assert (calls + [call])[|calls|] == call;
    assert InOrder(calls, start);
    var b := New(limit, window, start);
    UsedIsAdmitted(limit, window, start, calls, call.now);
    var now := After(b, calls);
    if call.now <= now.resetAt {
      Widen(b, calls, call.now - window, now.resetAt - window, call.now);
    }
  }

  lemma {:induction false} Widen(b: Bucket, calls: seq<Call>, lo: int, lo': int, hi: int)
    requires lo <= lo'
    ensures Admitted(b, calls, lo', hi) <= Admitted(b, calls, lo, hi)
    decreases |calls|
  {
    if calls != [] {
      Widen(b, calls[..|calls| - 1], lo, lo', hi);
    }
  }
}
