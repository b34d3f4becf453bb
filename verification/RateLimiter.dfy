/** The fixed-window rate limiter (internal/api/middleware.go:160-195) and what it admits over whole histories. */
module RateLimiter {
  import opened MarketData

  /** Go's zero value stands for a key that has not been seen. */
  datatype RateState = RateState(windowStart: Time, count: int)
  const UNSEEN := RateState(0, 0)

  type Table = map<string, RateState>

  function Lookup(table: Table, key: string): RateState {
    if key in table then table[key] else UNSEEN
  }

  predicate Expired(s: RateState, window: int, now: Time) {
    s.windowStart == 0 || now - s.windowStart >= window
  }

  predicate Admits(s: RateState, limit: int, window: int, now: Time) {
    Expired(s, window, now) || s.count < limit
  }

  function Next(s: RateState, limit: int, window: int, now: Time): RateState {
    if Expired(s, window, now) then RateState(now, 1)
    else if s.count >= limit then s
    else s.(count := s.count + 1)
  }

  class FixedWindowLimiter {
    const limit: int
    const window: int
    var state: Table

    constructor (limit: int, window: int)
      ensures this.limit == limit && this.window == window && state == map[]
    {
      this.limit := limit;
      this.window := window;
      state := map[];
    }

    method Allow(key: string, now: Time) returns (allowed: bool)
      modifies this
      ensures allowed == Admits(old(Lookup(state, key)), limit, window, now)
      ensures Lookup(state, key) == Next(old(Lookup(state, key)), limit, window, now)
      ensures forall other :: other != key ==> Lookup(state, other) == old(Lookup(state, other))
      ensures state == After(limit, window, old(state), [Call(key, now)])
      ensures allowed == Decisions(limit, window, old(state), [Call(key, now)])[0]
    {
      assert [Call(key, now)][..0] == [];
      var s := if key in state then state[key] else UNSEEN;
      if s.windowStart == 0 || now - s.windowStart >= window {
        state := state[key := RateState(now, 1)];
        return true;
      }
      if s.count >= limit {
        return false;
      }
      s := s.(count := s.count + 1);
      state := state[key := s];
      return true;
    }
  }

  // Histories --------------------------------------------------------------------------------------------------

  datatype Call = Call(key: string, at: Time)

  /** The table after a history of calls. A refused call leaves it alone. */
  function After(limit: int, window: int, table: Table, calls: seq<Call>): Table {
    if calls == [] then table
    else
      var before := After(limit, window, table, calls[..|calls| - 1]);
      var c := calls[|calls| - 1];
      var s := Lookup(before, c.key);
      if Admits(s, limit, window, c.at) then before[c.key := Next(s, limit, window, c.at)] else before
  }

  function Decisions(limit: int, window: int, table: Table, calls: seq<Call>): (d: seq<bool>)
    ensures |d| == |calls|
  {
    if calls == [] then []
    else
      var c := calls[|calls| - 1];
      Decisions(limit, window, table, calls[..|calls| - 1])
        + [Admits(Lookup(After(limit, window, table, calls[..|calls| - 1]), c.key), limit, window, c.at)]
  }

  /** Deciding a history call by call is deciding it at once: what one call answers and leaves behind is all that
      the rest of a history depends on. */
  lemma {:induction false} HistoriesCompose(limit: int, window: int, table: Table, calls: seq<Call>, more: seq<Call>)
    ensures After(limit, window, table, calls + more) == After(limit, window, After(limit, window, table, calls), more)
    ensures Decisions(limit, window, table, calls + more) ==
            Decisions(limit, window, table, calls) + Decisions(limit, window, After(limit, window, table, calls), more)
    decreases |more|
  {
    if more == [] {
      assert calls + more == calls;
    } else {
      var n := |more| - 1;
      assert (calls + more)[..|calls| + n] == calls + more[..n];
      HistoriesCompose(limit, window, table, calls, more[..n]);
    }
  }

  /** The calls of one key, and the decisions made on them. */
  function TimesOf(calls: seq<Call>, key: string): seq<Time> {
    if calls == [] then []
    else
      var c := calls[|calls| - 1];
      TimesOf(calls[..|calls| - 1], key) + if c.key == key then [c.at] else []
  }

  function DecisionsOf(calls: seq<Call>, decisions: seq<bool>, key: string): seq<bool>
    requires |calls| == |decisions|
  {
    if calls == [] then []
    else
      var n := |calls| - 1;
      DecisionsOf(calls[..n], decisions[..n], key) + if calls[n].key == key then [decisions[n]] else []
  }

  /** One key on its own. */
  function StateAfter(s: RateState, limit: int, window: int, times: seq<Time>): RateState {
    if times == [] then s
    else Next(StateAfter(s, limit, window, times[..|times| - 1]), limit, window, times[|times| - 1])
  }

  function Verdicts(s: RateState, limit: int, window: int, times: seq<Time>): (d: seq<bool>)
    ensures |d| == |times|
  {
    if times == [] then []
    else
      Verdicts(s, limit, window, times[..|times| - 1])
        + [Admits(StateAfter(s, limit, window, times[..|times| - 1]), limit, window, times[|times| - 1])]
  }

  lemma RefusedUnchanged(s: RateState, limit: int, window: int, now: Time)
    ensures !Admits(s, limit, window, now) ==> Next(s, limit, window, now) == s
  {
  }

  /** Keys do not interfere: what a key is granted depends on its own calls and nothing else. */
  lemma {:induction false} KeysDoNotInterfere(limit: int, window: int, table: Table, calls: seq<Call>, key: string)
    ensures Lookup(After(limit, window, table, calls), key) == StateAfter(Lookup(table, key), limit, window, TimesOf(calls, key))
    ensures DecisionsOf(calls, Decisions(limit, window, table, calls), key) ==
            Verdicts(Lookup(table, key), limit, window, TimesOf(calls, key))
    decreases |calls|
  {
    if calls != [] {
      var n := |calls| - 1;
      var c := calls[n];
      KeysDoNotInterfere(limit, window, table, calls[..n], key);
      assert Decisions(limit, window, table, calls)[..n] == Decisions(limit, window, table, calls[..n]);
      if c.key == key {
        var times := TimesOf(calls[..n], key);
        assert (times + [c.at])[..|times|] == times;
        RefusedUnchanged(Lookup(After(limit, window, table, calls[..n]), key), limit, window, c.at);
      } else {
        assert TimesOf(calls, key) == TimesOf(calls[..n], key);
      }
    }
  }

  /** How many of the calls made at a time in [lo, hi) were granted. */
  function Granted(times: seq<Time>, verdicts: seq<bool>, lo: Time, hi: Time): nat
    requires |times| == |verdicts|
  {
    if times == [] then 0
    else
      var n := |times| - 1;
      Granted(times[..n], verdicts[..n], lo, hi) + if verdicts[n] && lo <= times[n] < hi then 1 else 0
  }

  /** How many of a key's calls in [lo, hi) a limiter with this table grants over a history of calls of any keys. */
  function GrantedTo(key: string, limit: int, window: int, table: Table, calls: seq<Call>, lo: Time, hi: Time): nat {
    DecisionsLength(calls, Decisions(limit, window, table, calls), key);
    Granted(TimesOf(calls, key), DecisionsOf(calls, Decisions(limit, window, table, calls), key), lo, hi)
  }

  lemma {:induction false} DecisionsLength(calls: seq<Call>, decisions: seq<bool>, key: string)
    requires |calls| == |decisions|
    ensures |DecisionsOf(calls, decisions, key)| == |TimesOf(calls, key)|
  {
    if calls != [] {
      DecisionsLength(calls[..|calls| - 1], decisions[..|calls| - 1], key);
    }
  }

  // How many calls get through -------------------------------------------------------------------------------------

  /** Calls of one key admitted at a time in [lo, hi), walking forwards from state s. */
  function Admitted(s: RateState, limit: int, window: int, times: seq<Time>, lo: Time, hi: Time): nat
    decreases |times|
  {
    if times == [] then 0
    else
      var now := times[0];
      (if Admits(s, limit, window, now) && lo <= now < hi then 1 else 0)
        + Admitted(Next(s, limit, window, now), limit, window, times[1..], lo, hi)
  }

  lemma {:induction false} StateAfterFirst(s: RateState, limit: int, window: int, now: Time, times: seq<Time>)
    ensures StateAfter(s, limit, window, [now] + times) == StateAfter(Next(s, limit, window, now), limit, window, times)
  {
    if times == [] {
      assert ([now] + times)[..0] == [];
      assert StateAfter(s, limit, window, [now]) == Next(StateAfter(s, limit, window, [now][..0]), limit, window, now);
    } else {
      var n := |times| - 1;
      assert ([now] + times)[..n + 1] == [now] + times[..n];
      StateAfterFirst(s, limit, window, now, times[..n]);
    }
  }

  /** Walking forwards, the last call counts from the state the others leave. */
  lemma {:induction false} AdmittedLast(s: RateState, limit: int, window: int, times: seq<Time>, last: Time, lo: Time, hi: Time)
    ensures Admitted(s, limit, window, times + [last], lo, hi) == Admitted(s, limit, window, times, lo, hi)
            + if Admits(StateAfter(s, limit, window, times), limit, window, last) && lo <= last < hi then 1 else 0
    decreases |times|
  {
    if times == [] {
      assert (times + [last])[1..] == [];
    } else {
      assert (times + [last])[1..] == times[1..] + [last] && [times[0]] + times[1..] == times;
      StateAfterFirst(s, limit, window, times[0], times[1..]);
      AdmittedLast(Next(s, limit, window, times[0]), limit, window, times[1..], last, lo, hi);
    }
  }

  /** The forward count is the number of verdicts that grant a call in the interval. */
  lemma {:induction false} AdmittedIsGranted(s: RateState, limit: int, window: int, times: seq<Time>, lo: Time, hi: Time)
    ensures Admitted(s, limit, window, times, lo, hi) == Granted(times, Verdicts(s, limit, window, times), lo, hi)
  {
    if times != [] {
      var n := |times| - 1;
      AdmittedIsGranted(s, limit, window, times[..n], lo, hi);
      AdmittedLast(s, limit, window, times[..n], times[n], lo, hi);
      assert times[..n] + [times[n]] == times;
      assert Verdicts(s, limit, window, times)[..n] == Verdicts(s, limit, window, times[..n]);
    }
  }

  /** So it is what the limiter grants the key over the whole history. */
  lemma GrantedIsAdmitted(key: string, limit: int, window: int, table: Table, calls: seq<Call>, lo: Time, hi: Time)
    ensures GrantedTo(key, limit, window, table, calls, lo, hi) ==
            Admitted(Lookup(table, key), limit, window, TimesOf(calls, key), lo, hi)
  {
    KeysDoNotInterfere(limit, window, table, calls, key);
    AdmittedIsGranted(Lookup(table, key), limit, window, TimesOf(calls, key), lo, hi);
  }

  /** A clock that never runs backwards and is not Go's zero time. */
  predicate Clock(times: seq<Time>) {
    (forall i :: 0 <= i < |times| ==> times[i] > 0) && forall i, j :: 0 <= i < j < |times| ==> times[i] <= times[j]
  }

  function CallsBefore(times: seq<Time>, hi: Time): nat {
    if times == [] then 0 else (if times[0] < hi then 1 else 0) + CallsBefore(times[1..], hi)
  }

  lemma {:induction false} NothingLater(s: RateState, limit: int, window: int, times: seq<Time>, lo: Time, hi: Time)
    requires forall i :: 0 <= i < |times| ==> times[i] >= hi
    ensures Admitted(s, limit, window, times, lo, hi) == 0 && CallsBefore(times, hi) == 0
    decreases |times|
  {
    if times != [] {
      NothingLater(Next(s, limit, window, times[0]), limit, window, times[1..], lo, hi);
    }
  }

  /** Within the rest of an open window exactly the calls that fit under the limit are admitted. */
  lemma {:induction false} WindowExact(s: RateState, limit: int, window: int, times: seq<Time>)
    requires s.windowStart > 0 && 1 <= s.count <= limit && Clock(times)
    requires forall i :: 0 <= i < |times| ==> times[i] >= s.windowStart
    ensures var (end, calls) := (s.windowStart + window, CallsBefore(times, s.windowStart + window));
      Admitted(s, limit, window, times, s.windowStart, end) == if calls <= limit - s.count then calls else limit - s.count
    decreases |times|
  {
    if times != [] {
      var now := times[0];
      if now >= s.windowStart + window {
        NothingLater(s, limit, window, times, s.windowStart, s.windowStart + window);
      } else {
        WindowExact(Next(s, limit, window, now), limit, window, times[1..]);
      }
    }
  }

  lemma WindowOpened(s: RateState, limit: int, window: int, times: seq<Time>)
    requires limit >= 1 && window > 0 && times != [] && Clock(times) && Expired(s, window, times[0])
    ensures var (start, calls) := (times[0], CallsBefore(times, times[0] + window));
      Admitted(s, limit, window, times, start, start + window) == if calls <= limit then calls else limit
  {
    WindowExact(RateState(times[0], 1), limit, window, times[1..]);
  }

  /** Whatever has happened before and whatever other keys do, a key's call that opens a window is followed in that
      window by exactly the calls that fit under the limit. */
  lemma AnchoredWindow(key: string, limit: int, window: int, table: Table, calls: seq<Call>)
    requires limit >= 1 && window > 0 && TimesOf(calls, key) != [] && Clock(TimesOf(calls, key))
    requires Expired(Lookup(table, key), window, TimesOf(calls, key)[0])
    ensures var times := TimesOf(calls, key);
      var made := CallsBefore(times, times[0] + window);
      GrantedTo(key, limit, window, table, calls, times[0], times[0] + window) == if made <= limit then made else limit
  {
    hide GrantedTo, Admitted, CallsBefore, TimesOf, Lookup;
    var times := TimesOf(calls, key);
    GrantedIsAdmitted(key, limit, window, table, calls, times[0], times[0] + window);
    WindowOpened(Lookup(table, key), limit, window, times);
  }

  /** What one window-long interval can still admit, from an open window with some calls used up. */
  function Allowance(s: RateState, limit: int, window: int, hi: Time): int {
    if hi <= s.windowStart + window then limit - s.count
    else if hi <= s.windowStart + 2 * window then 2 * limit - s.count
    else 2 * limit - 1
  }

  lemma {:induction false} IntervalBound(s: RateState, limit: int, window: int, times: seq<Time>, lo: Time, hi: Time)
    requires window > 0 && s.windowStart > 0 && 1 <= s.count <= limit && Clock(times) && hi - lo <= window
    requires forall i :: 0 <= i < |times| ==> times[i] >= s.windowStart
    ensures Admitted(s, limit, window, times, lo, hi) <= Allowance(s, limit, window, hi)
    decreases |times|
  {
    if times != [] {
      var now := times[0];
      if now >= hi {
        NothingLater(s, limit, window, times, lo, hi);
      } else {
        IntervalBound(Next(s, limit, window, now), limit, window, times[1..], lo, hi);
      }
    }
  }

  lemma FreshBound(limit: int, window: int, times: seq<Time>, lo: Time, hi: Time)
    requires limit >= 1 && window > 0 && Clock(times) && hi - lo <= window
    ensures Admitted(UNSEEN, limit, window, times, lo, hi) <= 2 * limit - 1
  {
    if times != [] {
      var now := times[0];
      if now < hi {
        IntervalBound(RateState(now, 1), limit, window, times[1..], lo, hi);
      } else {
        NothingLater(UNSEEN, limit, window, times, lo, hi);
      }
    }
  }

  /** Over any history of calls of any keys, no interval of one window length, wherever it starts, sees more than
      2 * limit - 1 calls of a key granted. */
  lemma AnyIntervalBound(key: string, limit: int, window: int, calls: seq<Call>, lo: Time, hi: Time)
    requires limit >= 1 && window > 0 && Clock(TimesOf(calls, key)) && hi - lo <= window
    ensures GrantedTo(key, limit, window, map[], calls, lo, hi) <= 2 * limit - 1
  {
    GrantedIsAdmitted(key, limit, window, map[], calls, lo, hi);
    FreshBound(limit, window, TimesOf(calls, key), lo, hi);
  }

  function CallsAt(key: string, times: seq<Time>): seq<Call> {
    seq(|times|, i requires 0 <= i < |times| => Call(key, times[i]))
  }

  lemma {:induction false} TimesOfCallsAt(key: string, times: seq<Time>)
    ensures TimesOf(CallsAt(key, times), key) == times
  {
    if times != [] {
      var n := |times| - 1;
      assert CallsAt(key, times)[..n] == CallsAt(key, times[..n]);
      TimesOfCallsAt(key, times[..n]);
      assert times[..n] + [times[n]] == times;
    }
  }

  function Repeat(t: Time, n: nat): seq<Time> {
    seq(n, _ => t)
  }

  lemma {:induction false} AllAdmitted(s: RateState, limit: int, window: int, t: Time, n: nat, rest: seq<Time>, lo: Time, hi: Time)
    requires s.windowStart > 0 && 1 <= s.count && s.count + n <= limit && lo <= t < hi && s.windowStart <= t < s.windowStart + window
    ensures Admitted(s, limit, window, Repeat(t, n) + rest, lo, hi) ==
            n + Admitted(s.(count := s.count + n), limit, window, rest, lo, hi)
    decreases n
  {
    if n == 0 {
      assert Repeat(t, 0) + rest == rest;
    } else {
      assert (Repeat(t, n) + rest)[1..] == Repeat(t, n - 1) + rest;
      AllAdmitted(Next(s, limit, window, t), limit, window, t, n - 1, rest, lo, hi);
    }
  }

  /** The bound is reached: one early call, limit - 1 at the end of its window, and limit at the start of the next. */
  lemma BoundIsTight(key: string, limit: nat, window: int)
    requires limit >= 1 && window >= 2
    ensures exists calls ::
      Clock(TimesOf(calls, key)) && GrantedTo(key, limit, window, map[], calls, window, 2 * window) == 2 * limit - 1
  {
    var (late, next) := (Repeat(window, limit - 1), Repeat(window + 1, limit));
    var times := [1] + (late + next);
    assert times[1..] == late + next;
    AllAdmitted(RateState(1, 1), limit, window, window, limit - 1, next, window, 2 * window);
    NextWindowFull(RateState(1, limit), limit, window);
    ThreeStepClock(window, limit);
    var calls := CallsAt(key, times);
    TimesOfCallsAt(key, times);
    GrantedIsAdmitted(key, limit, window, map[], calls, window, 2 * window);
    assert GrantedTo(key, limit, window, map[], calls, window, 2 * window) == 2 * limit - 1;
  }

  /** A full window gives way to a new one that admits the whole limit at one instant. */
  lemma NextWindowFull(s: RateState, limit: nat, window: int)
    requires s == RateState(1, limit) && limit >= 1 && window >= 2
    ensures Admitted(s, limit, window, Repeat(window + 1, limit), window, 2 * window) == limit
  {
    var next := Repeat(window + 1, limit);
    assert next[1..] == Repeat(window + 1, limit - 1) + [];
    AllAdmitted(RateState(window + 1, 1), limit, window, window + 1, limit - 1, [], window, 2 * window);
  }

  lemma ThreeStepClock(window: int, limit: nat)
    requires window >= 2 && limit >= 1
    ensures Clock([1] + (Repeat(window, limit - 1) + Repeat(window + 1, limit)))
  {
  }
}
