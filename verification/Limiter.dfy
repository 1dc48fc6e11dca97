/** The order rate limiter of a sandbox handler (server/sandbox/relay.go). Instants are
    nanoseconds since Go's zero time, where `rlWindow` starts. */
module Limiter {
  const SECOND: nat := 1_000_000_000
  const LIMIT: nat := 10

  /** rlCount and rlWindow (the instant the window ends). */
  datatype Window = Window(count: nat, end: nat)

  predicate Opens(w: Window, now: nat) { now > w.end }

  function Step(w: Window, now: nat): Window {
    if Opens(w, now) then Window(1, now + SECOND) else Window(w.count + 1, w.end)
  }

  /** The limiter after orders read at the given instants. */
  function After(times: seq<nat>): Window {
    if times == [] then Window(0, 0) else Step(After(times[..|times| - 1]), times[|times| - 1])
  }

  /** Was the last of these orders forwarded? */
  predicate Forwarded(times: seq<nat>) { After(times).count <= LIMIT }

  function Last(times: seq<nat>): nat { if times == [] then 0 else times[|times| - 1] }

  /** Readings of a clock that runs after Go's zero time and never goes back. */
  predicate Clock(times: seq<nat>) {
    times == [] || (0 < times[|times| - 1] && Last(times[..|times| - 1]) <= times[|times| - 1] && Clock(times[..|times| - 1]))
  }

  /** Orders forwarded in the closed interval lo .. hi. */
  function ForwardedIn(times: seq<nat>, lo: int, hi: int): nat {
    if times == [] then 0
    else ForwardedIn(times[..|times| - 1], lo, hi)
         + if lo <= Last(times) <= hi && Forwarded(times) then 1 else 0
  }

  /** Windows opened in it. */
  function OpenedIn(times: seq<nat>, lo: int, hi: int): nat {
    if times == [] then 0
    else OpenedIn(times[..|times| - 1], lo, hi)
         + if lo <= Last(times) <= hi && Opens(After(times[..|times| - 1]), Last(times)) then 1 else 0
  }

  /** Orders read in it. */
  function ReadIn(times: seq<nat>, lo: int, hi: int): nat {
    if times == [] then 0
    else ReadIn(times[..|times| - 1], lo, hi) + if lo <= Last(times) <= hi then 1 else 0
  }

  /** The loop: one verdict an order. */
  method Limit(times: seq<nat>) returns (forwarded: seq<bool>)
    ensures |forwarded| == |times|
    ensures forall i :: 0 <= i < |times| ==> (forwarded[i] <==> Forwarded(times[..i + 1]))
  {
    var rlCount: nat, rlWindow: nat := 0, 0;
    forwarded := [];
    for i := 0 to |times|
      invariant |forwarded| == i && Window(rlCount, rlWindow) == After(times[..i])
      invariant forall k :: 0 <= k < i ==> (forwarded[k] <==> Forwarded(times[..k + 1]))
    {
      var now := times[i];
      assert times[..i + 1][..i] == times[..i];
      if now > rlWindow {
        rlCount := 0;
        rlWindow := now + SECOND;
      }
      rlCount := rlCount + 1;
      forwarded := forwarded + [rlCount <= LIMIT];
    }
  }

  // ---------------------------------------------------------------- how the window stands

  /** After any order the window was opened by an order read no later, within the last second. */
  lemma {:induction false} WindowCurrent(times: seq<nat>)
    requires Clock(times) && times != []
    ensures var w := After(times);
            w.count >= 1 && SECOND <= w.end && w.end - SECOND <= Last(times) <= w.end
  {
    if |times| > 1 { WindowCurrent(times[..|times| - 1]); }
  }

  function Used(w: Window): nat { if w.count < LIMIT then w.count else LIMIT }

  /** Before the interval nothing has been counted. */
  lemma {:induction false} NothingYet(times: seq<nat>, lo: int, hi: int)
    requires Clock(times) && Last(times) < lo
    ensures ForwardedIn(times, lo, hi) == 0 && OpenedIn(times, lo, hi) == 0
  {
    if times != [] { NothingYet(times[..|times| - 1], lo, hi); }
  }

  /** While the interval lasts: each window opened in it accounts for ten, the one that was open
      when it began for nine, and the current one only for what it has used. */
  lemma {:induction false} UsedSoFar(times: seq<nat>, lo: int, hi: int)
    requires Clock(times) && times != [] && lo <= hi && Last(times) <= hi
    ensures ForwardedIn(times, lo, hi) <= 10 * OpenedIn(times, lo, hi) + Used(After(times)) - 1
  {
    var init := times[..|times| - 1];
    if Last(times) < lo {
      NothingYet(times, lo, hi);
      WindowCurrent(times);
    } else if init != [] {
      UsedSoFar(init, lo, hi);
      WindowCurrent(init);
    }
  }

  /** Openings are more than a second apart. */
  lemma {:induction false} OpeningsApart(times: seq<nat>, lo: int, hi: int)
    requires Clock(times) && times != [] && lo <= hi && Last(times) <= hi
    ensures var k := OpenedIn(times, lo, hi);
            k > 0 ==> After(times).end - SECOND >= lo + (k - 1) * (SECOND + 1)
  {
    var init := times[..|times| - 1];
    if init != [] {
      OpeningsApart(init, lo, hi);
      if Last(times) >= lo && Opens(After(init), Last(times)) {
        var k := OpenedIn(init, lo, hi);
        assert OpenedIn(times, lo, hi) == k + 1;
        assert k > 0 ==> k * (SECOND + 1) == (k - 1) * (SECOND + 1) + (SECOND + 1);
      }
    }
  }

  /** Orders read after the interval do not count in it. */
  function Until(times: seq<nat>, hi: int): seq<nat> {
    if times == [] || Last(times) <= hi then times else Until(times[..|times| - 1], hi)
  }

  lemma {:induction false} UntilCounts(times: seq<nat>, lo: int, hi: int)
    requires Clock(times)
    ensures Clock(Until(times, hi)) && (Until(times, hi) == [] || Last(Until(times, hi)) <= hi)
    ensures ForwardedIn(Until(times, hi), lo, hi) == ForwardedIn(times, lo, hi)
  {
    if times != [] && Last(times) > hi { UntilCounts(times[..|times| - 1], lo, hi); }
  }

  /** Whole seconds, rounded up. */
  function Ceil(span: nat): nat { (span + SECOND - 1) / SECOND }

  lemma FewOpenings(k: nat, span: nat)
    requires span > 0 && (k > 0 ==> (k - 1) * (SECOND + 1) <= span)
    ensures k <= Ceil(span)
  {
  }

  /** However the clock runs, a closed interval of T > 0 nanoseconds sees at most
      10 * ceil(T in seconds) + 9 forwarded orders: 19 in any one second. */
  lemma ForwardingBounded(times: seq<nat>, lo: int, span: nat)
    requires Clock(times) && span > 0
    ensures ForwardedIn(times, lo, lo + span) <= 10 * Ceil(span) + 9
    ensures span == SECOND ==> ForwardedIn(times, lo, lo + span) <= 19
  {
    var t, hi := Until(times, lo + span), lo + span;
    UntilCounts(times, lo, hi);
    if t != [] {
      var k := OpenedIn(t, lo, hi);
      UsedSoFar(t, lo, hi);
      OpeningsApart(t, lo, hi);
      WindowCurrent(t);
      FewOpenings(k, span);
    }
  }

  // ---------------------------------------------------------------- the compliant sender

  lemma {:induction false} WindowHolds(times: seq<nat>)
    requires Clock(times) && times != []
    ensures var w := After(times); w.count <= ReadIn(times, w.end - SECOND, w.end)
  {
    var init, w := times[..|times| - 1], After(times);
    if init != [] {
      WindowHolds(init);
      WindowCurrent(init);
    }
  }

  /** Orders read in the closed second from lo. */
  function ReadInSecond(times: seq<nat>, lo: int): nat { ReadIn(times, lo, lo + SECOND) }

  /** No closed second holds more than ten orders. */
  ghost predicate Compliant(times: seq<nat>) {
    forall lo: int :: ReadInSecond(times, lo) <= LIMIT
  }

  predicate AllForwarded(times: seq<nat>) {
    times == [] || (Forwarded(times) && AllForwarded(times[..|times| - 1]))
  }

  lemma CompliantBefore(times: seq<nat>)
    requires Compliant(times) && times != []
    ensures Compliant(times[..|times| - 1])
  {
    var init := times[..|times| - 1];
    forall lo: int ensures ReadInSecond(init, lo) <= LIMIT {
      assert ReadInSecond(times, lo) <= LIMIT;
    }
  }

  /** A sender with at most ten orders in every closed second is never rate-limited. */
  lemma {:induction false} CompliantNeverLimited(times: seq<nat>)
    requires Clock(times) && Compliant(times)
    ensures AllForwarded(times)
  {
    if times != [] {
      CompliantBefore(times);
      CompliantNeverLimited(times[..|times| - 1]);
      WindowHolds(times);
      assert ReadInSecond(times, After(times).end - SECOND) <= LIMIT;
    }
  }

  // ---------------------------------------------------------------- when the window does slide

  function ForwardedInSecond(times: seq<nat>, lo: int): nat { ForwardedIn(times, lo, lo + SECOND) }

  /** What a sliding one-second window would promise. */
  ghost predicate Sliding(times: seq<nat>) {
    forall lo: int :: ForwardedInSecond(times, lo) <= LIMIT
  }

  /** Orders forwarded at or after lo and read before the current window opened. */
  function Spill(times: seq<nat>, lo: int): nat {
    if times == [] then 0
    else
      var init := times[..|times| - 1];
      if Opens(After(init), Last(times)) then ForwardedIn(init, lo, Last(times)) else Spill(init, lo)
  }

  /** At every forwarded order, what the window has used and what earlier windows left in the
      second before it fit the limit together. */
  predicate NeverSpills(times: seq<nat>) {
    times == [] ||
    (&& (Forwarded(times) ==> Spill(times, Last(times) - SECOND) + After(times).count <= LIMIT)
     && NeverSpills(times[..|times| - 1]))
  }

  /** Bounds past every reading count alike. */
  lemma {:induction false} ForwardedUpTo(times: seq<nat>, lo: int, hi: int, hi': int)
    requires Clock(times) && Last(times) <= hi && Last(times) <= hi'
    ensures ForwardedIn(times, lo, hi) == ForwardedIn(times, lo, hi')
  {
    if times != [] { ForwardedUpTo(times[..|times| - 1], lo, hi, hi'); }
  }

  lemma {:induction false} ForwardedWider(times: seq<nat>, lo: int, lo': int, hi: int)
    requires lo <= lo'
    ensures ForwardedIn(times, lo', hi) <= ForwardedIn(times, lo, hi)
  {
    if times != [] { ForwardedWider(times[..|times| - 1], lo, lo', hi); }
  }

  /** Since a window that opened at or after lo: the spill before it, and what it has used. */
  lemma {:induction false} SpillAndUsed(times: seq<nat>, lo: int, hi: int)
    requires Clock(times) && times != [] && Last(times) <= hi && lo <= After(times).end - SECOND
    ensures ForwardedIn(times, lo, hi) == Spill(times, lo) + Used(After(times))
  {
    var init := times[..|times| - 1];
    WindowCurrent(times);
    if Opens(After(init), Last(times)) {
      ForwardedUpTo(init, lo, hi, Last(times));
    } else {
      SpillAndUsed(init, lo, hi);
    }
  }

  /** The second that ends with the last order. */
  lemma LastSecond(times: seq<nat>)
    requires Clock(times) && times != []
    ensures ForwardedInSecond(times, Last(times) - SECOND) == Spill(times, Last(times) - SECOND) + Used(After(times))
  {
    WindowCurrent(times);
    SpillAndUsed(times, Last(times) - SECOND, Last(times));
  }

  /** No second holds more than the one that ends with a forwarded order in it. */
  lemma SecondBounded(times: seq<nat>, lo: int)
    requires Clock(times) && times != [] && lo <= Last(times) <= lo + SECOND
    ensures ForwardedInSecond(times, lo) <= ForwardedInSecond(times, Last(times) - SECOND)
  {
    ForwardedUpTo(times, lo, lo + SECOND, Last(times));
    ForwardedWider(times, Last(times) - SECOND, lo, Last(times));
  }

  lemma SlidingBefore(times: seq<nat>)
    requires Sliding(times) && times != []
    ensures Sliding(times[..|times| - 1])
  {
    var init := times[..|times| - 1];
    forall lo: int ensures ForwardedInSecond(init, lo) <= LIMIT {
      assert ForwardedInSecond(times, lo) <= LIMIT;
    }
  }

  lemma SlidingAfter(times: seq<nat>)
    requires Clock(times) && times != [] && Sliding(times[..|times| - 1])
    requires Forwarded(times) ==> Spill(times, Last(times) - SECOND) + After(times).count <= LIMIT
    ensures Sliding(times)
  {
    var init := times[..|times| - 1];
    LastSecond(times);
    forall lo: int ensures ForwardedInSecond(times, lo) <= LIMIT {
      assert ForwardedInSecond(init, lo) <= LIMIT;
      if lo <= Last(times) <= lo + SECOND && Forwarded(times) { SecondBounded(times, lo); }
    }
  }

  /** The limiter keeps the sliding promise, at most ten forwarded orders in every closed second,
      exactly when no forwarded order finds too much spilled over from earlier windows. */
  lemma {:induction false} SlidingExactly(times: seq<nat>)
    requires Clock(times)
    ensures Sliding(times) <==> NeverSpills(times)
  {
    if times != [] {
      SlidingExactly(times[..|times| - 1]);
      if Sliding(times) {
        SlidingBefore(times);
        LastSecond(times);
        assert ForwardedInSecond(times, Last(times) - SECOND) <= LIMIT;
      } else if NeverSpills(times) {
        SlidingAfter(times);
      }
    } else {
      assert forall lo: int :: ForwardedInSecond(times, lo) == 0;
    }
  }

  // ---------------------------------------------------------------- the window does not slide

  function Repeat(t: nat, n: nat): seq<nat> { if n == 0 then [] else Repeat(t, n - 1) + [t] }

  /** A burst inside an open window with room for it is forwarded whole. */
  lemma {:induction false} Burst(times: seq<nat>, t: nat, n: nat, lo: int, hi: int)
    requires Clock(times) && 0 < t && Last(times) <= t && lo <= t <= hi
    requires !Opens(After(times), t) && After(times).count + n <= LIMIT
    ensures var r := times + Repeat(t, n);
            && Clock(r) && Last(r) <= t
            && After(r) == Window(After(times).count + n, After(times).end)
            && ForwardedIn(r, lo, hi) == ForwardedIn(times, lo, hi) + n
  {
    var r := times + Repeat(t, n);
    if n == 0 {
      assert r == times;
    } else {
      Burst(times, t, n - 1, lo, hi);
      assert r[..|r| - 1] == times + Repeat(t, n - 1);
    }
  }

  /** The bound is met: one order, nine more at the very end of its window and ten just after
      put 19 forwarded orders into a single second, so the window is fixed, not sliding. */
  lemma BoundMet() returns (times: seq<nat>)
    ensures Clock(times) && ForwardedIn(times, SECOND + 1, 2 * SECOND + 1) == 19
  {
    var lo, hi := SECOND + 1, 2 * SECOND + 1;
    var first := [1];
    assert first[..0] == [];
    Burst(first, SECOND + 1, 9, lo, hi);
    var ten := first + Repeat(SECOND + 1, 9);
    var next := ten + [SECOND + 2];
    assert next[..|next| - 1] == ten;
    Burst(next, SECOND + 2, 9, lo, hi);
    times := next + Repeat(SECOND + 2, 9);
  }
}
