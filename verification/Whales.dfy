/** The whale's schedule (src/agents/WhaleTrader.cpp) over whole runs of ticks. */
module Whales {
  /** `interval + jitter`, clamped to at least one tick. */
  function Delay(interval: int, jitter: int): (d: nat)
    ensures d >= 1
  {
    if interval + jitter < 1 then 1 else interval + jitter
  }

  /** The tick after which the whale acts, given what it drew when `tick` reached it. */
  function Reschedule(next: nat, interval: int, tick: nat, jitter: int): nat {
    if tick < next then next else tick + Delay(interval, jitter)
  }

  datatype Schedule = Schedule(next: nat, acts: seq<nat>)

  /** The schedule after ticks 0 .. |draws| - 1; draws[t] is the jitter at hand in tick t, first
      the one drawn in the constructor. */
  function After(interval: int, first: int, draws: seq<int>): Schedule {
    if draws == [] then Schedule(Delay(interval, first), [])
    else
      var t := |draws| - 1;
      var s := After(interval, first, draws[..t]);
      Schedule(Reschedule(s.next, interval, t, draws[t]), if t < s.next then s.acts else s.acts + [t])
  }

  /** The tick appointed for the act after `acts`: interval and draw, but at least one, after tick 0
      by the constructor, and after the last act by that act. */
  function Appointed(interval: int, first: int, draws: seq<int>, acts: seq<nat>): nat {
    if acts == [] then (if interval + first < 1 then 1 else interval + first)
    else
      var last := acts[|acts| - 1];
      if last >= |draws| then last
      else if interval + draws[last] < 1 then last + 1
      else last + interval + draws[last]
  }

  /** Every act came in the tick appointed for it. */
  predicate OnTime(interval: int, first: int, draws: seq<int>, acts: seq<nat>) {
    acts == [] ||
    (&& acts[|acts| - 1] < |draws|
     && acts[|acts| - 1] == Appointed(interval, first, draws, acts[..|acts| - 1])
     && OnTime(interval, first, draws, acts[..|acts| - 1]))
  }

  lemma {:induction false} OnTimeLater(interval: int, first: int, draws: seq<int>, more: int, acts: seq<nat>)
    requires OnTime(interval, first, draws, acts)
    ensures OnTime(interval, first, draws + [more], acts)
    ensures Appointed(interval, first, draws + [more], acts) == Appointed(interval, first, draws, acts)
  {
    if acts != [] { OnTimeLater(interval, first, draws, more, acts[..|acts| - 1]); }
  }

  /** Over every run of ticks the whale acts exactly in its appointed ticks, and its next
      appointment is never in the past: none is missed. */
  lemma {:induction false} ActsOnSchedule(interval: int, first: int, draws: seq<int>)
    ensures var s := After(interval, first, draws);
            && OnTime(interval, first, draws, s.acts)
            && s.next == Appointed(interval, first, draws, s.acts)
            && |draws| <= s.next
  {
    if draws != [] {
      var t := |draws| - 1;
      var s, r := After(interval, first, draws[..t]), After(interval, first, draws);
      ActsOnSchedule(interval, first, draws[..t]);
      assert draws == draws[..t] + [draws[t]];
      OnTimeLater(interval, first, draws[..t], draws[t], s.acts);
      if t >= s.next { assert r.acts[..|r.acts| - 1] == s.acts; }
    }
  }

  /** The whale acts in tick t exactly when its appointment has come by then. */
  lemma {:induction false} ActsExactly(interval: int, first: int, draws: seq<int>, t: nat)
    ensures t in After(interval, first, draws).acts
       <==> t < |draws| && After(interval, first, draws[..t]).next <= t
  {
    if draws != [] {
      var n := |draws| - 1;
      ActsExactly(interval, first, draws[..n], t);
      if t < n { assert draws[..n][..t] == draws[..t]; }
    }
  }

  /** An act comes at its predecessor plus interval and the draw made then, but at least one. */
  predicate Follows(interval: int, jitter: int, before: nat, after: nat) {
    after - before == if interval + jitter < 1 then 1 else interval + jitter
  }

  lemma {:induction false} OnTimeFollows(interval: int, first: int, draws: seq<int>, acts: seq<nat>, i: nat)
    requires OnTime(interval, first, draws, acts) && i < |acts|
    ensures acts[i] < |draws|
    ensures i == 0 ==> Follows(interval, first, 0, acts[0])
    ensures i > 0 ==> acts[i - 1] < |draws| && Follows(interval, draws[acts[i - 1]], acts[i - 1], acts[i])
  {
    if i < |acts| - 1 { OnTimeFollows(interval, first, draws, acts[..|acts| - 1], i); }
    if i == |acts| - 1 && i > 0 { OnTimeFollows(interval, first, draws, acts[..i], i - 1); }
  }

  /** Over every run the gap before each act is exactly what was drawn for it. */
  lemma ActGaps(interval: int, first: int, draws: seq<int>, i: nat)
    requires i < |After(interval, first, draws).acts|
    ensures var acts := After(interval, first, draws).acts;
            if i == 0 then Follows(interval, first, 0, acts[0])
            else acts[i - 1] < |draws| && Follows(interval, draws[acts[i - 1]], acts[i - 1], acts[i])
  {
    ActsOnSchedule(interval, first, draws);
    OnTimeFollows(interval, first, draws, After(interval, first, draws).acts, i);
  }

  /** Consecutive acts, and tick 0 and the first, are from least to most ticks apart. */
  predicate Spaced(acts: seq<nat>, least: nat, most: nat) {
    acts == [] ||
    (&& Last(acts[..|acts| - 1]) + least <= acts[|acts| - 1] <= Last(acts[..|acts| - 1]) + most
     && Spaced(acts[..|acts| - 1], least, most))
  }

  function Last(acts: seq<nat>): nat { if acts == [] then 0 else acts[|acts| - 1] }

  predicate Within(draws: seq<int>, jitter: int) {
    forall t :: 0 <= t < |draws| ==> -jitter <= draws[t] <= jitter
  }

  /** At least one. */
  function Clamped(ticks: int): (r: nat)
    ensures r == if ticks < 1 then 1 else ticks
  {
    if ticks < 1 then 1 else ticks
  }

  lemma {:induction false} OnTimeSpaced(interval: int, jitter: int, first: int, draws: seq<int>, acts: seq<nat>)
    requires -jitter <= first <= jitter && Within(draws, jitter) && OnTime(interval, first, draws, acts)
    ensures Spaced(acts, Clamped(interval - jitter), Clamped(interval + jitter))
  {
    if acts != [] { OnTimeSpaced(interval, jitter, first, draws, acts[..|acts| - 1]); }
  }

  /** Consecutive acts are between max(1, interval - jitter) and max(1, interval + jitter) ticks
      apart, and so is the first act from tick 0. */
  lemma ActsSpaced(interval: int, jitter: int, first: int, draws: seq<int>, i: nat)
    requires -jitter <= first <= jitter && Within(draws, jitter) && i < |After(interval, first, draws).acts|
    ensures var acts := After(interval, first, draws).acts;
            var last := if i == 0 then 0 else acts[i - 1];
            && last + 1 <= acts[i] && last + interval - jitter <= acts[i]
            && (acts[i] <= last + 1 || acts[i] <= last + interval + jitter)
  {
    ActGaps(interval, first, draws, i);
  }

  lemma RunSpaced(interval: int, jitter: int, first: int, draws: seq<int>)
    requires -jitter <= first <= jitter && Within(draws, jitter)
    ensures Spaced(After(interval, first, draws).acts, Clamped(interval - jitter), Clamped(interval + jitter))
  {
    ActsOnSchedule(interval, first, draws);
    OnTimeSpaced(interval, jitter, first, draws, After(interval, first, draws).acts);
  }

  lemma {:induction false} SpacedApart(acts: seq<nat>, gap: nat, most: nat, i: nat, j: nat)
    requires Spaced(acts, gap, most) && i <= j < |acts|
    ensures acts[j] - acts[i] >= (j - i) * gap
    decreases |acts|
  {
    var n := |acts| - 1;
    if j < n {
      SpacedApart(acts[..n], gap, most, i, j);
    } else if i < j {
      SpacedApart(acts[..n], gap, most, i, j - 1);
      assert (j - i) * gap == (j - 1 - i) * gap + gap;
    }
  }

  /** So any two acts are as many least delays apart as there are acts between them. */
  lemma ActsApart(interval: int, jitter: int, first: int, draws: seq<int>, i: nat, j: nat)
    requires -jitter <= first <= jitter && Within(draws, jitter)
    requires i <= j < |After(interval, first, draws).acts|
    ensures var acts := After(interval, first, draws).acts;
            acts[j] - acts[i] >= (j - i) * (if interval - jitter < 1 then 1 else interval - jitter)
  {
    RunSpaced(interval, jitter, first, draws);
    SpacedApart(After(interval, first, draws).acts, Clamped(interval - jitter), Clamped(interval + jitter), i, j);
  }

  /** Acts in the ticks lo .. hi - 1. */
  function CountIn(acts: seq<nat>, lo: int, hi: int): nat {
    if acts == [] then 0
    else CountIn(acts[..|acts| - 1], lo, hi) + if lo <= acts[|acts| - 1] < hi then 1 else 0
  }

  /** The count is how many places in the list of acts lie in those ticks. */
  lemma {:induction false} CountIs(acts: seq<nat>, lo: int, hi: int)
    ensures CountIn(acts, lo, hi) == |set i | 0 <= i < |acts| && lo <= acts[i] < hi|
  {
    if acts != [] {
      var n := |acts| - 1;
      var all, before := set i | 0 <= i < |acts| && lo <= acts[i] < hi, set i | 0 <= i < n && lo <= acts[..n][i] < hi;
      CountIs(acts[..n], lo, hi);
      assert all == before + if lo <= acts[n] < hi then {n} else {};
    }
  }

  /** A bound past every act changes no count. */
  lemma {:induction false} CountBelow(acts: seq<nat>, least: nat, most: nat, lo: int, hi: int, hi': int)
    requires Spaced(acts, least, most) && Last(acts) < hi && Last(acts) < hi'
    ensures CountIn(acts, lo, hi) == CountIn(acts, lo, hi')
  {
    if acts != [] { CountBelow(acts[..|acts| - 1], least, most, lo, hi, hi'); }
  }

  lemma {:induction false} SpacedCount(acts: seq<nat>, gap: nat, most: nat, lo: nat, hi: int)
    requires Spaced(acts, gap, most) && gap >= 1
    ensures CountIn(acts, lo, hi) * gap <= if lo < hi then hi - lo + gap - 1 else 0
    decreases |acts|
  {
    if acts != [] {
      var init, x := acts[..|acts| - 1], acts[|acts| - 1];
      if lo <= x < hi {
        var hi' := x - gap + 1;
        CountBelow(init, gap, most, lo, hi, hi');
        SpacedCount(init, gap, most, lo, hi');
        assert (CountIn(init, lo, hi') + 1) * gap == CountIn(init, lo, hi') * gap + gap;
      } else {
        SpacedCount(init, gap, most, lo, hi);
      }
    }
  }

  lemma QuotientBound(c: nat, gap: nat, n: nat)
    requires gap >= 1 && c * gap <= n
    ensures c <= n / gap
  {
    var q := n / gap;
    assert n < (q + 1) * gap;
    assert c > q ==> c * gap >= (q + 1) * gap;
  }

  /** Any n consecutive ticks hold at most n over the least delay, rounded up. */
  lemma ActsBounded(interval: int, jitter: int, first: int, draws: seq<int>, lo: nat, n: nat)
    requires -jitter <= first <= jitter && Within(draws, jitter)
    ensures var gap := if interval - jitter < 1 then 1 else interval - jitter;
            CountIn(After(interval, first, draws).acts, lo, lo + n) <= (n + gap - 1) / gap
  {
    var gap, acts := Clamped(interval - jitter), After(interval, first, draws).acts;
    RunSpaced(interval, jitter, first, draws);
    SpacedCount(acts, gap, Clamped(interval + jitter), lo, lo + n);
    QuotientBound(CountIn(acts, lo, lo + n), gap, n + gap - 1);
  }

  const DEFAULT_INTERVAL := 200

  /** With the default settings, interval 200 and jitter 50, that is at most n over 150, rounded up. */
  lemma DefaultActsBounded(first: int, draws: seq<int>, lo: nat, n: nat)
    requires -50 <= first <= 50 && Within(draws, 50)
    ensures CountIn(After(DEFAULT_INTERVAL, first, draws).acts, lo, lo + n) <= (n + 149) / 150
  {
    ActsBounded(DEFAULT_INTERVAL, 50, first, draws, lo, n);
  }
}
