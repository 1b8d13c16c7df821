/** The closed-loop list scheduler, the batching baseline and the calibrated draws of
    scripts/project_h100_results.py. Times of the scheduler are integer nanoseconds. */
module Projection {
  import opened Prelude
  import opened Sorting
  import opened Records

  const NS := 1000000000

  /** `int(x)`: truncation toward zero. */
  function Truncate(x: real): int { if x >= 0.0 then x.Floor else -((-x).Floor) }

  function Sum(s: seq<int>): int { if s == [] then 0 else Sum(s[..|s| - 1]) + s[|s| - 1] }

  lemma {:induction false} SumUpdate(s: seq<int>, k: nat, x: int)
    requires k < |s|
    ensures Sum(s[k := x]) == Sum(s) - s[k] + x
  {
    var before := s[..|s| - 1];
    if k == |s| - 1 {
      assert s[k := x][..|s| - 1] == before;
    } else {
      assert s[k := x][..|s| - 1] == before[k := x];
      SumUpdate(before, k, x);
    }
  }

  lemma {:induction false} SumBounds(s: seq<int>, low: int, high: int)
    requires forall i :: 0 <= i < |s| ==> low <= s[i] <= high
    ensures |s| * low <= Sum(s) <= |s| * high
  {
    if s != [] {
      SumBounds(s[..|s| - 1], low, high);
      assert |s| * low == (|s| - 1) * low + low && |s| * high == (|s| - 1) * high + high;
    }
  }

  /** `m` slots' worth of time `t`. */
  function Slots(m: int, t: int): int { m * t }

  // ---- closed loop ----------------------------------------------------------------------------

  /** Nanoseconds of the gaps between tokens, at least one each. */
  function GapsNs(gaps: seq<real>): (r: seq<int>)
    ensures |r| == |gaps| && forall i :: 0 <= i < |r| ==> r[i] >= 1
    ensures forall i :: 0 <= i < |r| ==>
              r[i] == if Truncate(gaps[i] * NS as real) < 1 then 1 else Truncate(gaps[i] * NS as real)
  {
    seq(|gaps|, i requires 0 <= i < |gaps| =>
      if Truncate(gaps[i] * NS as real) < 1 then 1 else Truncate(gaps[i] * NS as real))
  }

  /** How long a request keeps its slot; it does not depend on when it is sent. */
  function SlotTime(ttft: real, gaps: seq<real>): (d: int)
    requires ttft >= 0.0
    ensures d >= 0
  {
    SumBounds(GapsNs(gaps), 0, LargestOf(GapsNs(gaps)));
    assert ttft * NS as real >= 0.0;
    (ttft * NS as real).Floor + Sum(GapsNs(gaps))
  }

  function LargestOf(s: seq<int>): (m: int)
    ensures forall i :: 0 <= i < |s| ==> s[i] <= m
    ensures m >= 0
  {
    if s == [] then 0
    else
      var m := LargestOf(s[..|s| - 1]);
      if s[|s| - 1] > m then s[|s| - 1] else m
  }

  /** Sending later shifts the truncated first-token time by whole nanoseconds. */
  lemma FirstTokenShifts(sendNs: nat, ttft: real)
    requires ttft >= 0.0
    ensures Truncate(sendNs as real + ttft * NS as real) == sendNs + (ttft * NS as real).Floor
  {
  }

  /** A slot time in nanoseconds, as it is made up: the time to the first token rounded down, and each gap
      rounded down but no less than one. */
  lemma SlotTimeExactly(ttft: real, gaps: seq<real>) returns (first: nat, ns: seq<int>)
    requires ttft >= 0.0
    ensures SlotTime(ttft, gaps) == first + Sum(ns) && |ns| == |gaps|
    ensures first as real <= ttft * 1000000000.0 < (first + 1) as real
    ensures forall i :: 0 <= i < |gaps| ==>
              if gaps[i] * 1000000000.0 < 2.0 then ns[i] == 1
              else ns[i] as real <= gaps[i] * 1000000000.0 < (ns[i] + 1) as real
  {
    first, ns := (ttft * NS as real).Floor, GapsNs(gaps);
    forall i | 0 <= i < |gaps|
      ensures if gaps[i] * 1000000000.0 < 2.0 then ns[i] == 1
              else ns[i] as real <= gaps[i] * 1000000000.0 < (ns[i] + 1) as real
    {
      WholeNanoseconds(gaps[i] * NS as real);
    }
  }

  lemma WholeNanoseconds(x: real)
    ensures var n := if Truncate(x) < 1 then 1 else Truncate(x);
            if x < 2.0 then n == 1 else n as real <= x < (n + 1) as real
  {
    if x < 0.0 { assert (-x).Floor >= 0; }
  }

  datatype Slotted = Slotted(slot: nat, send: int, finish: int)

  /** The first slot that frees up earliest. */
  method EarliestSlot(freeAt: seq<int>) returns (slot: nat)
    requires freeAt != []
    ensures slot < |freeAt|
    ensures forall k :: 0 <= k < |freeAt| ==> freeAt[slot] <= freeAt[k]
    ensures forall k :: 0 <= k < slot ==> freeAt[slot] < freeAt[k]
  {
    slot := 0;
    for i := 1 to |freeAt|
      invariant slot < i
      invariant forall k :: 0 <= k < i ==> freeAt[slot] <= freeAt[k]
      invariant forall k :: 0 <= k < slot ==> freeAt[slot] < freeAt[k]
    {
      if freeAt[i] < freeAt[slot] {
        slot := i;
      }
    }
  }

  /** What any closed-loop schedule on `m` slots of these durations satisfies: durations kept,
      sends in order, and no slot used twice at once. */
  ghost predicate ValidSchedule(recs: seq<Slotted>, durations: seq<int>, m: nat) {
    && |recs| == |durations|
    && (forall i :: 0 <= i < |recs| ==>
          recs[i].slot < m && recs[i].send >= 0 && recs[i].finish == recs[i].send + durations[i])
    && (forall i, j :: 0 <= i < j < |recs| ==> recs[i].send <= recs[j].send)
    && (forall i, j :: 0 <= i < j < |recs| ==> recs[i].slot == recs[j].slot ==> recs[i].finish <= recs[j].send)
  }

  function LastFinish(recs: seq<Slotted>): (t: int)
    ensures forall i :: 0 <= i < |recs| ==> recs[i].finish <= t
    ensures t >= 0
  {
    if recs == [] then 0
    else
      var t := LastFinish(recs[..|recs| - 1]);
      if recs[|recs| - 1].finish > t then recs[|recs| - 1].finish else t
  }

  /** No slot frees before its requests finish, none after the last finish, and every send is over
      by the time any slot frees. */
  ghost predicate SlotsTrack(recs: seq<Slotted>, freeAt: seq<int>) {
    && (forall k :: 0 <= k < |freeAt| ==> 0 <= freeAt[k] <= LastFinish(recs))
    && (forall i :: 0 <= i < |recs| ==> recs[i].slot < |freeAt| && recs[i].finish <= freeAt[recs[i].slot])
    && (forall i, k :: 0 <= i < |recs| && 0 <= k < |freeAt| ==> recs[i].send <= freeAt[k])
  }

  /** The loop's invariant: a valid schedule so far, slots tracked, all slot time accounted for, and
      no request finished later than the greedy bound allows. */
  ghost predicate LoopState(recs: seq<Slotted>, durations: seq<int>, freeAt: seq<int>) {
    && ValidSchedule(recs, durations, |freeAt|)
    && SlotsTrack(recs, freeAt)
    && Sum(freeAt) == Sum(durations)
    && Slots(|freeAt|, LastFinish(recs)) <= Sum(durations) + Slots(|freeAt| - 1, LargestOf(durations))
  }

  lemma Grow(m: nat, a: int, b: int)
    requires a <= b
    ensures Slots(m, a) <= Slots(m, b)
  {
  }

  ghost predicate Earliest(freeAt: seq<int>, slot: nat) {
    slot < |freeAt| && forall k :: 0 <= k < |freeAt| ==> freeAt[slot] <= freeAt[k]
  }

  lemma LastFinishAppend(recs: seq<Slotted>, r: Slotted)
    ensures LastFinish(recs + [r]) == if r.finish > LastFinish(recs) then r.finish else LastFinish(recs)
  {
    assert (recs + [r])[..|recs|] == recs;
  }

  lemma TracksOn(recs: seq<Slotted>, freeAt: seq<int>, slot: nat, d: int)
    requires SlotsTrack(recs, freeAt) && Earliest(freeAt, slot) && d >= 0
    ensures SlotsTrack(recs + [Slotted(slot, freeAt[slot], freeAt[slot] + d)], freeAt[slot := freeAt[slot] + d])
  {
    hide LastFinish;
    LastFinishAppend(recs, Slotted(slot, freeAt[slot], freeAt[slot] + d));
  }

  lemma ScheduleOn(recs: seq<Slotted>, durations: seq<int>, freeAt: seq<int>, slot: nat, d: int)
    requires ValidSchedule(recs, durations, |freeAt|) && SlotsTrack(recs, freeAt) && Earliest(freeAt, slot)
    ensures ValidSchedule(recs + [Slotted(slot, freeAt[slot], freeAt[slot] + d)], durations + [d], |freeAt|)
  {
    hide LastFinish;
  }

  lemma LoopStep(recs: seq<Slotted>, durations: seq<int>, freeAt: seq<int>, slot: nat, d: int)
    requires LoopState(recs, durations, freeAt) && Earliest(freeAt, slot) && d >= 0
    ensures LoopState(recs + [Slotted(slot, freeAt[slot], freeAt[slot] + d)], durations + [d],
                      freeAt[slot := freeAt[slot] + d])
  {
    hide SlotsTrack, ValidSchedule, LastFinish, Sum, LargestOf, Slots, Earliest;
    EarliestIsSlot(freeAt, slot);
    var send, m := freeAt[slot], |freeAt|;
    TracksOn(recs, freeAt, slot, d);
    ScheduleOn(recs, durations, freeAt, slot, d);
    SumUpdate(freeAt, slot, send + d);
    SumAppend(durations, d);
    LargestAppend(durations, d);
    LastFinishAppend(recs, Slotted(slot, send, send + d));
    EarliestTimesSlots(recs, freeAt, slot);
    GreedyArithmetic(m, send, d, LastFinish(recs), Sum(durations), LargestOf(durations), LargestOf(durations + [d]));
  }

  lemma EarliestIsSlot(freeAt: seq<int>, slot: nat)
    requires Earliest(freeAt, slot)
    ensures slot < |freeAt|
  {
  }

  lemma SumAppend(s: seq<int>, x: int)
    ensures Sum(s + [x]) == Sum(s) + x
  {
    assert (s + [x])[..|s|] == s;
  }

  lemma LargestAppend(s: seq<int>, x: int)
    ensures LargestOf(s + [x]) >= x && LargestOf(s + [x]) >= LargestOf(s)
  {
    assert (s + [x])[..|s|] == s;
  }

  lemma EarliestTimesSlots(recs: seq<Slotted>, freeAt: seq<int>, slot: nat)
    requires SlotsTrack(recs, freeAt) && Earliest(freeAt, slot)
    ensures Slots(|freeAt|, freeAt[slot]) <= Sum(freeAt)
  {
    hide LastFinish, Sum, Slots;
    GreedyBound(freeAt, freeAt[slot], LastFinish(recs));
  }

  lemma GreedyBound(freeAt: seq<int>, send: int, last: int)
    requires forall k :: 0 <= k < |freeAt| ==> send <= freeAt[k] <= last
    ensures Slots(|freeAt|, send) <= Sum(freeAt)
  {
    SumBounds(freeAt, send, last);
  }

  lemma GreedyArithmetic(m: nat, send: int, d: int, last: int, work: int, longest: int, longest': int)
    requires m >= 1 && 0 <= d <= longest' && longest <= longest' && Slots(m, send) <= work
    requires Slots(m, last) <= work + Slots(m - 1, longest)
    ensures Slots(m, last) <= work + d + Slots(m - 1, longest')
    ensures Slots(m, send + d) <= work + d + Slots(m - 1, longest')
  {
    Grow(m - 1, longest, longest');
    Grow(m - 1, d, longest');
    assert Slots(m, send + d) == Slots(m, send) + d + Slots(m - 1, d);
  }

  /** Send each request as a slot frees, in order. The result is a valid schedule, and with `m`
      slots, total slot time W and longest request D its last finish is between W/m and
      W/m + (1 - 1/m) * D. No slots and something to send is the empty-minimum error. */
  method ScheduleClosedLoop(ttft: seq<real>, gaps: seq<seq<real>>, m: nat)
    returns (res: Option<seq<Slotted>>, ghost durations: seq<int>)
    requires |gaps| == |ttft| && forall i :: 0 <= i < |ttft| ==> ttft[i] >= 0.0
    ensures |durations| == |ttft| && forall i :: 0 <= i < |ttft| ==> durations[i] == SlotTime(ttft[i], gaps[i])
    ensures res.None? <==> m == 0 && ttft != []
    ensures res.Some? ==> ValidSchedule(res.value, durations, m)
    ensures res.Some? && m >= 1 ==>
              Sum(durations) <= Slots(m, LastFinish(res.value)) <= Sum(durations) + Slots(m - 1, LargestOf(durations))
  {
    durations := seq(|ttft|, i requires 0 <= i < |ttft| => SlotTime(ttft[i], gaps[i]));
    if m == 0 {
      if ttft == [] { return Some([]), durations; }
      return None, durations;
    }
    var recs := FillSlots(ttft, gaps, m, durations);
    res := Some(recs);
  }

  method FillSlots(ttft: seq<real>, gaps: seq<seq<real>>, m: nat,
                   ghost durations: seq<int>) returns (recs: seq<Slotted>)
    requires m >= 1 && |gaps| == |ttft| == |durations| && forall i :: 0 <= i < |ttft| ==> ttft[i] >= 0.0
    requires forall i :: 0 <= i < |ttft| ==> durations[i] == SlotTime(ttft[i], gaps[i])
    ensures ValidSchedule(recs, durations, m)
    ensures Sum(durations) <= Slots(m, LastFinish(recs)) <= Sum(durations) + Slots(m - 1, LargestOf(durations))
  {
    hide LoopState, ValidSchedule, Sum, LargestOf, LastFinish, SlotTime, Slots;
    var freeAt: seq<nat> := seq(m, i => 0);
    recs := [];
    NothingScheduled(freeAt);
    for i := 0 to |ttft|
      invariant |freeAt| == m && LoopState(recs, durations[..i], freeAt)
    {
      assert durations[..i + 1] == durations[..i] + [durations[i]];
      var slot := EarliestSlot(freeAt);
      var send := freeAt[slot];
      var last := FinishOf(send, ttft[i], gaps[i]);
      LoopStep(recs, durations[..i], freeAt, slot, durations[i]);
      freeAt := freeAt[slot := last];
      recs := recs + [Slotted(slot, send, last)];
    }
    assert durations[..|ttft|] == durations;
    Finished(recs, durations, freeAt);
  }

  /** When a request sent at `send` gives its slot back. */
  method FinishOf(send: nat, ttft: real, gaps: seq<real>) returns (last: int)
    requires ttft >= 0.0
    ensures last == send + SlotTime(ttft, gaps)
  {
    FirstTokenShifts(send, ttft);
    var first := Truncate(send as real + ttft * NS as real);
    last := first + Sum(GapsNs(gaps));
  }

  lemma NothingScheduled(freeAt: seq<int>)
    requires freeAt != [] && forall k :: 0 <= k < |freeAt| ==> freeAt[k] == 0
    ensures LoopState([], [], freeAt)
  {
    SumBounds(freeAt, 0, 0);
  }

  lemma Finished(recs: seq<Slotted>, durations: seq<int>, freeAt: seq<int>)
    requires LoopState(recs, durations, freeAt) && freeAt != []
    ensures ValidSchedule(recs, durations, |freeAt|)
    ensures Sum(durations) <= Slots(|freeAt|, LastFinish(recs))
            <= Sum(durations) + Slots(|freeAt| - 1, LargestOf(durations))
  {
    hide ValidSchedule, LargestOf, LastFinish, Sum;
    SumBounds(freeAt, 0, LastFinish(recs));
  }

  // ---- overlap ----------------------------------------------------------------------------------

  /** Requests in progress at time `t`. */
  ghost function Active(recs: seq<Slotted>, t: int): set<nat> {
    set i: nat | i < |recs| && recs[i].send <= t < recs[i].finish
  }

  /** At most `m` requests are ever in progress at once. */
  lemma AtMostOnePerSlot(recs: seq<Slotted>, durations: seq<int>, m: nat, t: int)
    requires ValidSchedule(recs, durations, m)
    ensures |Active(recs, t)| <= m
  {
    SlotsBound(recs, Active(recs, t), m);
  }

  lemma {:induction false} SlotsBound(recs: seq<Slotted>, s: set<nat>, m: nat)
    requires forall i :: i in s ==> i < |recs| && recs[i].slot < m
    requires forall i, j :: i in s && j in s && i != j ==> recs[i].slot != recs[j].slot
    ensures |s| <= m
    decreases m
  {
    if m == 0 {
      assert s == {};
    } else if exists i :: i in s && recs[i].slot == m - 1 {
      var i :| i in s && recs[i].slot == m - 1;
      SlotsBound(recs, s - {i}, m - 1);
    } else {
      SlotsBound(recs, s, m - 1);
    }
  }

  // ---- calibrated draws -------------------------------------------------------------------------------

  const Z95 := 1.6448536269514722

  /** The affine image of a sample whose median is 0 and whose p95 is `Z95`. */
  function Calibrated(draws: seq<real>): seq<real> {
    if |draws| < 4 then draws
    else
      var median := PercentileOf(draws, 50.0).value;
      var tail := PercentileOf(draws, 95.0).value;
      if tail <= median then draws else Affine(draws, median, Z95 / (tail - median))
  }

  /** On four or more draws whose p95 exceeds the median, the result has median exactly 0 and p95
      exactly `Z95`, and every draw keeps its rank; any other sample is returned as it is. */
  lemma CalibrationExact(draws: seq<real>)
    ensures var calibrates := |draws| >= 4 && PercentileOf(draws, 95.0).value > PercentileOf(draws, 50.0).value;
            var r := Calibrated(draws);
            && |r| == |draws|
            && (calibrates ==> PercentileOf(r, 50.0) == Some(0.0) && PercentileOf(r, 95.0) == Some(Z95))
            && (!calibrates ==> r == draws)
            && (forall i, j :: 0 <= i < |draws| && 0 <= j < |draws| ==> (r[i] <= r[j] <==> draws[i] <= draws[j]))
  {
    hide PercentileOf, Rescale;
    if |draws| >= 4 && PercentileOf(draws, 95.0).value > PercentileOf(draws, 50.0).value {
      var median, tail := PercentileOf(draws, 50.0).value, PercentileOf(draws, 95.0).value;
      var scale := Z95 / (tail - median);
      ScaleHits(median, tail);
      PercentileAffine(draws, 50.0, median, scale);
      PercentileAffine(draws, 95.0, median, scale);
      var r := Calibrated(draws);
      forall i, j | 0 <= i < |draws| && 0 <= j < |draws| ensures r[i] <= r[j] <==> draws[i] <= draws[j] {
        RescaleOrder(draws[i], draws[j], median, scale);
      }
    }
  }

  lemma ScaleHits(median: real, tail: real)
    requires tail > median
    ensures var scale := Z95 / (tail - median);
            scale > 0.0 && Rescale(median, median, scale) == 0.0 && Rescale(tail, median, scale) == Z95
  {
  }
}
