/** One lane's bounded sliding window (`LaneWindow`, `LaneSummary` of
    src/turboserve/canary/controller.py): head-only expiry plus a ring-buffer cap, and when
    that incremental form equals a recomputation from scratch. */
module LaneWindows {
  import opened Prelude
  import opened Records

  datatype Lane = Stable | Canary

  datatype Sample = Sample(t: real, ok: bool, ttft: Option<real>, e2e: Option<real>)

  datatype RawSummary = Summary(lane: Lane, requests: nat, errors: nat,
                                p95Ttft: Option<real>, p95E2e: Option<real>, windowS: Option<real>)

  /** What the constructor's checks leave: no more errors than requests. */
  type LaneSummary = s: RawSummary | s.errors <= s.requests
    witness Summary(Stable, 0, 0, None, None, None)

  /** The failed fraction; zero for a window without requests. */
  function ErrorRate(s: LaneSummary): (r: real)
    ensures 0.0 <= r <= 1.0
    ensures r * s.requests as real == s.errors as real
  {
    if s.requests == 0 then 0.0
    else
      Quotient(s.errors as real, s.requests as real);
      RatioInUnit(s.errors as real, s.requests as real);
      s.errors as real / s.requests as real
  }

  lemma RatioInUnit(a: real, b: real)
    requires 0.0 <= a <= b && b > 0.0
    ensures 0.0 <= a / b <= 1.0
  {
    Quotient(a, b);
    CompareScaled(a / b, 0.0, b);
    CompareScaled(1.0, a / b, b);
  }

  // ---- aggregation -----------------------------------------------------------------

  function Errors(samples: seq<Sample>): (n: nat)
    ensures n <= |samples|
  {
    if samples == [] then 0 else (if samples[0].ok then 0 else 1) + Errors(samples[1..])
  }

  /** First-token latencies of the successful samples that have one. */
  function TtftLatencies(samples: seq<Sample>): seq<real> {
    if samples == [] then []
    else (if samples[0].ok && samples[0].ttft.Some? then [samples[0].ttft.value] else [])
         + TtftLatencies(samples[1..])
  }

  /** End-to-end latencies of the successful samples that have one. */
  function E2eLatencies(samples: seq<Sample>): seq<real> {
    if samples == [] then []
    else (if samples[0].ok && samples[0].e2e.Some? then [samples[0].e2e.value] else [])
         + E2eLatencies(samples[1..])
  }

  function Summarize(lane: Lane, samples: seq<Sample>, width: real): LaneSummary {
    Summary(lane, |samples|, Errors(samples), PercentileOf(TtftLatencies(samples), 95.0),
            PercentileOf(E2eLatencies(samples), 95.0), Some(width))
  }

  // ---- what a summary means -----------------------------------------------------------

  /** `at` lists these places below `n`, in order. */
  ghost predicate ListsAll(at: seq<nat>, n: nat, places: set<nat>) {
    && (forall i: nat :: i in at <==> i in places) && (forall i :: i in places ==> i < n)
    && forall j, k :: 0 <= j < k < |at| ==> at[j] < at[k]
  }

  ghost function FailedAt(samples: seq<Sample>): set<nat> { set i: nat | i < |samples| && !samples[i].ok }

  /** Where a successful sample has a first-token latency. */
  ghost function TtftAt(samples: seq<Sample>): set<nat> {
    set i: nat | i < |samples| && samples[i].ok && samples[i].ttft.Some?
  }

  ghost function E2eAt(samples: seq<Sample>): set<nat> {
    set i: nat | i < |samples| && samples[i].ok && samples[i].e2e.Some?
  }

  function Later(at: seq<nat>): (r: seq<nat>)
    ensures |r| == |at| && forall k :: 0 <= k < |at| ==> r[k] == at[k] + 1
  {
    seq(|at|, k requires 0 <= k < |at| => at[k] + 1)
  }

  /** The places of the tail, one further on, after the first place if that is one. */
  lemma {:induction false} ListsCons(at: seq<nat>, n: nat, tail: set<nat>, places: set<nat>)
    requires ListsAll(at, n, tail) && (forall i: nat :: i + 1 in places <==> i in tail)
    requires forall i :: i in places ==> i < n + 1
    ensures ListsAll((if 0 in places then [0] else []) + Later(at), n + 1, places)
  {
    var r := (if 0 in places then [0] else []) + Later(at);
    forall i: nat ensures i in r <==> i in places {
      if i > 0 {
        assert i - 1 in tail <==> i in places;
        if i in places {
          var k :| 0 <= k < |at| && at[k] == i - 1;
          assert Later(at)[k] == i;
        }
      }
    }
  }

  lemma {:induction false} FailedListed(samples: seq<Sample>) returns (at: seq<nat>)
    ensures ListsAll(at, |samples|, FailedAt(samples)) && |at| == Errors(samples)
  {
    if samples == [] {
      at := [];
    } else {
      at := FailedListed(samples[1..]);
      ListsCons(at, |samples| - 1, FailedAt(samples[1..]), FailedAt(samples));
      at := (if 0 in FailedAt(samples) then [0] else []) + Later(at);
    }
  }

  /** These are the first-token latencies of the samples at these places. */
  ghost predicate TtftsAre(samples: seq<Sample>, at: seq<nat>, values: seq<real>) {
    && |values| == |at|
    && forall k :: 0 <= k < |at| ==> at[k] < |samples| && samples[at[k]].ttft == Some(values[k])
  }

  lemma {:induction false} TtftsCons(samples: seq<Sample>, at: seq<nat>, values: seq<real>, head: seq<real>)
    requires samples != [] && TtftsAre(samples[1..], at, values)
    requires head == if samples[0].ttft.Some? && head != [] then [samples[0].ttft.value] else []
    ensures TtftsAre(samples, (if head != [] then [0] else []) + Later(at), head + values)
  {
    var r := (if head != [] then [0] else []) + Later(at);
    forall k | 0 <= k < |r| ensures r[k] < |samples| && samples[r[k]].ttft == Some((head + values)[k]) {
      if k >= |head| { assert samples[1..][at[k - |head|]].ttft == Some(values[k - |head|]); }
    }
  }

  /** A summary uses those of all successful samples that have one, in order. */
  lemma {:induction false} TtftListed(samples: seq<Sample>) returns (at: seq<nat>)
    ensures ListsAll(at, |samples|, TtftAt(samples)) && TtftsAre(samples, at, TtftLatencies(samples))
  {
    if samples == [] {
      at := [];
    } else {
      hide ListsAll, TtftsAre;
      var tail := TtftListed(samples[1..]);
      ListsCons(tail, |samples| - 1, TtftAt(samples[1..]), TtftAt(samples));
      TtftsCons(samples, tail, TtftLatencies(samples[1..]),
                if 0 in TtftAt(samples) then [samples[0].ttft.value] else []);
      at := (if 0 in TtftAt(samples) then [0] else []) + Later(tail);
    }
  }

  ghost predicate E2esAre(samples: seq<Sample>, at: seq<nat>, values: seq<real>) {
    && |values| == |at|
    && forall k :: 0 <= k < |at| ==> at[k] < |samples| && samples[at[k]].e2e == Some(values[k])
  }

  lemma {:induction false} E2esCons(samples: seq<Sample>, at: seq<nat>, values: seq<real>, head: seq<real>)
    requires samples != [] && E2esAre(samples[1..], at, values)
    requires head == if samples[0].e2e.Some? && head != [] then [samples[0].e2e.value] else []
    ensures E2esAre(samples, (if head != [] then [0] else []) + Later(at), head + values)
  {
    var r := (if head != [] then [0] else []) + Later(at);
    forall k | 0 <= k < |r| ensures r[k] < |samples| && samples[r[k]].e2e == Some((head + values)[k]) {
      if k >= |head| { assert samples[1..][at[k - |head|]].e2e == Some(values[k - |head|]); }
    }
  }

  /** A summary uses those of all successful samples that have one, in order. */
  lemma {:induction false} E2eListed(samples: seq<Sample>) returns (at: seq<nat>)
    ensures ListsAll(at, |samples|, E2eAt(samples)) && E2esAre(samples, at, E2eLatencies(samples))
  {
    if samples == [] {
      at := [];
    } else {
      hide ListsAll, E2esAre;
      var tail := E2eListed(samples[1..]);
      ListsCons(tail, |samples| - 1, E2eAt(samples[1..]), E2eAt(samples));
      E2esCons(samples, tail, E2eLatencies(samples[1..]), if 0 in E2eAt(samples) then [samples[0].e2e.value] else []);
      at := (if 0 in E2eAt(samples) then [0] else []) + Later(tail);
    }
  }

  /** `p` is the 95th percentile of these values: where the line through them in order stands. */
  ghost predicate IsP95(values: seq<real>, p: Option<real>) {
    if values == [] then p.None?
    else p.Some? && exists s :: multiset(s) == multiset(values) && OnLine(s, 95.0, p.value)
  }

  lemma PercentileIsP95(values: seq<real>)
    ensures IsP95(values, PercentileOf(values, 95.0))
  {
    if values != [] { PercentileOnLine(values, 95.0); }
  }

  /** A summary counts the samples and those that failed, and gives the 95th percentile of each latency
      over the samples that succeeded and have it. */
  lemma SummaryMeans(lane: Lane, samples: seq<Sample>, width: real)
    returns (failed: seq<nat>, ttft: seq<real>, e2e: seq<real>)
    ensures var r := Summarize(lane, samples, width);
            && r.lane == lane && r.requests == |samples| && r.errors == |failed| && r.windowS == Some(width)
            && ListsAll(failed, |samples|, FailedAt(samples))
            && (exists at :: ListsAll(at, |samples|, TtftAt(samples)) && TtftsAre(samples, at, ttft))
            && (exists at :: ListsAll(at, |samples|, E2eAt(samples)) && E2esAre(samples, at, e2e))
            && IsP95(ttft, r.p95Ttft) && IsP95(e2e, r.p95E2e)
  {
    hide IsP95, PercentileOf, ListsAll, TtftsAre, E2esAre;
    failed := FailedListed(samples);
    var at := TtftListed(samples);
    var at' := E2eListed(samples);
    ttft, e2e := TtftLatencies(samples), E2eLatencies(samples);
    PercentileIsP95(ttft);
    PercentileIsP95(e2e);
  }

  // ---- the window as a value ---------------------------------------------------------

  /** `now` is the latest time seen; `None` stands for minus infinity. */
  datatype Window = Window(samples: seq<Sample>, now: Option<real>)

  const EMPTY := Window([], None)

  function Latest(now: Option<real>, t: real): real {
    if now.Some? then Max(now.value, t) else t
  }

  /** Pop samples off the head while they are older than the cutoff. */
  function DropStale(s: seq<Sample>, cutoff: real): seq<Sample> {
    if s == [] || s[0].t >= cutoff then s else DropStale(s[1..], cutoff)
  }

  function Prune(w: Window, width: real, t: real): Window {
    var now := Latest(w.now, t);
    Window(DropStale(w.samples, now - width), Some(now))
  }

  function Observe(w: Window, width: real, cap: nat, s: Sample): Window {
    var p := Prune(w, width, s.t);
    if s.t < p.now.value - width then p else Window(LastN(p.samples + [s], cap), p.now)
  }

  // ---- the window as an object ---------------------------------------------------------

  class LaneWindow {
    const lane: Lane
    const width: real
    const cap: nat
    var samples: seq<Sample>
    var now: Option<real>

    function Value(): Window
      reads this
    {
      Window(samples, now)
    }

    constructor (lane: Lane, width: real, cap: nat)
      requires width > 0.0 && cap >= 1
      ensures this.lane == lane && this.width == width && this.cap == cap
      ensures Value() == EMPTY
    {
      this.lane, this.width, this.cap := lane, width, cap;
      samples, now := [], None;
    }

    method PruneTo(t: real)
      modifies this
      ensures Value() == Prune(old(Value()), width, t)
    {
      var latest := if now.Some? then Max(now.value, t) else t;
      now := Some(latest);
      var cutoff := latest - width;
      while samples != [] && samples[0].t < cutoff
        invariant now == Some(latest)
        invariant DropStale(samples, cutoff) == DropStale(old(samples), cutoff)
        decreases |samples|
      {
        samples := samples[1..];
      }
    }

    method Record(s: Sample)
      modifies this
      ensures Value() == Observe(old(Value()), width, cap, s)
    {
      PruneTo(s.t);
      if s.t < now.value - width {
        return;
      }
      LastNIsSuffix(samples + [s], cap);
      samples := samples + [s];
      if |samples| > cap {
        samples := samples[|samples| - cap..];
      }
    }

    method Clear()
      modifies this
      ensures Value() == EMPTY
    {
      samples, now := [], None;
    }

    method Report(t: real) returns (r: LaneSummary)
      modifies this
      ensures Value() == Prune(old(Value()), width, t)
      ensures r == Summarize(lane, Value().samples, width)
    {
      PruneTo(t);
      r := Summarize(lane, samples, width);
    }
  }

  // ---- exactness -----------------------------------------------------------------------

  /** The samples of `s` not older than `cutoff`, wherever they sit. */
  function Fresh(s: seq<Sample>, cutoff: real): seq<Sample> {
    if s == [] then []
    else (if s[0].t >= cutoff then [s[0]] else []) + Fresh(s[1..], cutoff)
  }

  /** Nondecreasing times. */
  ghost predicate Chronological(s: seq<Sample>) {
    |s| <= 1 || (s[0].t <= s[1].t && Chronological(s[1..]))
  }

  ghost predicate NoneStale(s: seq<Sample>, cutoff: real) {
    s == [] || (s[0].t >= cutoff && NoneStale(s[1..], cutoff))
  }

  /** No stale sample sits behind a fresh one. */
  ghost predicate StaleIsPrefix(s: seq<Sample>, cutoff: real) {
    s == [] || (if s[0].t < cutoff then StaleIsPrefix(s[1..], cutoff) else NoneStale(s, cutoff))
  }

  lemma {:induction false} FreshIsWholeIff(s: seq<Sample>, cutoff: real)
    ensures |Fresh(s, cutoff)| <= |s|
    ensures Fresh(s, cutoff) == s <==> NoneStale(s, cutoff)
  {
    if s != [] {
      FreshIsWholeIff(s[1..], cutoff);
      assert s == [s[0]] + s[1..];
      if s[0].t >= cutoff && Fresh(s, cutoff) == s {
        assert Fresh(s, cutoff)[1..] == Fresh(s[1..], cutoff);
      }
    }
  }

  /** Popping stale samples off the head is true expiry exactly when no stale sample sits
      behind a fresh one. */
  lemma {:induction false} HeadExpiryExactIff(s: seq<Sample>, cutoff: real)
    ensures DropStale(s, cutoff) == Fresh(s, cutoff) <==> StaleIsPrefix(s, cutoff)
  {
    if s != [] {
      if s[0].t < cutoff {
        HeadExpiryExactIff(s[1..], cutoff);
      } else {
        FreshIsWholeIff(s, cutoff);
      }
    }
  }

  /** Popping off the head is true expiry whatever the cutoff. */
  ghost predicate AlwaysExact(s: seq<Sample>) {
    forall cutoff :: DropStale(s, cutoff) == Fresh(s, cutoff)
  }

  /** That is the case if and only if the samples are in time order. */
  lemma {:induction false} AlwaysExactIff(s: seq<Sample>)
    ensures AlwaysExact(s) <==> Chronological(s)
  {
    if Chronological(s) {
      forall cutoff ensures DropStale(s, cutoff) == Fresh(s, cutoff) {
        ChronologicalStale(s, cutoff);
        HeadExpiryExactIff(s, cutoff);
      }
    }
    if AlwaysExact(s) {
      AlwaysExactIsChronological(s);
    }
  }

  lemma {:induction false} AlwaysExactIsChronological(s: seq<Sample>)
    requires AlwaysExact(s)
    ensures Chronological(s)
  {
    if |s| > 1 {
      HeadExpiryExactIff(s, s[0].t);
      assert DropStale(s, s[0].t) == Fresh(s, s[0].t);
      assert NoneStale(s, s[0].t) && NoneStale(s[1..], s[0].t);
      forall cutoff ensures DropStale(s[1..], cutoff) == Fresh(s[1..], cutoff) {
        assert DropStale(s, cutoff) == Fresh(s, cutoff);
        HeadExpiryExactIff(s, cutoff);
        HeadExpiryExactIff(s[1..], cutoff);
      }
      AlwaysExactIsChronological(s[1..]);
    }
  }

  lemma {:induction false} ChronologicalHead(s: seq<Sample>, cutoff: real)
    requires Chronological(s) && s != [] && s[0].t >= cutoff
    ensures NoneStale(s, cutoff)
  {
    if |s| > 1 { ChronologicalHead(s[1..], cutoff); }
  }

  lemma {:induction false} ChronologicalStale(s: seq<Sample>, cutoff: real)
    requires Chronological(s)
    ensures StaleIsPrefix(s, cutoff)
  {
    if s != [] {
      if s[0].t < cutoff { ChronologicalStale(s[1..], cutoff); } else { ChronologicalHead(s, cutoff); }
    }
  }

  lemma {:induction false} ChronologicalAppend(s: seq<Sample>, x: Sample)
    requires Chronological(s) && (s != [] ==> s[|s| - 1].t <= x.t)
    ensures Chronological(s + [x])
  {
    if |s| > 1 {
      assert (s + [x])[1..] == s[1..] + [x];
      ChronologicalAppend(s[1..], x);
    }
  }

  lemma {:induction false} ChronologicalDropStale(s: seq<Sample>, cutoff: real)
    requires Chronological(s)
    ensures Chronological(DropStale(s, cutoff))
  {
    if s != [] && s[0].t < cutoff { ChronologicalDropStale(s[1..], cutoff); }
  }

  lemma {:induction false} DropStaleAgain(s: seq<Sample>, c: real, d: real)
    requires c <= d
    ensures DropStale(DropStale(s, c), d) == DropStale(s, d)
  {
    if s != [] && s[0].t < c { DropStaleAgain(s[1..], c, d); }
  }

  lemma {:induction false} DropStaleAppend(s: seq<Sample>, x: Sample, c: real)
    requires x.t >= c
    ensures DropStale(s + [x], c) == DropStale(s, c) + [x]
  {
    if s != [] && s[0].t < c {
      assert (s + [x])[1..] == s[1..] + [x];
      DropStaleAppend(s[1..], x, c);
    }
  }

  lemma {:induction false} DropStaleKeepsFresh(s: seq<Sample>, c: real, n: nat)
    requires NoneStale(s, c)
    ensures DropStale(LastN(s, n), c) == LastN(s, n)
  {
    if |s| > n { DropStaleKeepsFresh(s[1..], c, n); }
  }

  /** On a chronological stream, expiry and the ring-buffer cap commute. */
  lemma {:induction false} CapThenExpire(s: seq<Sample>, c: real, n: nat)
    requires Chronological(s)
    ensures DropStale(LastN(s, n), c) == LastN(DropStale(s, c), n)
  {
    if |s| > n {
      if s[0].t < c {
        CapThenExpire(s[1..], c, n);
      } else {
        ChronologicalHead(s, c);
        DropStaleKeepsFresh(s, c, n);
      }
    } else {
      DropStaleShortens(s, c);
    }
  }

  lemma {:induction false} DropStaleShortens(s: seq<Sample>, c: real)
    ensures |DropStale(s, c)| <= |s|
  {
    if s != [] && s[0].t < c { DropStaleShortens(s[1..], c); }
  }

  /** The incremental window `w` holds what head expiry and one cap over all of `seen` leave. */
  ghost predicate Exact(w: Window, seen: seq<Sample>, width: real, cap: nat) {
    && Chronological(seen)
    && (w.now.None? ==> seen == [] && w.samples == [])
    && (w.now.Some? ==>
          && (seen != [] ==> seen[|seen| - 1].t <= w.now.value)
          && w.samples == LastN(DropStale(seen, w.now.value - width), cap))
  }

  lemma {:induction false} ExpireLater(seen: seq<Sample>, c: real, d: real, cap: nat)
    requires Chronological(seen) && c <= d
    ensures DropStale(LastN(DropStale(seen, c), cap), d) == LastN(DropStale(seen, d), cap)
  {
    ChronologicalDropStale(seen, c);
    CapThenExpire(DropStale(seen, c), d, cap);
    DropStaleAgain(seen, c, d);
  }

  lemma {:induction false} ExactPrune(w: Window, seen: seq<Sample>, width: real, cap: nat, t: real)
    requires Exact(w, seen, width, cap) && (w.now.Some? ==> w.now.value <= t)
    ensures Exact(Prune(w, width, t), seen, width, cap)
    ensures Prune(w, width, t).now == Some(t)
  {
    if w.now.Some? {
      ExpireLater(seen, w.now.value - width, t - width, cap);
    }
  }

  lemma {:induction false} ExactObserve(w: Window, seen: seq<Sample>, width: real, cap: nat, s: Sample)
    requires width > 0.0 && cap >= 1
    requires Exact(w, seen, width, cap) && (w.now.Some? ==> w.now.value <= s.t)
    ensures Exact(Observe(w, width, cap, s), seen + [s], width, cap)
    ensures Observe(w, width, cap, s).now == Some(s.t)
  {
    hide DropStale, LastN;
    ExactPrune(w, seen, width, cap, s.t);
    var c := s.t - width;
    ChronologicalAppend(seen, s);
    DropStaleAppend(seen, s, c);
    LastNAppend(DropStale(seen, c), s, cap);
  }

  /** From-scratch reference: the last `cap` samples not older than the cutoff. */
  function Recomputed(seen: seq<Sample>, cutoff: real, cap: nat): seq<Sample> {
    LastN(Fresh(seen, cutoff), cap)
  }

  lemma {:induction false} ExactIsRecomputed(w: Window, seen: seq<Sample>, width: real, cap: nat)
    requires Exact(w, seen, width, cap) && w.now.Some?
    ensures w.samples == Recomputed(seen, w.now.value - width, cap)
  {
    ChronologicalStale(seen, w.now.value - width);
    HeadExpiryExactIff(seen, w.now.value - width);
  }

  /** What callers do to a window between two clears. */
  datatype WindowOp = Saw(sample: Sample) | Looked(at: real)

  function SampleOf(op: WindowOp): seq<Sample> { if op.Saw? then [op.sample] else [] }

  function TimeOf(op: WindowOp): real { if op.Saw? then op.sample.t else op.at }

  function Apply(w: Window, width: real, cap: nat, op: WindowOp): Window {
    if op.Saw? then Observe(w, width, cap, op.sample) else Prune(w, width, op.at)
  }

  lemma {:induction false} ExactApply(w: Window, seen: seq<Sample>, width: real, cap: nat, op: WindowOp)
    requires width > 0.0 && cap >= 1
    requires Exact(w, seen, width, cap) && (w.now.Some? ==> w.now.value <= TimeOf(op))
    ensures Exact(Apply(w, width, cap, op), seen + SampleOf(op), width, cap)
    ensures Apply(w, width, cap, op).now == Some(TimeOf(op))
  {
    match op {
      case Saw(s) => ExactObserve(w, seen, width, cap, s);
      case Looked(t) =>
        ExactPrune(w, seen, width, cap, t);
        assert seen + [] == seen;
    }
  }

  function ApplyAll(width: real, cap: nat, ops: seq<WindowOp>): Window {
    if ops == [] then EMPTY
    else Apply(ApplyAll(width, cap, ops[..|ops| - 1]), width, cap, ops[|ops| - 1])
  }

  function Seen(ops: seq<WindowOp>): seq<Sample> {
    if ops == [] then []
    else Seen(ops[..|ops| - 1]) + SampleOf(ops[|ops| - 1])
  }

  ghost predicate InOrder(ops: seq<WindowOp>) {
    forall i, j :: 0 <= i < j < |ops| ==> TimeOf(ops[i]) <= TimeOf(ops[j])
  }

  /** For every interleaving of observations and reads with nondecreasing times, the window
      after each operation at time `t` is what a recomputation over everything ever observed
      gives: the last `cap` samples in `[t - width, t]`. */
  lemma {:induction false} WindowRefinesRecomputation(width: real, cap: nat, ops: seq<WindowOp>)
    requires width > 0.0 && cap >= 1 && InOrder(ops)
    ensures Exact(ApplyAll(width, cap, ops), Seen(ops), width, cap)
    ensures ops != [] ==>
              var t := TimeOf(ops[|ops| - 1]);
              && ApplyAll(width, cap, ops).now == Some(t)
              && ApplyAll(width, cap, ops).samples == Recomputed(Seen(ops), t - width, cap)
  {
    if ops != [] {
      var before, op := ops[..|ops| - 1], ops[|ops| - 1];
      assert InOrder(before);
      WindowRefinesRecomputation(width, cap, before);
      var w := ApplyAll(width, cap, before);
      if before != [] { assert TimeOf(before[|before| - 1]) <= TimeOf(op); }
      ExactApply(w, Seen(before), width, cap, op);
      ExactIsRecomputed(ApplyAll(width, cap, ops), Seen(ops), width, cap);
    }
  }

  /** Out of order, the head-only expiry keeps a sample the recomputation has dropped: in an
      8-second window holding samples at times 10 and 5, moving to time 14 drops neither. */
  lemma {:induction false} LateSampleLingers()
    ensures var late := Sample(5.0, true, None, None);
            var w := Observe(Window([Sample(10.0, true, None, None)], Some(10.0)), 8.0, 10, late);
            late in Prune(w, 8.0, 14.0).samples && late !in Fresh(w.samples, 14.0 - 8.0)
  {
    var first, late := Sample(10.0, true, None, None), Sample(5.0, true, None, None);
    assert Observe(Window([first], Some(10.0)), 8.0, 10, late).samples == [first, late];
    assert [first, late][1..] == [late];
    assert Fresh([late], 14.0 - 8.0) == [];
    assert Prune(Window([first, late], Some(10.0)), 8.0, 14.0).samples == [first, late];
  }
}
