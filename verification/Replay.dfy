/** `simulate` (src/turboserve/canary/k8s.py): replaying recorded outcomes on a virtual clock,
    against a reference that keeps no window and recomputes every summary from the whole log. */
module Replays {
  import opened Prelude
  import opened Sorting
  import opened LaneWindows
  import opened CanaryGate
  import opened CanaryControllers

  datatype OutcomeEvent = Outcome(lane: Lane, sample: Sample)

  predicate EarlierOrSame(a: OutcomeEvent, b: OutcomeEvent) { a.sample.t <= b.sample.t }

  ghost predicate ByTime(events: seq<OutcomeEvent>) {
    forall i, j :: 0 <= i < j < |events| ==> events[i].sample.t <= events[j].sample.t
  }

  function Ordered(events: seq<OutcomeEvent>): (r: seq<OutcomeEvent>)
    ensures |r| == |events| && multiset(r) == multiset(events) && ByTime(r)
  {
    SortSorts(EarlierOrSame, events);
    SortPermutes(EarlierOrSame, events);
    var r := Sort(EarlierOrSame, events);
    assert forall i, j :: 0 <= i < j < |r| ==> EarlierOrSame(r[i], r[j]);
    r
  }

  // ---- the reference ---------------------------------------------------------------------

  /** One lane's samples of a log, in log order. */
  function LaneLog(events: seq<OutcomeEvent>, lane: Lane): seq<Sample> {
    if events == [] then []
    else LaneLog(events[..|events| - 1], lane)
         + (if events[|events| - 1].lane == lane then [events[|events| - 1].sample] else [])
  }

  /** The samples with `from <= t < until`. */
  function Span(s: seq<Sample>, from: real, until: real): seq<Sample> {
    if s == [] then []
    else (if from <= s[0].t < until then [s[0]] else []) + Span(s[1..], from, until)
  }

  /** A lane's summary at time `at`, recomputed from the whole log. */
  function FromScratch(cfg: CanaryConfig, lane: Lane, log: seq<OutcomeEvent>, at: real): LaneSummary {
    Summarize(lane, LastN(Span(LaneLog(log, lane), at - cfg.windowS, at), cfg.maxSamples), cfg.windowS)
  }

  function StartTime(log: seq<OutcomeEvent>): real { if log == [] then 0.0 else log[0].sample.t }

  function EndTime(log: seq<OutcomeEvent>): real { if log == [] then 0.0 else log[|log| - 1].sample.t }

  function TickTime(start: real, interval: real, k: nat): real { start + Steps(interval, k) }

  /** The rollout after its start and `k` ticks, every summary recomputed from scratch. */
  function Reference(cfg: CanaryConfig, log: seq<OutcomeEvent>, start: Rollout, interval: real, k: nat): (r: Rollout)
    requires OnStep(cfg, start)
    ensures OnStep(cfg, r)
  {
    if k == 0 then start
    else
      var at := TickTime(StartTime(log), interval, k);
      Tick(cfg, Reference(cfg, log, start, interval, k - 1), at,
           FromScratch(cfg, Stable, log, at), FromScratch(cfg, Canary, log, at))
  }

  /** Ticks a replay performs while its rollout runs: one per interval up to the last event,
      and one more. */
  function TickCount(log: seq<OutcomeEvent>, interval: real): (n: nat)
    requires ByTime(log) && interval > 0.0
    ensures n >= 1
  {
    SpanNonNegative(log, interval);
    ((EndTime(log) - StartTime(log)) / interval).Floor + 1
  }

  lemma SpanNonNegative(log: seq<OutcomeEvent>, interval: real)
    requires ByTime(log) && interval > 0.0
    ensures (EndTime(log) - StartTime(log)) / interval >= 0.0
  {
    var d := EndTime(log) - StartTime(log);
    assert d >= 0.0;
  }

  // ---- tick arithmetic ---------------------------------------------------------------------

  /** The last tick, and only it, comes after the last event. */
  lemma OneTickAfterTheLastEvent(log: seq<OutcomeEvent>, interval: real, k: nat)
    requires ByTime(log) && interval > 0.0
    ensures TickTime(StartTime(log), interval, k) <= EndTime(log) <==> k < TickCount(log, interval)
  {
    SpanNonNegative(log, interval);
    StepsFit(interval, EndTime(log) - StartTime(log), k);
  }

  /** While the reference runs, its `k`-th decision after the start is taken `k` intervals after the first
      event, on summaries recomputed then. */
  lemma {:induction false} TicksOnTheGrid(cfg: CanaryConfig, log: seq<OutcomeEvent>, start: Rollout, interval: real,
                                          k: nat)
    requires OnStep(cfg, start) && start.state.Running? && |start.history| == 1 && k >= 1
    requires Reference(cfg, log, start, interval, k - 1).state.Running?
    ensures var r, at := Reference(cfg, log, start, interval, k), StartTime(log) + k as real * interval;
            && |r.history| == k + 1 && r.history[k].at == at
            && r.history[k].stable == Some(FromScratch(cfg, Stable, log, at))
            && r.history[k].canary == Some(FromScratch(cfg, Canary, log, at))
  {
    hide FromScratch, Tick;
    StepsIsProduct(interval, k);
    var before, at := Reference(cfg, log, start, interval, k - 1), TickTime(StartTime(log), interval, k);
    if k > 1 {
      StillRunning(cfg, log, start, interval, k - 1);
      TicksOnTheGrid(cfg, log, start, interval, k - 1);
    }
    TickExactly(cfg, before, at, FromScratch(cfg, Stable, log, at), FromScratch(cfg, Canary, log, at));
  }

  lemma StillRunning(cfg: CanaryConfig, log: seq<OutcomeEvent>, start: Rollout, interval: real, k: nat)
    requires OnStep(cfg, start) && k >= 1 && Reference(cfg, log, start, interval, k).state.Running?
    ensures Reference(cfg, log, start, interval, k - 1).state.Running?
  {
    hide FromScratch;
  }

  // ---- windows against the log ---------------------------------------------------------------

  lemma {:induction false} LaneLogBefore(log: seq<OutcomeEvent>, lane: Lane, at: real)
    requires forall i :: 0 <= i < |log| ==> log[i].sample.t < at
    ensures forall i :: 0 <= i < |LaneLog(log, lane)| ==> LaneLog(log, lane)[i].t < at
  {
    if log != [] {
      LaneLogBefore(log[..|log| - 1], lane, at);
    }
  }

  lemma {:induction false} SpanAppend(s: seq<Sample>, t: seq<Sample>, from: real, until: real)
    ensures Span(s + t, from, until) == Span(s, from, until) + Span(t, from, until)
  {
    if s == [] {
      assert s + t == t;
    } else {
      assert (s + t)[1..] == s[1..] + t;
      SpanAppend(s[1..], t, from, until);
    }
  }

  lemma {:induction false} SpanOfEarly(s: seq<Sample>, from: real, until: real)
    requires forall i :: 0 <= i < |s| ==> s[i].t < until
    ensures Span(s, from, until) == Fresh(s, from)
  {
    if s != [] { SpanOfEarly(s[1..], from, until); }
  }

  /** At a tick, the whole log's span is what the events observed so far contribute. */
  lemma {:induction false} SpanOfObserved(log: seq<OutcomeEvent>, lane: Lane, n: nat, from: real, at: real)
    requires ByTime(log) && n <= |log|
    requires forall i :: 0 <= i < n ==> log[i].sample.t < at
    requires forall i :: n <= i < |log| ==> log[i].sample.t >= at
    ensures Span(LaneLog(log, lane), from, at) == Fresh(LaneLog(log[..n], lane), from)
    decreases |log|
  {
    if n == |log| {
      assert log[..n] == log;
      LaneLogBefore(log, lane, at);
      SpanOfEarly(LaneLog(log, lane), from, at);
    } else {
      var before, e := log[..|log| - 1], log[|log| - 1];
      assert before[..n] == log[..n];
      SpanOfObserved(before, lane, n, from, at);
      var last := if e.lane == lane then [e.sample] else [];
      assert LaneLog(log, lane) == LaneLog(before, lane) + last;
      SpanAppend(LaneLog(before, lane), last, from, at);
      assert Span(last, from, at) == [] by { assert last != [] ==> last[1..] == []; }
    }
  }

  /** Both windows hold exactly the first `n` events of the log, none of them later than `now`. */
  ghost predicate Synced(cfg: CanaryConfig, c: Controller, log: seq<OutcomeEvent>, n: nat, now: real) {
    && n <= |log|
    && Exact(c.stable, LaneLog(log[..n], Stable), cfg.windowS, cfg.maxSamples)
    && Exact(c.canary, LaneLog(log[..n], Canary), cfg.windowS, cfg.maxSamples)
    && (c.stable.now.Some? ==> c.stable.now.value <= now)
    && (c.canary.now.Some? ==> c.canary.now.value <= now)
  }

  lemma {:induction false} ConsultIsFromScratch(cfg: CanaryConfig, lane: Lane, w: Window, log: seq<OutcomeEvent>,
                                                n: nat, at: real)
    requires ByTime(log) && n <= |log|
    requires Exact(w, LaneLog(log[..n], lane), cfg.windowS, cfg.maxSamples)
    requires w.now.Some? ==> w.now.value <= at
    requires forall i :: 0 <= i < n ==> log[i].sample.t < at
    requires forall i :: n <= i < |log| ==> log[i].sample.t >= at
    ensures var (s, w') := Consult(cfg, lane, w, at, None);
            && s == FromScratch(cfg, lane, log, at)
            && Exact(w', LaneLog(log[..n], lane), cfg.windowS, cfg.maxSamples)
            && w'.now == Some(at)
  {
    hide Summarize, Exact, Prune, LaneLog, Span, Fresh;
    var seen := LaneLog(log[..n], lane);
    var w' := Prune(w, cfg.windowS, at);
    assert Exact(w', seen, cfg.windowS, cfg.maxSamples) && w'.now == Some(at) by {
      ExactPrune(w, seen, cfg.windowS, cfg.maxSamples, at);
    }
    assert w'.samples == Recomputed(seen, at - cfg.windowS, cfg.maxSamples) by {
      ExactIsRecomputed(w', seen, cfg.windowS, cfg.maxSamples);
    }
    assert Span(LaneLog(log, lane), at - cfg.windowS, at) == Fresh(seen, at - cfg.windowS) by {
      SpanOfObserved(log, lane, n, at - cfg.windowS, at);
    }
  }

  /** One replay tick decides as the reference does. */
  lemma {:induction false} TickSynced(cfg: CanaryConfig, c: Controller, log: seq<OutcomeEvent>, n: nat, now: real,
                                      at: real)
    requires ByTime(log) && Synced(cfg, c, log, n, now) && now <= at
    requires OnStep(cfg, c.rollout) && c.rollout.state.Running?
    requires forall i :: 0 <= i < n ==> log[i].sample.t < at
    requires forall i :: n <= i < |log| ==> log[i].sample.t >= at
    ensures var c' := TickController(cfg, c, at, None, None);
            && c'.rollout
               == Tick(cfg, c.rollout, at, FromScratch(cfg, Stable, log, at), FromScratch(cfg, Canary, log, at))
            && Synced(cfg, c', log, n, at)
  {
    hide Tick, FromScratch, Exact, LaneLog;
    ConsultIsFromScratch(cfg, Stable, c.stable, log, n, at);
    ConsultIsFromScratch(cfg, Canary, c.canary, log, n, at);
  }

  lemma {:induction false} ObserveSynced(cfg: CanaryConfig, c: Controller, log: seq<OutcomeEvent>, n: nat, now: real)
    requires ByTime(log) && n < |log| && Synced(cfg, c, log, n, now) && now <= log[n].sample.t
    ensures Synced(cfg, ObserveController(cfg, c, log[n].lane, log[n].sample), log, n + 1, log[n].sample.t)
  {
    var e := log[n];
    assert log[..n + 1][..n] == log[..n];
    match e.lane {
      case Stable =>
        ExactObserve(c.stable, LaneLog(log[..n], Stable), cfg.windowS, cfg.maxSamples, e.sample);
        assert LaneLog(log[..n + 1], Canary) == LaneLog(log[..n], Canary) + [] == LaneLog(log[..n], Canary);
      case Canary =>
        ExactObserve(c.canary, LaneLog(log[..n], Canary), cfg.windowS, cfg.maxSamples, e.sample);
        assert LaneLog(log[..n + 1], Stable) == LaneLog(log[..n], Stable) + [] == LaneLog(log[..n], Stable);
    }
  }

  /** Ticks of a finished rollout change nothing. */
  lemma {:induction false} ReferenceStops(cfg: CanaryConfig, log: seq<OutcomeEvent>, start: Rollout, interval: real,
                                          k: nat, n: nat)
    requires OnStep(cfg, start) && k <= n && !Reference(cfg, log, start, interval, k).state.Running?
    ensures Reference(cfg, log, start, interval, n) == Reference(cfg, log, start, interval, k)
  {
    hide Tick, FromScratch;
    if k < n {
      assert !Reference(cfg, log, start, interval, n - 1).state.Running? by {
        ReferenceStops(cfg, log, start, interval, k, n - 1);
      }
      FinishedStays(cfg, log, start, interval, n);
      ReferenceStops(cfg, log, start, interval, k, n - 1);
    }
  }

  lemma {:induction false} FinishedStays(cfg: CanaryConfig, log: seq<OutcomeEvent>, start: Rollout, interval: real,
                                         n: nat)
    requires OnStep(cfg, start) && n > 0 && !Reference(cfg, log, start, interval, n - 1).state.Running?
    ensures Reference(cfg, log, start, interval, n) == Reference(cfg, log, start, interval, n - 1)
  {
    hide FromScratch;
  }

  lemma StartedFresh(cfg: CanaryConfig, r: Rollout, version: string, at: real)
    requires CanaryGate.Start(cfg, r, version, at).Ok?
    ensures var s := CanaryGate.Start(cfg, r, version, at).value;
            OnStep(cfg, s) && s.state.Running? && |s.history| == 1
  {
  }

  lemma NothingSeenYet(cfg: CanaryConfig, r: Rollout, log: seq<OutcomeEvent>, now: real)
    ensures Synced(cfg, Controller(r, EMPTY, EMPTY), log, 0, now)
  {
    assert log[..0] == [];
  }

  // ---- the replay -------------------------------------------------------------------------------

  datatype ReplayError = BadInterval | Refused(error: CanaryError)

  datatype Report = Report(decisions: seq<Decision>, finalWeight: int, outcome: State)

  /** Where a replay stands: `k` ticks done as the reference does them, the next one at
      `nextTick`, and the decisions taken so far are the rollout's history. */
  ghost predicate OnSchedule(c: CanaryController, log: seq<OutcomeEvent>, r: Rollout, interval: real,
                             k: nat, nextTick: real, decisions: seq<Decision>)
    reads c, c.stable, c.canary
  {
    && c.Valid() && OnStep(c.cfg, r)
    && nextTick == TickTime(StartTime(log), interval, k + 1)
    && c.Value().rollout == Reference(c.cfg, log, r, interval, k)
    && decisions == c.history
  }

  /** Tick while the rollout runs and the next tick is not past `limit`, with the first `n`
      events of the log observed and the rest no earlier than `limit`. */
  method TickThrough(c: CanaryController, ghost log: seq<OutcomeEvent>, ghost n: nat, ghost r: Rollout,
                     interval: real, limit: real, ghost k: nat, nextTick: real, decisions: seq<Decision>,
                     ghost now: real)
    returns (ghost k': nat, nextTick': real, decisions': seq<Decision>, ghost now': real)
    requires interval > 0.0 && ByTime(log) && OnSchedule(c, log, r, interval, k, nextTick, decisions)
    requires Synced(c.cfg, c.Value(), log, n, now) && now < nextTick
    requires forall i :: 0 <= i < n ==> log[i].sample.t < nextTick
    requires forall i :: n <= i < |log| ==> limit <= log[i].sample.t
    modifies c, c.stable, c.canary
    ensures OnSchedule(c, log, r, interval, k', nextTick', decisions')
    ensures c.state.Running? ==> limit < nextTick'
    ensures k <= k' && (k < k' ==> TickTime(StartTime(log), interval, k') <= limit)
    ensures Synced(c.cfg, c.Value(), log, n, now') && now <= now' < nextTick' && (now' == now || now' <= limit)
  {
    hide Tick, TickController, FromScratch, Synced;
    k', nextTick', decisions', now' := k, nextTick, decisions, now;
    while c.state.Running? && nextTick' <= limit
      invariant OnSchedule(c, log, r, interval, k', nextTick', decisions')
      invariant k <= k' && nextTick <= nextTick' && (k < k' ==> TickTime(StartTime(log), interval, k') <= limit)
      invariant Synced(c.cfg, c.Value(), log, n, now') && now <= now' < nextTick' && (now' == now || now' <= limit)
      decreases ((limit - StartTime(log)) / interval).Floor - k'
    {
      TickSynced(c.cfg, c.Value(), log, n, now', nextTick');
      StepsFit(interval, limit - StartTime(log), k' + 1);
      var d := c.Evaluate(nextTick', None, None);
      decisions' := decisions' + [d];
      now' := nextTick';
      nextTick' := nextTick' + interval;
      k' := k' + 1;
    }
  }

  /** Feed a freshly started rollout the whole log, ticking it along the way. */
  method Drive(c: CanaryController, log: seq<OutcomeEvent>, interval: real, first: Decision)
    returns (decisions: seq<Decision>)
    requires interval > 0.0 && ByTime(log) && c.Valid() && c.state.Running? && c.history == [first]
    requires c.stable.Value() == EMPTY && c.canary.Value() == EMPTY
    modifies c, c.stable, c.canary
    ensures c.Valid() && decisions == c.history
    ensures c.Value().rollout == Reference(c.cfg, log, old(c.Value().rollout), interval, TickCount(log, interval))
  {
    hide Tick, ObserveController, FromScratch, Synced;
    var startT := StartTime(log);
    ghost var r := c.Value().rollout;
    NothingSeenYet(c.cfg, r, log, startT);
    ghost var k := 0;
    decisions := [first];
    var nextTick := startT + interval;
    var lastT := startT;
    var i := 0;
    assert Steps(interval, 0) == 0.0 && Steps(interval, 1) == interval;
    while i < |log|
      invariant 0 <= i <= |log| && OnSchedule(c, log, r, interval, k, nextTick, decisions) && c.state.Running?
      invariant lastT == (if i == 0 then startT else log[i - 1].sample.t)
      invariant TickTime(startT, interval, k) <= lastT < nextTick
      invariant Synced(c.cfg, c.Value(), log, i, lastT)
    {
      var e := log[i];
      ghost var now;
      k, nextTick, decisions, now := TickThrough(c, log, i, r, interval, e.sample.t, k, nextTick, decisions, lastT);
      if !c.state.Running? {
        break;
      }
      ObserveSynced(c.cfg, c.Value(), log, i, now);
      c.ObserveRequest(e.lane, e.sample);
      lastT := e.sample.t;
      i := i + 1;
    }
    if c.state.Running? {
      ghost var now;
      k, nextTick, decisions, now :=
        TickThrough(c, log, i, r, interval, lastT + interval, k, nextTick, decisions, lastT);
    }
    LastTick(c.cfg, log, r, interval, k);
  }

  /** Replaying any events on any controller gives, tick by tick, the decisions of the windowless
      reference over `TickCount` ticks, and the report lists exactly the rollout's history. */
  method Simulate(c: CanaryController, events: seq<OutcomeEvent>, version: string, interval: real)
    returns (res: Result<Report, ReplayError>)
    requires c.Valid()
    modifies c, c.stable, c.canary
    ensures c.Valid()
    ensures interval <= 0.0 ==> res == Err(BadInterval) && c.Value() == old(c.Value())
    ensures interval > 0.0 ==>
              var log := Ordered(events);
              var started := CanaryGate.Start(c.cfg, old(c.Value().rollout), version, StartTime(log));
              match started
              case Err(e) => res == Err(Refused(e)) && c.Value() == old(c.Value())
              case Ok(r) =>
                var final := Reference(c.cfg, log, r, interval, TickCount(log, interval));
                && c.Value().rollout == final
                && res == Ok(Report(final.history, Weight(c.cfg, final), final.state))
  {
    hide CanaryGate.Start, Tick, ObserveController, FromScratch, Synced, Weight;
    if interval <= 0.0 {
      return Err(BadInterval);
    }
    var log := Ordered(events);
    var startT := StartTime(log);
    var begun := c.Begin(version, startT);
    if begun.Err? {
      return Err(Refused(begun.error));
    }
    StartedFresh(c.cfg, old(c.Value().rollout), version, startT);
    var decisions := Drive(c, log, interval, begun.value);
    var w := c.CanaryWeight();
    res := Ok(Report(decisions, w, c.state));
  }

  /** After `k` ticks the reference has reached its end if it stopped, or if the next tick would
      be more than an interval past the last event. */
  lemma LastTick(cfg: CanaryConfig, log: seq<OutcomeEvent>, r: Rollout, interval: real, k: nat)
    requires OnStep(cfg, r) && ByTime(log) && interval > 0.0
    requires TickTime(StartTime(log), interval, k) <= EndTime(log) + interval
    requires Reference(cfg, log, r, interval, k).state.Running? ==>
               EndTime(log) + interval < TickTime(StartTime(log), interval, k + 1)
    ensures Reference(cfg, log, r, interval, TickCount(log, interval)) == Reference(cfg, log, r, interval, k)
  {
    hide FromScratch, Tick;
    var total := TickCount(log, interval);
    if k > 0 { OneTickAfterTheLastEvent(log, interval, k - 1); }
    OneTickAfterTheLastEvent(log, interval, k);
    assert k <= total;
    if Reference(cfg, log, r, interval, k).state.Running? {
      assert k == total;
    } else {
      ReferenceStops(cfg, log, r, interval, k, total);
    }
  }
}
