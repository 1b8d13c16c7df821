/** `CanaryRunner.run` and `_apply` (src/turboserve/canary/k8s.py): what the rollout
    decides reaches the cluster. The clock, the metrics source and the traffic arriving while
    the loop sleeps are inputs, one `Poll` per iteration; the driver is its call log. */
module ClusterRunners {
  import opened Prelude
  import opened LaneWindows
  import opened CanaryGate
  import opened CanaryControllers

  datatype DriverCall = SetWeight(weight: int) | PromoteCanary | AbortCanary

  datatype Outcome = StillRunning | OutPromoted | OutRolledBack | OutTimedOut

  /** What the metrics source answers: a failure, or whichever lane summaries it has. */
  datatype Fetch = Unavailable | Fetched(stable: Option<LaneSummary>, canary: Option<LaneSummary>)

  /** One iteration's inputs: observations fed in meanwhile, the clock, the source's answer. */
  datatype Poll = Poll(arrivals: seq<(Lane, Sample)>, now: real, fetch: Fetch)

  datatype RunnerConfig = RunnerConfig(pollS: real, deadlineS: Option<real>, maxFailures: int, hasSource: bool)

  /** `max(1, max_metric_failures)`. */
  function FailureLimit(rc: RunnerConfig): (n: nat)
    ensures n >= 1 && n >= rc.maxFailures && (n == 1 || n == rc.maxFailures)
  {
    if rc.maxFailures < 1 then 1 else rc.maxFailures
  }

  datatype Progress = Progress(c: Controller, calls: seq<DriverCall>, decisions: seq<Decision>,
                               failures: nat, outcome: Outcome)

  const DEADLINE := "deadline"
  const METRICS := "metrics unavailable"

  // ---- one iteration as a value -------------------------------------------------------------

  function Arrive(cfg: CanaryConfig, c: Controller, arrivals: seq<(Lane, Sample)>): (c': Controller)
    ensures c'.rollout == c.rollout
  {
    if arrivals == [] then c
    else
      var last := arrivals[|arrivals| - 1];
      ObserveController(cfg, Arrive(cfg, c, arrivals[..|arrivals| - 1]), last.0, last.1)
  }

  /** What the driver is told after a decision. */
  function CallFor(d: Decision): seq<DriverCall> {
    match d.kind
    case Advance => [SetWeight(d.weight)]
    case Promote => [PromoteCanary]
    case Rollback => [AbortCanary]
    case Hold => []
  }

  function OutcomeFor(d: Decision, before: Outcome): Outcome {
    match d.kind
    case Promote => OutPromoted
    case Rollback => OutRolledBack
    case _ => before
  }

  predicate PastDeadline(rc: RunnerConfig, started: real, now: real) {
    rc.deadlineS.Some? && now - started >= rc.deadlineS.value
  }

  function GiveUp(cfg: CanaryConfig, p: Progress, text: string, now: real, outcome: Outcome): Progress
    requires OnStep(cfg, p.c.rollout) && p.c.rollout.state.Running?
  {
    var r := Abort(cfg, p.c.rollout, text, now).value;
    p.(c := p.c.(rollout := r), calls := p.calls + [AbortCanary],
       decisions := p.decisions + [r.history[|r.history| - 1]], outcome := outcome)
  }

  function Judged(cfg: CanaryConfig, p: Progress, now: real, stable: Option<LaneSummary>,
                  canary: Option<LaneSummary>): Progress
    requires OnStep(cfg, p.c.rollout) && p.c.rollout.state.Running?
  {
    var c := TickController(cfg, p.c, now, stable, canary);
    var d := c.rollout.history[|c.rollout.history| - 1];
    p.(c := c, calls := p.calls + CallFor(d), decisions := p.decisions + [d], outcome := OutcomeFor(d, p.outcome))
  }

  function Iterate(cfg: CanaryConfig, rc: RunnerConfig, started: real, p: Progress, poll: Poll): (p': Progress)
    requires OnStep(cfg, p.c.rollout) && p.c.rollout.state.Running?
    ensures OnStep(cfg, p'.c.rollout)
  {
    var p := p.(c := Arrive(cfg, p.c, poll.arrivals));
    if PastDeadline(rc, started, poll.now) then GiveUp(cfg, p, DEADLINE, poll.now, OutTimedOut)
    else if !rc.hasSource then Judged(cfg, p, poll.now, None, None)
    else
      match poll.fetch
      case Unavailable =>
        var p := p.(failures := p.failures + 1);
        if p.failures >= FailureLimit(rc) then GiveUp(cfg, p, METRICS, poll.now, OutRolledBack) else p
      case Fetched(stable, canary) => Judged(cfg, p.(failures := 0), poll.now, stable, canary)
  }

  /** The run after these polls, started from `r`; a finished run ignores further polls. */
  function RunPolls(cfg: CanaryConfig, rc: RunnerConfig, r: Rollout, started: real, polls: seq<Poll>): (p: Progress)
    requires OnStep(cfg, r) && r.state.Running? && |r.history| == 1
    ensures OnStep(cfg, p.c.rollout)
  {
    if polls == [] then Progress(Controller(r, EMPTY, EMPTY), [SetWeight(Weight(cfg, r))], r.history, 0, StillRunning)
    else
      var p := RunPolls(cfg, rc, r, started, polls[..|polls| - 1]);
      if p.c.rollout.state.Running? then Iterate(cfg, rc, started, p, polls[|polls| - 1]) else p
  }

  // ---- the loop ------------------------------------------------------------------------------

  datatype RunReport = RunReport(decisions: seq<Decision>, calls: seq<DriverCall>, finalWeight: int, outcome: Outcome)

  /** Drive a rollout over the given polls. */
  method RunRollout(c: CanaryController, rc: RunnerConfig, version: string, started: real, polls: seq<Poll>)
    returns (res: Result<RunReport, CanaryError>)
    requires c.Valid()
    modifies c, c.stable, c.canary
    ensures c.Valid()
    ensures match Start(c.cfg, old(c.Value().rollout), version, started)
            case Err(e) => res == Err(e) && c.Value() == old(c.Value())
            case Ok(r) =>
              && r.state.Running? && |r.history| == 1
              && var p := RunPolls(c.cfg, rc, r, started, polls);
                 && c.Value() == p.c
                 && res == Ok(RunReport(p.decisions, p.calls, Weight(c.cfg, p.c.rollout), p.outcome))
  {
    hide Tick, Weight, TickController, ObserveController;
    var begun := c.Begin(version, started);
    if begun.Err? {
      return Err(begun.error);
    }
    ghost var r := c.Value().rollout;
    var w := c.CanaryWeight();
    var decisions, calls, failures, outcome := [begun.value], [SetWeight(w)], 0, StillRunning;
    var i := 0;
    ghost var p := RunPolls(c.cfg, rc, r, started, []);
    while c.state.Running? && i < |polls|
      invariant 0 <= i <= |polls| && c.Valid() && OnStep(c.cfg, r)
      invariant p == RunPolls(c.cfg, rc, r, started, polls[..i])
      invariant p == Progress(c.Value(), calls, decisions, failures, outcome)
    {
      assert polls[..i + 1][..i] == polls[..i];
      p := Iterate(c.cfg, rc, started, p, polls[i]);
      calls, decisions, failures, outcome := IterateLoop(c, rc, started, polls[i], calls, decisions, failures, outcome);
      i := i + 1;
    }
    FinishedIgnoresPolls(c.cfg, rc, r, started, polls, i);
    w := c.CanaryWeight();
    res := Ok(RunReport(decisions, calls, w, outcome));
  }

  /** The loop body: deadline first, then the source, then the gates. */
  method IterateLoop(c: CanaryController, rc: RunnerConfig, started: real, poll: Poll,
                     calls: seq<DriverCall>, decisions: seq<Decision>, failures: nat, outcome: Outcome)
    returns (calls': seq<DriverCall>, decisions': seq<Decision>, failures': nat, outcome': Outcome)
    requires c.Valid() && c.state.Running?
    modifies c, c.stable, c.canary
    ensures c.Valid()
    ensures Progress(c.Value(), calls', decisions', failures', outcome')
         == Iterate(c.cfg, rc, started, Progress(old(c.Value()), calls, decisions, failures, outcome), poll)
  {
    hide Tick, TickController, Arrive, Weight, ObserveController, FailureLimit, CallFor, OutcomeFor;
    calls', decisions', failures', outcome' := calls, decisions, failures, outcome;
    Deliver(c, poll.arrivals);
    if rc.deadlineS.Some? && poll.now - started >= rc.deadlineS.value {
      var d := c.Cancel(DEADLINE, poll.now);
      decisions', calls', outcome' := decisions' + [d.value], calls' + [AbortCanary], OutTimedOut;
      return;
    }
    var stable, canary := None, None;
    if rc.hasSource {
      match poll.fetch {
        case Unavailable =>
          failures' := failures' + 1;
          if failures' >= FailureLimit(rc) {
            var d := c.Cancel(METRICS, poll.now);
            decisions', calls', outcome' := decisions' + [d.value], calls' + [AbortCanary], OutRolledBack;
          }
          return;
        case Fetched(s, k) => stable, canary := s, k;
      }
      failures' := 0;
    }
    var d := c.Evaluate(poll.now, stable, canary);
    decisions' := decisions' + [d];
    calls', outcome' := ApplyDecision(d, calls', outcome');
  }

  /** What the driver is told, and how the run ends, after one decision. */
  method ApplyDecision(d: Decision, calls: seq<DriverCall>, outcome: Outcome)
    returns (calls': seq<DriverCall>, outcome': Outcome)
    ensures calls' == calls + CallFor(d) && outcome' == OutcomeFor(d, outcome)
  {
    calls', outcome' := calls, outcome;
    match d.kind {
      case Advance => calls' := calls' + [SetWeight(d.weight)];
      case Promote => calls', outcome' := calls' + [PromoteCanary], OutPromoted;
      case Rollback => calls', outcome' := calls' + [AbortCanary], OutRolledBack;
      case Hold =>
    }
  }

  method Deliver(c: CanaryController, arrivals: seq<(Lane, Sample)>)
    requires c.Valid()
    modifies c.stable, c.canary
    ensures c.Valid() && c.Value() == Arrive(c.cfg, old(c.Value()), arrivals)
  {
    hide ObserveController;
    var i := 0;
    while i < |arrivals|
      invariant 0 <= i <= |arrivals| && c.Valid()
      invariant c.Value() == Arrive(c.cfg, old(c.Value()), arrivals[..i])
    {
      assert arrivals[..i + 1][..i] == arrivals[..i];
      c.ObserveRequest(arrivals[i].0, arrivals[i].1);
      i := i + 1;
    }
    assert arrivals[..i] == arrivals;
  }

  lemma {:induction false} FinishedIgnoresPolls(cfg: CanaryConfig, rc: RunnerConfig, r: Rollout, started: real,
                                                polls: seq<Poll>, i: nat)
    requires OnStep(cfg, r) && r.state.Running? && |r.history| == 1 && i <= |polls|
    requires i < |polls| ==> !RunPolls(cfg, rc, r, started, polls[..i]).c.rollout.state.Running?
    ensures RunPolls(cfg, rc, r, started, polls) == RunPolls(cfg, rc, r, started, polls[..i])
    decreases |polls|
  {
    hide Iterate;
    if i == |polls| {
      assert polls[..i] == polls;
    } else {
      var before := polls[..|polls| - 1];
      assert before[..i] == polls[..i];
      FinishedIgnoresPolls(cfg, rc, r, started, before, i);
    }
  }

  // ---- the cluster mirrors the controller -------------------------------------------------------

  /** The calls a history stands for. */
  function CallsOf(h: seq<Decision>): seq<DriverCall> {
    if h == [] then [] else CallsOf(h[..|h| - 1]) + CallFor(h[|h| - 1])
  }

  lemma CallsOfAppend(h: seq<Decision>, d: Decision)
    ensures CallsOf(h + [d]) == CallsOf(h) + CallFor(d)
  {
    assert (h + [d])[..|h|] == h;
  }

  /** The report's decisions are the rollout's history, the driver was sent exactly the calls
      that history stands for, and the outcome names the rollout's state. */
  ghost predicate Mirrored(cfg: CanaryConfig, p: Progress) {
    && OnStep(cfg, p.c.rollout) && Consistent(cfg, p.c.rollout) && !p.c.rollout.state.Idle?
    && p.decisions == p.c.rollout.history
    && p.calls == CallsOf(p.decisions)
    && match p.c.rollout.state
       case Running => p.outcome == StillRunning
       case Promoted => p.outcome == OutPromoted
       case _ => p.outcome == OutRolledBack || p.outcome == OutTimedOut
  }

  lemma GiveUpMirrored(cfg: CanaryConfig, p: Progress, text: string, now: real, outcome: Outcome)
    requires Mirrored(cfg, p) && p.c.rollout.state.Running? && (outcome == OutRolledBack || outcome == OutTimedOut)
    ensures Mirrored(cfg, GiveUp(cfg, p, text, now, outcome))
  {
    hide Consistent;
    StepConsistent(cfg, p.c.rollout, OpAbort(text, now));
    var r := Abort(cfg, p.c.rollout, text, now).value;
    CallsOfAppend(p.decisions, r.history[|r.history| - 1]);
  }

  lemma TickAppends(cfg: CanaryConfig, r: Rollout, at: real, stable: LaneSummary, canary: LaneSummary)
    requires OnStep(cfg, r) && r.state.Running?
    ensures var r' := Tick(cfg, r, at, stable, canary);
            && |r'.history| == |r.history| + 1 && r'.history == r.history + [r'.history[|r.history|]]
            && r'.history[|r.history|].state == r'.state
            && match r'.history[|r.history|].kind
               case Promote => r'.state.Promoted?
               case Rollback => r'.state.RolledBack?
               case _ => r'.state.Running?
  {
    hide Breach;
  }

  lemma JudgedMirrored(cfg: CanaryConfig, p: Progress, now: real, stable: Option<LaneSummary>,
                       canary: Option<LaneSummary>)
    requires Mirrored(cfg, p) && p.c.rollout.state.Running?
    ensures Mirrored(cfg, Judged(cfg, p, now, stable, canary))
  {
    hide Consistent, Tick, Summarize, Prune;
    var s := Consult(cfg, Stable, p.c.stable, now, stable).0;
    var k := Consult(cfg, Canary, p.c.canary, now, canary).0;
    StepConsistent(cfg, p.c.rollout, OpTick(now, s, k));
    TickAppends(cfg, p.c.rollout, now, s, k);
    var r := Tick(cfg, p.c.rollout, now, s, k);
    CallsOfAppend(p.decisions, r.history[|r.history| - 1]);
  }

  lemma IterateMirrored(cfg: CanaryConfig, rc: RunnerConfig, started: real, p: Progress, poll: Poll)
    requires Mirrored(cfg, p) && p.c.rollout.state.Running?
    ensures Mirrored(cfg, Iterate(cfg, rc, started, p, poll))
  {
    hide Consistent, GiveUp, Judged;
    var q := p.(c := Arrive(cfg, p.c, poll.arrivals));
    if PastDeadline(rc, started, poll.now) {
      GiveUpMirrored(cfg, q, DEADLINE, poll.now, OutTimedOut);
    } else if !rc.hasSource {
      JudgedMirrored(cfg, q, poll.now, None, None);
    } else {
      match poll.fetch {
        case Unavailable => GiveUpMirrored(cfg, q.(failures := q.failures + 1), METRICS, poll.now, OutRolledBack);
        case Fetched(s, k) => JudgedMirrored(cfg, q.(failures := 0), poll.now, s, k);
      }
    }
  }

  /** A rollout just started. */
  ghost predicate JustStarted(cfg: CanaryConfig, r: Rollout) {
    exists before, version, at :: Start(cfg, before, version, at) == Ok(r)
  }

  lemma JustStartedRuns(cfg: CanaryConfig, r: Rollout)
    requires JustStarted(cfg, r)
    ensures OnStep(cfg, r) && r.state.Running? && |r.history| == 1 && Consistent(cfg, r)
    ensures CallsOf(r.history) == [SetWeight(Weight(cfg, r))]
  {
    var before, version, at :| Start(cfg, before, version, at) == Ok(r);
    StartConsistent(cfg, before, version, at);
    CallsOfAppend([], r.history[0]);
    assert [] + [r.history[0]] == r.history;
  }

  /** After every poll of every run, the cluster mirrors the controller. */
  lemma {:induction false} ClusterMirrorsController(cfg: CanaryConfig, rc: RunnerConfig, r: Rollout, started: real,
                                                    polls: seq<Poll>)
    requires JustStarted(cfg, r)
    ensures OnStep(cfg, r) && r.state.Running? && |r.history| == 1
    ensures Mirrored(cfg, RunPolls(cfg, rc, r, started, polls))
  {
    hide Start, Iterate;
    JustStartedRuns(cfg, r);
    if polls != [] {
      ClusterMirrorsController(cfg, rc, r, started, polls[..|polls| - 1]);
      var p := RunPolls(cfg, rc, r, started, polls[..|polls| - 1]);
      if p.c.rollout.state.Running? {
        IterateMirrored(cfg, rc, started, p, polls[|polls| - 1]);
      }
    }
  }

  /** The weight the driver was sent last; 0 before any call. */
  function LastWeight(calls: seq<DriverCall>): int {
    if calls == [] then 0
    else if calls[|calls| - 1].SetWeight? then calls[|calls| - 1].weight
    else LastWeight(calls[..|calls| - 1])
  }

  ghost predicate OnlyWeights(calls: seq<DriverCall>) {
    forall i :: 0 <= i < |calls| ==> calls[i].SetWeight?
  }

  lemma {:induction false} CallsWhileRunning(cfg: CanaryConfig, h: seq<Decision>)
    requires Audited(cfg, h) && h[0].weight == cfg.steps[0] && h[|h| - 1].state.Running?
    ensures OnlyWeights(CallsOf(h)) && LastWeight(CallsOf(h)) == h[|h| - 1].weight
  {
    var before, d := h[..|h| - 1], h[|h| - 1];
    assert CallsOf(h) == CallsOf(before) + CallFor(d);
    if |h| == 1 {
      assert CallsOf(before) == [];
    } else {
      AuditedPrefix(cfg, h);
      CallsWhileRunning(cfg, before);
      LastWeightAppend(CallsOf(before), d);
    }
  }

  lemma LastWeightAppend(calls: seq<DriverCall>, d: Decision)
    requires d.kind.Hold? || d.kind.Advance?
    ensures LastWeight(calls + CallFor(d)) == if d.kind.Hold? then LastWeight(calls) else d.weight
  {
    assert d.kind.Hold? ==> calls + CallFor(d) == calls;
  }

  lemma AuditedPrefix(cfg: CanaryConfig, h: seq<Decision>)
    requires Audited(cfg, h) && |h| > 1
    ensures Audited(cfg, h[..|h| - 1]) && Continues(cfg, h[|h| - 2], h[|h| - 1])
  {
    var before := h[..|h| - 1];
    forall i | 1 <= i < |before| ensures Continues(cfg, before[i - 1], before[i]) {
      assert Continues(cfg, h[i - 1], h[i]);
    }
    assert Continues(cfg, h[|h| - 1 - 1], h[|h| - 1]);
  }

  lemma CallsOnceEnded(cfg: CanaryConfig, h: seq<Decision>)
    requires Audited(cfg, h) && h[0].weight == cfg.steps[0] && !h[|h| - 1].state.Running?
    ensures exists weights :: OnlyWeights(weights)
              && CallsOf(h) == weights + [if h[|h| - 1].state.Promoted? then PromoteCanary else AbortCanary]
  {
    AuditedPrefix(cfg, h);
    CallsWhileRunning(cfg, h[..|h| - 1]);
    assert CallsOf(h) == CallsOf(h[..|h| - 1]) + CallFor(h[|h| - 1]);
  }

  /** While a rollout runs the driver has only been sent weights, the last one the weight in
      force; once it ends exactly one terminal call was made, last, and it names the end. */
  lemma OneTerminalCall(cfg: CanaryConfig, rc: RunnerConfig, r: Rollout, started: real, polls: seq<Poll>)
    requires JustStarted(cfg, r)
    ensures OnStep(cfg, r) && r.state.Running? && |r.history| == 1
    ensures var p := RunPolls(cfg, rc, r, started, polls);
            match p.c.rollout.state
            case Running => OnlyWeights(p.calls) && LastWeight(p.calls) == Weight(cfg, p.c.rollout)
            case Promoted => exists weights :: OnlyWeights(weights) && p.calls == weights + [PromoteCanary]
            case RolledBack => exists weights :: OnlyWeights(weights) && p.calls == weights + [AbortCanary]
            case Idle => false
  {
    hide RunPolls, JustStarted;
    ClusterMirrorsController(cfg, rc, r, started, polls);
    var p := RunPolls(cfg, rc, r, started, polls);
    ConsistentStartWeight(cfg, p.c.rollout);
    if p.c.rollout.state.Running? {
      CallsWhileRunning(cfg, p.decisions);
    } else {
      CallsOnceEnded(cfg, p.decisions);
    }
  }

  lemma ConsistentStartWeight(cfg: CanaryConfig, r: Rollout)
    requires Consistent(cfg, r) && !r.state.Idle?
    ensures r.history[0].weight == cfg.steps[0]
  {
    MovesStartFirst(r.history);
  }

  lemma {:induction false} MovesStartFirst(h: seq<Decision>)
    requires h != [] && !h[0].kind.Hold?
    ensures Moves(h) != [] && Moves(h)[0] == h[0]
  {
    if |h| > 1 {
      MovesStartFirst(h[..|h| - 1]);
    } else {
      assert Moves(h[..0]) == [];
    }
  }

  // ---- metric failures and the deadline ----------------------------------------------------------

  /** Failed fetches since the last successful one. */
  function Outage(polls: seq<Poll>): nat {
    if polls == [] || !polls[|polls| - 1].fetch.Unavailable? then 0 else Outage(polls[..|polls| - 1]) + 1
  }

  /** While a run with a source is alive its failure count is the current outage, below the limit. */
  lemma {:induction false} FailuresCountOutage(cfg: CanaryConfig, rc: RunnerConfig, r: Rollout, started: real,
                                               polls: seq<Poll>)
    requires OnStep(cfg, r) && r.state.Running? && |r.history| == 1 && rc.hasSource
    requires RunPolls(cfg, rc, r, started, polls).c.rollout.state.Running?
    ensures RunPolls(cfg, rc, r, started, polls).failures == Outage(polls) < FailureLimit(rc)
  {
    hide TickController;
    if polls != [] {
      FailuresCountOutage(cfg, rc, r, started, polls[..|polls| - 1]);
    }
  }

  /** Before the deadline, a failed fetch aborts exactly when it makes the outage reach the
      configured number of consecutive failures. */
  lemma MetricOutageAbortsExactly(cfg: CanaryConfig, rc: RunnerConfig, r: Rollout, started: real, polls: seq<Poll>)
    requires OnStep(cfg, r) && r.state.Running? && |r.history| == 1 && rc.hasSource && polls != []
    requires RunPolls(cfg, rc, r, started, polls[..|polls| - 1]).c.rollout.state.Running?
    requires polls[|polls| - 1].fetch.Unavailable? && !PastDeadline(rc, started, polls[|polls| - 1].now)
    ensures var p := RunPolls(cfg, rc, r, started, polls);
            && Outage(polls) <= FailureLimit(rc)
            && (Outage(polls) == FailureLimit(rc) <==> !p.c.rollout.state.Running?)
            && (Outage(polls) == FailureLimit(rc) <==> p.c.rollout.state.RolledBack?)
  {
    FailuresCountOutage(cfg, rc, r, started, polls[..|polls| - 1]);
  }

  /** With a deadline and a clock that advances by at least the poll interval per poll, no run
      outlives the deadline's worth of polls, rounded up. */
  lemma DeadlineEndsRun(cfg: CanaryConfig, rc: RunnerConfig, r: Rollout, started: real, polls: seq<Poll>)
    requires OnStep(cfg, r) && r.state.Running? && |r.history| == 1
    requires rc.pollS > 0.0 && rc.deadlineS.Some? && |polls| >= 1
    requires forall i :: 0 <= i < |polls| ==> polls[i].now >= started + (i + 1) as real * rc.pollS
    requires |polls| >= Ceil(rc.deadlineS.value / rc.pollS)
    ensures !RunPolls(cfg, rc, r, started, polls).c.rollout.state.Running?
  {
    hide TickController;
    var n := |polls|;
    EnoughPolls(n as real, rc.deadlineS.value, rc.pollS);
    assert polls[n - 1].now - started >= rc.deadlineS.value;
  }

  lemma EnoughPolls(n: real, d: real, step: real)
    requires step > 0.0 && n >= d / step
    ensures n * step >= d
  {
    Quotient(d, step);
    CompareScaled(n, d / step, step);
  }

  // ---- one poll, exactly --------------------------------------------------------------------------

  /** What the source says of a lane. */
  function Answer(rc: RunnerConfig, poll: Poll, lane: Lane): Option<LaneSummary> {
    if !rc.hasSource || poll.fetch.Unavailable? then None
    else match lane
      case Stable => poll.fetch.stable
      case Canary => poll.fetch.canary
  }

  /** The run ended with one more decision, an abort for this reason, and one more call. */
  ghost predicate AbortedFor(before: Progress, p: Progress, text: string, at: real) {
    && p.c.rollout.state.RolledBack? && p.calls == before.calls + [AbortCanary]
    && |p.decisions| == |before.decisions| + 1 && before.decisions <= p.decisions
    && var d := p.decisions[|before.decisions|];
       d.kind.Rollback? && d.reason == Aborted(text) && d.at == at
  }

  /** The lane was judged on what the source said of it, or else on its own window. */
  ghost predicate JudgedOn(cfg: CanaryConfig, lane: Lane, answer: Option<LaneSummary>, w: Window,
                           seen: Option<LaneSummary>)
  {
    seen == Some(if answer.Some? then answer.value else Summarize(lane, w.samples, cfg.windowS))
  }

  /** One poll of a run that is still going. It times out if and only if the deadline has passed, whatever
      the source says; a failed fetch adds no decision unless it is one too many; and otherwise one
      decision is added, judging each lane on the source's word for that lane or on the lane's window. */
  lemma PollExactly(cfg: CanaryConfig, rc: RunnerConfig, r: Rollout, started: real, polls: seq<Poll>)
    requires OnStep(cfg, r) && r.state.Running? && |r.history| == 1 && polls != []
    requires RunPolls(cfg, rc, r, started, polls[..|polls| - 1]).c.rollout.state.Running?
    ensures var before, p := RunPolls(cfg, rc, r, started, polls[..|polls| - 1]), RunPolls(cfg, rc, r, started, polls);
            var last, n := polls[|polls| - 1], |before.decisions|;
            var late := rc.deadlineS.Some? && last.now - started >= rc.deadlineS.value;
            var failed := !late && rc.hasSource && last.fetch.Unavailable?;
            && (p.outcome == OutTimedOut <==> late) && (late ==> AbortedFor(before, p, DEADLINE, last.now))
            && (failed ==> if Outage(polls) < FailureLimit(rc)
                           then p == before.(c := p.c, failures := p.failures) && p.c.rollout == before.c.rollout
                           else p.outcome == OutRolledBack && AbortedFor(before, p, METRICS, last.now))
            && (!late && !failed ==>
                  && |p.decisions| == n + 1 && p.decisions == before.decisions + [p.decisions[n]]
                  && p.decisions[n].at == last.now
                  && JudgedOn(cfg, Stable, Answer(rc, last, Stable), p.c.stable, p.decisions[n].stable)
                  && JudgedOn(cfg, Canary, Answer(rc, last, Canary), p.c.canary, p.decisions[n].canary))
  {
    hide Summarize, Prune, Observe, Breach, Healthy, Weight, Arrive, RunPolls, FailureLimit;
    var before, last := RunPolls(cfg, rc, r, started, polls[..|polls| - 1]), polls[|polls| - 1];
    RunsOn(cfg, rc, r, started, polls);
    RunningOutcome(cfg, rc, r, started, polls[..|polls| - 1]);
    if rc.hasSource { FailuresCountOutage(cfg, rc, r, started, polls[..|polls| - 1]); }
  }

  lemma RunsOn(cfg: CanaryConfig, rc: RunnerConfig, r: Rollout, started: real, polls: seq<Poll>)
    requires OnStep(cfg, r) && r.state.Running? && |r.history| == 1 && polls != []
    requires RunPolls(cfg, rc, r, started, polls[..|polls| - 1]).c.rollout.state.Running?
    ensures RunPolls(cfg, rc, r, started, polls)
            == Iterate(cfg, rc, started, RunPolls(cfg, rc, r, started, polls[..|polls| - 1]), polls[|polls| - 1])
  {
    hide Iterate;
  }

  lemma {:induction false} RunningOutcome(cfg: CanaryConfig, rc: RunnerConfig, r: Rollout, started: real,
                                          polls: seq<Poll>)
    requires OnStep(cfg, r) && r.state.Running? && |r.history| == 1
    requires RunPolls(cfg, rc, r, started, polls).c.rollout.state.Running?
    ensures RunPolls(cfg, rc, r, started, polls).outcome == StillRunning
  {
    if polls != [] { RunningOutcome(cfg, rc, r, started, polls[..|polls| - 1]); }
  }

  /** What arrived for one lane, in order. */
  function Arrived(arrivals: seq<(Lane, Sample)>, lane: Lane): seq<WindowOp> {
    if arrivals == [] then []
    else
      var (l, x) := arrivals[|arrivals| - 1];
      Arrived(arrivals[..|arrivals| - 1], lane) + if l == lane then [Saw(x)] else []
  }

  /** What a run's polls do to one lane's window: its arrivals, and a look when the gates ask for it. */
  function LaneOps(rc: RunnerConfig, started: real, polls: seq<Poll>, lane: Lane): seq<WindowOp> {
    if polls == [] then []
    else
      var last := polls[|polls| - 1];
      var judged := !(rc.deadlineS.Some? && last.now - started >= rc.deadlineS.value)
                    && !(rc.hasSource && last.fetch.Unavailable?);
      LaneOps(rc, started, polls[..|polls| - 1], lane) + Arrived(last.arrivals, lane)
      + if judged && Answer(rc, last, lane).None? then [Looked(last.now)] else []
  }

  lemma {:induction false} ApplyMore(width: real, cap: nat, a: seq<WindowOp>, x: WindowOp)
    ensures ApplyAll(width, cap, a + [x]) == Apply(ApplyAll(width, cap, a), width, cap, x)
  {
    assert (a + [x])[..|a|] == a;
  }

  ghost predicate FedWith(cfg: CanaryConfig, c: Controller, stable: seq<WindowOp>, canary: seq<WindowOp>) {
    && c.stable == ApplyAll(cfg.windowS, cfg.maxSamples, stable)
    && c.canary == ApplyAll(cfg.windowS, cfg.maxSamples, canary)
  }

  lemma {:induction false} ArriveFeeds(cfg: CanaryConfig, c: Controller, arrivals: seq<(Lane, Sample)>,
                                       stable: seq<WindowOp>, canary: seq<WindowOp>)
    requires FedWith(cfg, c, stable, canary)
    ensures FedWith(cfg, Arrive(cfg, c, arrivals), stable + Arrived(arrivals, Stable),
                    canary + Arrived(arrivals, Canary))
  {
    hide Observe, Apply, ApplyAll;
    if arrivals == [] {
      assert stable + [] == stable && canary + [] == canary;
    } else {
      var before, last := arrivals[..|arrivals| - 1], arrivals[|arrivals| - 1];
      ArriveFeeds(cfg, c, before, stable, canary);
      var s, k := stable + Arrived(before, Stable), canary + Arrived(before, Canary);
      ObserveFeeds(cfg, Arrive(cfg, c, before), last.0, last.1, s, k);
      assert s + [] == s && k + [] == k;
      assert stable + Arrived(arrivals, Stable) == s + if last.0 == Stable then [Saw(last.1)] else [];
      assert canary + Arrived(arrivals, Canary) == k + if last.0 == Canary then [Saw(last.1)] else [];
    }
  }

  lemma ObserveFeeds(cfg: CanaryConfig, c: Controller, lane: Lane, x: Sample, s: seq<WindowOp>, k: seq<WindowOp>)
    requires FedWith(cfg, c, s, k)
    ensures FedWith(cfg, ObserveController(cfg, c, lane, x), if lane == Stable then s + [Saw(x)] else s,
                    if lane == Canary then k + [Saw(x)] else k)
  {
    hide Observe, ApplyAll;
    ApplyMore(cfg.windowS, cfg.maxSamples, s, Saw(x));
    ApplyMore(cfg.windowS, cfg.maxSamples, k, Saw(x));
  }

  lemma ConsultFeeds(cfg: CanaryConfig, lane: Lane, w: Window, at: real, answer: Option<LaneSummary>, a: seq<WindowOp>)
    requires w == ApplyAll(cfg.windowS, cfg.maxSamples, a)
    ensures Consult(cfg, lane, w, at, answer).1
            == ApplyAll(cfg.windowS, cfg.maxSamples, a + if answer.None? then [Looked(at)] else [])
  {
    hide Summarize, Prune, ApplyAll;
    ApplyMore(cfg.windowS, cfg.maxSamples, a, Looked(at));
    assert a + [] == a;
  }

  lemma IterateFeeds(cfg: CanaryConfig, rc: RunnerConfig, started: real, p: Progress, poll: Poll,
                     stable: seq<WindowOp>, canary: seq<WindowOp>)
    requires OnStep(cfg, p.c.rollout) && p.c.rollout.state.Running? && FedWith(cfg, p.c, stable, canary)
    ensures var late := rc.deadlineS.Some? && poll.now - started >= rc.deadlineS.value;
            var judged := !late && !(rc.hasSource && poll.fetch.Unavailable?);
            FedWith(cfg, Iterate(cfg, rc, started, p, poll).c,
                    stable + Arrived(poll.arrivals, Stable)
                    + if judged && Answer(rc, poll, Stable).None? then [Looked(poll.now)] else [],
                    canary + Arrived(poll.arrivals, Canary)
                    + if judged && Answer(rc, poll, Canary).None? then [Looked(poll.now)] else [])
  {
    hide ApplyAll, Arrive, Arrived, Tick, Consult, Abort;
    ArriveFeeds(cfg, p.c, poll.arrivals, stable, canary);
    var c := Arrive(cfg, p.c, poll.arrivals);
    var s, k := stable + Arrived(poll.arrivals, Stable), canary + Arrived(poll.arrivals, Canary);
    ConsultFeeds(cfg, Stable, c.stable, poll.now, Answer(rc, poll, Stable), s);
    ConsultFeeds(cfg, Canary, c.canary, poll.now, Answer(rc, poll, Canary), k);
    assert s + [] == s && k + [] == k;
  }

  /** Over a whole run each lane's window is what that lane's own arrivals and looks make of an empty one;
      `WindowRefinesRecomputation` says what that is. */
  lemma {:induction false} WindowsAsFed(cfg: CanaryConfig, rc: RunnerConfig, r: Rollout, started: real,
                                        polls: seq<Poll>)
    requires OnStep(cfg, r) && r.state.Running? && |r.history| == 1
    requires polls != [] ==> RunPolls(cfg, rc, r, started, polls[..|polls| - 1]).c.rollout.state.Running?
    ensures FedWith(cfg, RunPolls(cfg, rc, r, started, polls).c, LaneOps(rc, started, polls, Stable),
                    LaneOps(rc, started, polls, Canary))
  {
    hide Iterate, Arrived, FedWith, ApplyAll;
    if polls == [] {
      NothingFed(cfg, r);
    } else {
      var before := polls[..|polls| - 1];
      if before != [] { StillRunningBefore(cfg, rc, r, started, before); }
      WindowsAsFed(cfg, rc, r, started, before);
      IterateFeeds(cfg, rc, started, RunPolls(cfg, rc, r, started, before), polls[|polls| - 1],
                   LaneOps(rc, started, before, Stable), LaneOps(rc, started, before, Canary));
    }
  }

  lemma NothingFed(cfg: CanaryConfig, r: Rollout)
    ensures FedWith(cfg, Controller(r, EMPTY, EMPTY), [], [])
  {}

  lemma StillRunningBefore(cfg: CanaryConfig, rc: RunnerConfig, r: Rollout, started: real, polls: seq<Poll>)
    requires OnStep(cfg, r) && r.state.Running? && |r.history| == 1 && polls != []
    requires RunPolls(cfg, rc, r, started, polls).c.rollout.state.Running?
    ensures RunPolls(cfg, rc, r, started, polls[..|polls| - 1]).c.rollout.state.Running?
  {
    hide Iterate;
  }
}
