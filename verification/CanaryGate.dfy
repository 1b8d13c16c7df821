/** The rollout state machine of src/turboserve/canary/controller.py as a value: configuration,
    gates, the four operations, and what holds over every run of them. */
module CanaryGate {
  import opened Prelude
  import opened Sorting
  import opened Records
  import opened LaneWindows

  datatype RawConfig = Config(steps: seq<int>, holdS: real, windowS: real, minRequests: nat,
                              maxErrorRate: real, maxP95Ttft: Option<real>, maxRatio: real,
                              stallS: Option<real>, maxSamples: nat)

  /** Strictly increasing percentages in [1, 100] that end at 100. */
  predicate CompleteSteps(steps: seq<int>) {
    && steps != []
    && (forall i :: 0 <= i < |steps| ==> 1 <= steps[i] <= 100)
    && (forall i, j :: 0 <= i < j < |steps| ==> steps[i] < steps[j])
    && steps[|steps| - 1] == 100
  }

  predicate ValidConfig(c: RawConfig) {
    && CompleteSteps(c.steps)
    && c.holdS > 0.0 && c.windowS > 0.0 && c.minRequests >= 1
    && 0.0 <= c.maxErrorRate <= 1.0
    && (c.maxP95Ttft.Some? ==> c.maxP95Ttft.value > 0.0)
    && c.maxRatio > 0.0
    && (c.stallS.Some? ==> c.stallS.value > 0.0)
    && c.maxSamples >= 1
  }

  const SMALLEST := Config([100], 1.0, 1.0, 1, 0.0, None, 1.0, None, 1)

  type CanaryConfig = c: RawConfig | ValidConfig(c) witness SMALLEST

  datatype State = Idle | Running | Promoted | RolledBack

  datatype Kind = Hold | Advance | Promote | Rollback

  /** Why a decision was taken; the message texts are not modelled. */
  datatype Reason =
    | Started | Aborted(text: string) | NoRollout
    | WaitingForTraffic | Stalled
    | ErrorRateBreach | TtftBreach | TtftRatioBreach | E2eRatioBreach
    | HealthyNotHeldYet | AdvancedAfterHold | PromotedAfterHold

  datatype Decision = Decision(kind: Kind, reason: Reason, at: real, state: State, weight: int,
                               stepIndex: nat, version: Option<string>,
                               stable: Option<LaneSummary>, canary: Option<LaneSummary>)

  datatype Rollout = Rollout(state: State, version: Option<string>, stepIndex: nat,
                             stepStartedAt: real, history: seq<Decision>)

  datatype CanaryError = AlreadyRunning | EmptyVersion | NothingToAbort

  const IDLE := Rollout(Idle, None, 0, 0.0, [])

  predicate OnStep(cfg: CanaryConfig, r: Rollout) { r.stepIndex < |cfg.steps| }

  /** Percentage of traffic for the canary lane. */
  function Weight(cfg: CanaryConfig, r: Rollout): (w: int)
    requires OnStep(cfg, r)
    ensures 0 <= w <= 100
  {
    match r.state
    case Running => cfg.steps[r.stepIndex]
    case Promoted => 100
    case _ => 0
  }

  // ---- the gates -------------------------------------------------------------------------

  predicate RatioExceeded(limit: real, canary: Option<real>, stable: Option<real>) {
    canary.Some? && stable.Some? && stable.value > 0.0 && canary.value / stable.value > limit
  }

  function Breach(cfg: CanaryConfig, stable: LaneSummary, canary: LaneSummary): Option<Reason> {
    if ErrorRate(canary) > cfg.maxErrorRate then Some(ErrorRateBreach)
    else if cfg.maxP95Ttft.Some? && canary.p95Ttft.Some? && canary.p95Ttft.value > cfg.maxP95Ttft.value
    then Some(TtftBreach)
    else if stable.requests < cfg.minRequests then None
    else if RatioExceeded(cfg.maxRatio, canary.p95Ttft, stable.p95Ttft) then Some(TtftRatioBreach)
    else if RatioExceeded(cfg.maxRatio, canary.p95E2e, stable.p95E2e) then Some(E2eRatioBreach)
    else None
  }

  // ---- what the gates mean, in numbers -------------------------------------------------------

  predicate TooManyErrors(cfg: CanaryConfig, canary: LaneSummary) {
    canary.errors as real > cfg.maxErrorRate * canary.requests as real
  }

  predicate TtftTooSlow(cfg: CanaryConfig, canary: LaneSummary) {
    cfg.maxP95Ttft.Some? && canary.p95Ttft.Some? && canary.p95Ttft.value > cfg.maxP95Ttft.value
  }

  /** Both lanes have the latency, stable's is positive, and the canary's is above `ratio` times it. */
  predicate SlowerThan(ratio: real, canary: Option<real>, stable: Option<real>) {
    canary.Some? && stable.Some? && stable.value > 0.0 && canary.value > ratio * stable.value
  }

  /** The first of these reasons, in this order, that there is against the canary. */
  predicate FailsFor(cfg: CanaryConfig, stable: LaneSummary, canary: LaneSummary, reason: Reason) {
    var compared := stable.requests >= cfg.minRequests;
    var errors, slow := TooManyErrors(cfg, canary), TtftTooSlow(cfg, canary);
    var slowTtft := compared && SlowerThan(cfg.maxRatio, canary.p95Ttft, stable.p95Ttft);
    var slowE2e := compared && SlowerThan(cfg.maxRatio, canary.p95E2e, stable.p95E2e);
    match reason
    case ErrorRateBreach => errors
    case TtftBreach => !errors && slow
    case TtftRatioBreach => !errors && !slow && slowTtft
    case E2eRatioBreach => !errors && !slow && !slowTtft && slowE2e
    case _ => false
  }

  predicate Healthy(cfg: CanaryConfig, stable: LaneSummary, canary: LaneSummary) {
    && !TooManyErrors(cfg, canary) && !TtftTooSlow(cfg, canary)
    && (stable.requests >= cfg.minRequests ==>
          && !SlowerThan(cfg.maxRatio, canary.p95Ttft, stable.p95Ttft)
          && !SlowerThan(cfg.maxRatio, canary.p95E2e, stable.p95E2e))
  }

  lemma RatioInNumbers(limit: real, canary: Option<real>, stable: Option<real>)
    ensures RatioExceeded(limit, canary, stable) <==> SlowerThan(limit, canary, stable)
  {
    if canary.Some? && stable.Some? && stable.value > 0.0 {
      Quotient(canary.value, stable.value);
      CompareScaled(limit, canary.value / stable.value, stable.value);
    }
  }

  lemma ErrorsInNumbers(cfg: CanaryConfig, canary: LaneSummary)
    ensures ErrorRate(canary) > cfg.maxErrorRate <==> TooManyErrors(cfg, canary)
  {
    if canary.requests > 0 { CompareScaled(cfg.maxErrorRate, ErrorRate(canary), canary.requests as real); }
  }

  /** The gates find exactly that reason, and none exactly if the numbers are all within limits. */
  lemma BreachExactly(cfg: CanaryConfig, stable: LaneSummary, canary: LaneSummary)
    ensures Breach(cfg, stable, canary).None? <==> Healthy(cfg, stable, canary)
    ensures forall reason :: Breach(cfg, stable, canary) == Some(reason) <==> FailsFor(cfg, stable, canary, reason)
  {
    hide ErrorRate, RatioExceeded, TooManyErrors, SlowerThan;
    ErrorsInNumbers(cfg, canary);
    RatioInNumbers(cfg.maxRatio, canary.p95Ttft, stable.p95Ttft);
    RatioInNumbers(cfg.maxRatio, canary.p95E2e, stable.p95E2e);
  }

  /** What a running rollout concludes from one pair of summaries. */
  function Verdict(cfg: CanaryConfig, stepIndex: nat, elapsed: real, stable: LaneSummary, canary: LaneSummary)
    : (Kind, Reason)
  {
    if canary.requests < cfg.minRequests then
      if cfg.stallS.Some? && elapsed >= cfg.stallS.value then (Rollback, Stalled)
      else (Hold, WaitingForTraffic)
    else
      var breach := Breach(cfg, stable, canary);
      if breach.Some? then (Rollback, breach.value)
      else if elapsed < cfg.holdS then (Hold, HealthyNotHeldYet)
      else if stepIndex >= |cfg.steps| - 1 then (Promote, PromotedAfterHold)
      else (Advance, AdvancedAfterHold)
  }

  // ---- the operations -----------------------------------------------------------------------

  function Describe(cfg: CanaryConfig, r: Rollout, kind: Kind, reason: Reason, at: real,
                    stable: Option<LaneSummary>, canary: Option<LaneSummary>): Decision
    requires OnStep(cfg, r)
  {
    Decision(kind, reason, at, r.state, Weight(cfg, r), r.stepIndex, r.version, stable, canary)
  }

  function Record(cfg: CanaryConfig, r: Rollout, kind: Kind, reason: Reason, at: real,
                  stable: Option<LaneSummary>, canary: Option<LaneSummary>): Rollout
    requires OnStep(cfg, r)
  {
    r.(history := r.history + [Describe(cfg, r, kind, reason, at, stable, canary)])
  }

  function Start(cfg: CanaryConfig, r: Rollout, version: string, at: real): Result<Rollout, CanaryError> {
    if r.state.Running? then Err(AlreadyRunning)
    else if version == "" then Err(EmptyVersion)
    else Ok(Record(cfg, Rollout(Running, Some(version), 0, at, []), Advance, Started, at, None, None))
  }

  function Abort(cfg: CanaryConfig, r: Rollout, text: string, at: real): Result<Rollout, CanaryError>
    requires OnStep(cfg, r)
  {
    if !r.state.Running? then Err(NothingToAbort)
    else Ok(Record(cfg, r.(state := RolledBack), Rollback, Aborted(text), at, None, None))
  }

  /** The position a verdict leads to, before it is recorded. */
  function Moved(cfg: CanaryConfig, r: Rollout, kind: Kind, at: real): (r': Rollout)
    requires OnStep(cfg, r) && (kind.Advance? ==> r.stepIndex + 1 < |cfg.steps|)
    ensures OnStep(cfg, r')
  {
    match kind
    case Hold => r
    case Advance => r.(stepIndex := r.stepIndex + 1, stepStartedAt := at)
    case Promote => r.(state := Promoted)
    case Rollback => r.(state := RolledBack)
  }

  function Tick(cfg: CanaryConfig, r: Rollout, at: real, stable: LaneSummary, canary: LaneSummary): (r': Rollout)
    requires OnStep(cfg, r)
    ensures OnStep(cfg, r')
  {
    if !r.state.Running? then r
    else
      var (kind, reason) := Verdict(cfg, r.stepIndex, at - r.stepStartedAt, stable, canary);
      Record(cfg, Moved(cfg, r, kind, at), kind, reason, at, Some(stable), Some(canary))
  }

  /** What a tick of a running rollout does, in numbers: it rolls back if and only if there is a reason
      against the canary, or too little traffic for too long; moves on if and only if enough healthy
      traffic was held long enough; and records the decision with its reason. */
  lemma TickExactly(cfg: CanaryConfig, r: Rollout, at: real, stable: LaneSummary, canary: LaneSummary)
    requires OnStep(cfg, r) && r.state.Running?
    ensures var r' := Tick(cfg, r, at, stable, canary);
            var d := r'.history[|r.history|];
            var enough, healthy := canary.requests >= cfg.minRequests, Healthy(cfg, stable, canary);
            var elapsed := at - r.stepStartedAt;
            var stalled := cfg.stallS.Some? && elapsed >= cfg.stallS.value;
            var held, last := elapsed >= cfg.holdS, r.stepIndex == |cfg.steps| - 1;
            && r'.history == r.history + [d] && d.at == at && d.stable == Some(stable) && d.canary == Some(canary)
            && (d.kind.Rollback? <==> if enough then !healthy else stalled)
            && (d.kind.Promote? <==> enough && healthy && held && last)
            && (d.kind.Advance? <==> enough && healthy && held && !last)
            && (enough && !healthy ==> FailsFor(cfg, stable, canary, d.reason))
            && (!enough ==> d.reason == if stalled then Stalled else WaitingForTraffic)
            && (r'.state == if d.kind.Rollback? then RolledBack else if d.kind.Promote? then Promoted else Running)
            && r'.stepIndex == (if d.kind.Advance? then r.stepIndex + 1 else r.stepIndex)
            && r'.stepStartedAt == (if d.kind.Advance? then at else r.stepStartedAt)
  {
    hide Breach, Healthy, FailsFor;
    BreachExactly(cfg, stable, canary);
  }

  // ---- runs ---------------------------------------------------------------------------------

  datatype Op =
    | OpStart(version: string, at: real)
    | OpAbort(text: string, at: real)
    | OpReset
    | OpTick(at: real, stable: LaneSummary, canary: LaneSummary)

  /** One call; a call that raises changes nothing. */
  function Step(cfg: CanaryConfig, r: Rollout, op: Op): (r': Rollout)
    requires OnStep(cfg, r)
    ensures OnStep(cfg, r')
  {
    match op
    case OpStart(v, at) => var s := Start(cfg, r, v, at); if s.Ok? then s.value else r
    case OpAbort(text, at) => var s := Abort(cfg, r, text, at); if s.Ok? then s.value else r
    case OpReset => IDLE
    case OpTick(at, stable, canary) => Tick(cfg, r, at, stable, canary)
  }

  function Run(cfg: CanaryConfig, ops: seq<Op>): (r: Rollout)
    ensures OnStep(cfg, r)
  {
    if ops == [] then IDLE else Step(cfg, Run(cfg, ops[..|ops| - 1]), ops[|ops| - 1])
  }

  // ---- what a history proves -----------------------------------------------------------------

  /** The decisions that moved the rollout, in order. */
  function Moves(h: seq<Decision>): seq<Decision> {
    if h == [] then []
    else Moves(h[..|h| - 1]) + (if h[|h| - 1].kind.Hold? then [] else [h[|h| - 1]])
  }

  /** `d` is a tick that saw enough canary traffic, no breach, and a full hold since `since`. */
  ghost predicate Passed(cfg: CanaryConfig, since: real, d: Decision) {
    && d.stable.Some? && d.canary.Some?
    && d.canary.value.requests >= cfg.minRequests
    && Healthy(cfg, d.stable.value, d.canary.value)
    && d.at - since >= cfg.holdS
  }

  /** An unbroken climb from step 0: move `j` enters step `j`, each after passing the last. */
  ghost predicate Climb(cfg: CanaryConfig, m: seq<Decision>) {
    && 0 < |m| <= |cfg.steps|
    && m[0].reason.Started?
    && (forall j :: 0 <= j < |m| ==>
          && m[j].kind.Advance? && m[j].state.Running?
          && m[j].stepIndex == j && m[j].weight == cfg.steps[j])
    && (forall j :: 1 <= j < |m| ==> Passed(cfg, m[j - 1].at, m[j]))
  }

  /** Each recorded decision continues the one before it; only a running rollout continues. */
  ghost predicate Continues(cfg: CanaryConfig, prev: Decision, d: Decision) {
    && prev.state.Running? && d.version == prev.version
    && match d.kind
       case Hold => d.state.Running? && d.stepIndex == prev.stepIndex && d.weight == prev.weight
       case Advance => d.state.Running? && d.stepIndex == prev.stepIndex + 1 < |cfg.steps|
                       && d.weight == cfg.steps[d.stepIndex]
       case Promote => d.state.Promoted? && d.stepIndex == prev.stepIndex == |cfg.steps| - 1 && d.weight == 100
       case Rollback => d.state.RolledBack? && d.stepIndex == prev.stepIndex && d.weight == 0
  }

  ghost predicate Audited(cfg: CanaryConfig, h: seq<Decision>) {
    && h != [] && h[0].kind.Advance? && h[0].stepIndex == 0 && h[0].state.Running?
    && forall i :: 1 <= i < |h| ==> Continues(cfg, h[i - 1], h[i])
  }

  /** The invariant of every reachable rollout. */
  ghost predicate Consistent(cfg: CanaryConfig, r: Rollout) {
    && OnStep(cfg, r)
    && (r.state.Idle? ==> r == IDLE)
    && (!r.state.Idle? ==>
          && Audited(cfg, r.history)
          && var last := r.history[|r.history| - 1];
             var m := Moves(r.history);
             && last.state == r.state && last.stepIndex == r.stepIndex
             && last.weight == Weight(cfg, r) && last.version == r.version
             && (r.state.Running? ==>
                   Climb(cfg, m) && |m| == r.stepIndex + 1 && r.stepStartedAt == m[|m| - 1].at)
             && (!r.state.Running? ==>
                   && |m| == r.stepIndex + 2 && m[|m| - 1] == last
                   && Climb(cfg, m[..|m| - 1])
                   && (r.state.Promoted? ==>
                         && last.kind.Promote? && r.stepIndex == |cfg.steps| - 1
                         && Passed(cfg, m[|m| - 2].at, last))
                   && (r.state.RolledBack? ==> last.kind.Rollback?)))
  }

  lemma AuditedAppend(cfg: CanaryConfig, h: seq<Decision>, d: Decision)
    requires Audited(cfg, h) && Continues(cfg, h[|h| - 1], d)
    ensures Audited(cfg, h + [d])
  {
    forall i | 1 <= i < |h + [d]| ensures Continues(cfg, (h + [d])[i - 1], (h + [d])[i]) {
      if i < |h| { assert Continues(cfg, h[i - 1], h[i]); }
    }
  }

  lemma MovesAppend(h: seq<Decision>, d: Decision)
    ensures Moves(h + [d]) == Moves(h) + (if d.kind.Hold? then [] else [d])
  {
    assert (h + [d])[..|h|] == h;
  }

  lemma StartConsistent(cfg: CanaryConfig, r: Rollout, version: string, at: real)
    requires Start(cfg, r, version, at).Ok?
    ensures var r' := Start(cfg, r, version, at).value;
            && Consistent(cfg, r') && r'.state.Running? && r'.stepIndex == 0 && r'.stepStartedAt == at
            && r'.version == Some(version) && |r'.history| == 1 && r'.history[0].at == at
  {
    var r' := Start(cfg, r, version, at).value;
    MovesAppend([], r'.history[0]);
    assert [] + [r'.history[0]] == r'.history;
  }

  /** Recording one more decision of a running rollout keeps the invariant. */
  lemma {:induction false} RecordConsistent(cfg: CanaryConfig, r: Rollout, r': Rollout, kind: Kind, reason: Reason,
                                            at: real, stable: Option<LaneSummary>, canary: Option<LaneSummary>)
    requires Consistent(cfg, r) && r.state.Running?
    requires kind.Advance? ==> r.stepIndex + 1 < |cfg.steps|
    requires kind.Promote? ==> r.stepIndex == |cfg.steps| - 1
    requires r' == Record(cfg, Moved(cfg, r, kind, at), kind, reason, at, stable, canary)
    requires kind.Advance? || kind.Promote? ==> Passed(cfg, r.stepStartedAt, r'.history[|r.history|])
    ensures Consistent(cfg, r')
  {
    var d := r'.history[|r.history|];
    var m := Moves(r.history);
    assert r'.history == r.history + [d];
    assert Audited(cfg, r'.history) by { AuditedAppend(cfg, r.history, d); }
    assert Moves(r'.history) == m + (if kind.Hold? then [] else [d]) by { MovesAppend(r.history, d); }
    match kind {
      case Hold => assert m + [] == m;
      case Advance => ClimbAppend(cfg, m, d);
      case Promote => assert (m + [d])[..|m|] == m;
      case Rollback => assert (m + [d])[..|m|] == m;
    }
  }

  lemma ClimbAppend(cfg: CanaryConfig, m: seq<Decision>, d: Decision)
    requires Climb(cfg, m) && |m| < |cfg.steps|
    requires d.kind.Advance? && d.state.Running? && d.stepIndex == |m| && d.weight == cfg.steps[|m|]
    requires Passed(cfg, m[|m| - 1].at, d)
    ensures Climb(cfg, m + [d])
  {
    forall j | 1 <= j < |m + [d]| ensures Passed(cfg, (m + [d])[j - 1].at, (m + [d])[j]) {
      if j < |m| { assert Passed(cfg, m[j - 1].at, m[j]); }
    }
  }

  lemma StepConsistent(cfg: CanaryConfig, r: Rollout, op: Op)
    requires Consistent(cfg, r)
    ensures Consistent(cfg, Step(cfg, r, op))
  {
    hide Breach, Climb, Audited, Moves, Healthy, FailsFor;
    match op {
      case OpStart(v, at) =>
        if Start(cfg, r, v, at).Ok? { StartConsistent(cfg, r, v, at); }
      case OpAbort(text, at) =>
        if r.state.Running? {
          RecordConsistent(cfg, r, Step(cfg, r, op), Rollback, Aborted(text), at, None, None);
        }
      case OpReset =>
      case OpTick(at, stable, canary) =>
        if r.state.Running? {
          var (kind, reason) := Verdict(cfg, r.stepIndex, at - r.stepStartedAt, stable, canary);
          BreachExactly(cfg, stable, canary);
          RecordConsistent(cfg, r, Step(cfg, r, op), kind, reason, at, Some(stable), Some(canary));
        }
    }
  }

  /** Every run, with any clock values and any lane summaries, stays consistent. */
  lemma {:induction false} RunConsistent(cfg: CanaryConfig, ops: seq<Op>)
    ensures Consistent(cfg, Run(cfg, ops))
  {
    if ops != [] {
      RunConsistent(cfg, ops[..|ops| - 1]);
      StepConsistent(cfg, Run(cfg, ops[..|ops| - 1]), ops[|ops| - 1]);
    }
  }

  lemma {:induction false} ClimbTakesTime(cfg: CanaryConfig, m: seq<Decision>, j: nat)
    requires Climb(cfg, m) && j < |m|
    ensures m[j].at - m[0].at >= j as real * cfg.holdS
  {
    if j > 0 {
      ClimbTakesTime(cfg, m, j - 1);
      assert Passed(cfg, m[j - 1].at, m[j]);
      assert j as real * cfg.holdS == (j - 1) as real * cfg.holdS + cfg.holdS;
    }
  }

  /** The moves of a rollout promoted under `cfg`: its start, one passing tick into each later
      step in order, and a final passing tick. */
  ghost predicate EarnedPromotion(cfg: CanaryConfig, m: seq<Decision>) {
    && |m| == |cfg.steps| + 1
    && m[0].reason.Started?
    && (forall j :: 0 <= j < |cfg.steps| ==>
          m[j].kind.Advance? && m[j].stepIndex == j && m[j].weight == cfg.steps[j])
    && m[|cfg.steps|].kind.Promote?
    && (forall j :: 1 <= j <= |cfg.steps| ==> Passed(cfg, m[j - 1].at, m[j]))
  }

  lemma ClimbThenPromotion(cfg: CanaryConfig, m: seq<Decision>, d: Decision)
    requires Climb(cfg, m) && |m| == |cfg.steps| && d.kind.Promote? && Passed(cfg, m[|m| - 1].at, d)
    ensures EarnedPromotion(cfg, m + [d])
    ensures d.at - m[0].at >= |cfg.steps| as real * cfg.holdS
  {
    forall j | 1 <= j <= |m| ensures Passed(cfg, (m + [d])[j - 1].at, (m + [d])[j]) {
      if j < |m| { assert Passed(cfg, m[j - 1].at, m[j]); }
    }
    ClimbTakesTime(cfg, m, |m| - 1);
    assert |m| as real * cfg.holdS == (|m| - 1) as real * cfg.holdS + cfg.holdS;
  }

  /** Promotion is earned in every run: one passing tick per configured step, in order, so it
      comes no sooner than a full hold per step after the start. */
  lemma PromotionIsEarned(cfg: CanaryConfig, ops: seq<Op>)
    requires Run(cfg, ops).state.Promoted?
    ensures var h := Run(cfg, ops).history;
            var m := Moves(h);
            && EarnedPromotion(cfg, m)
            && m[|cfg.steps|] == h[|h| - 1]
            && m[|cfg.steps|].at - m[0].at >= |cfg.steps| as real * cfg.holdS
  {
    RunConsistent(cfg, ops);
    var m := Moves(Run(cfg, ops).history);
    assert m == m[..|m| - 1] + [m[|m| - 1]];
    ClimbThenPromotion(cfg, m[..|m| - 1], m[|m| - 1]);
  }

  /** Position reached by replaying the kinds of a history, ignoring its recorded states. */
  function Replay(h: seq<Decision>): (State, int)
  {
    if h == [] then (Idle, -1)
    else
      var (state, step) := Replay(h[..|h| - 1]);
      match h[|h| - 1].kind
      case Hold => (state, step)
      case Advance => (Running, step + 1)
      case Promote => (Promoted, step)
      case Rollback => (RolledBack, step)
  }

  lemma {:induction false} AuditedReplays(cfg: CanaryConfig, h: seq<Decision>)
    requires Audited(cfg, h)
    ensures Replay(h) == (h[|h| - 1].state, h[|h| - 1].stepIndex)
  {
    if |h| == 1 {
      assert h[..0] == [];
      assert Replay(h[..0]) == (Idle, -1);
    } else {
      var before := h[..|h| - 1];
      forall i | 1 <= i < |before| ensures Continues(cfg, before[i - 1], before[i]) {
        assert Continues(cfg, h[i - 1], h[i]);
      }
      AuditedReplays(cfg, before);
      assert Continues(cfg, h[|h| - 2], h[|h| - 1]);
    }
  }

  /** The stored history replays the rollout exactly, weights follow `steps` without skipping,
      and the only terminal decision is the last one. */
  lemma HistoryReplaysRollout(cfg: CanaryConfig, ops: seq<Op>)
    requires !Run(cfg, ops).state.Idle?
    ensures var r := Run(cfg, ops);
            && Replay(r.history) == (r.state, r.stepIndex)
            && r.history[|r.history| - 1].weight == Weight(cfg, r)
            && (forall i :: 0 <= i < |r.history| - 1 ==> r.history[i].state.Running?)
            && (forall i :: 1 <= i < |r.history| ==> Continues(cfg, r.history[i - 1], r.history[i]))
  {
    RunConsistent(cfg, ops);
    var h := Run(cfg, ops).history;
    AuditedReplays(cfg, h);
    forall i | 0 <= i < |h| - 1 ensures h[i].state.Running? {
      assert Continues(cfg, h[i + 1 - 1], h[i + 1]);
    }
  }

  // ---- the gate against its samples ---------------------------------------------------------

  predicate NoFaster(a: Option<real>, b: Option<real>) {
    a.Some? == b.Some? && (a.Some? ==> a.value <= b.value)
  }

  /** `b` is `a` with some successful samples slowed down and no outcome changed. */
  ghost predicate Slowed(a: seq<Sample>, b: seq<Sample>) {
    && |a| == |b|
    && forall i :: 0 <= i < |a| ==>
         && a[i].ok == b[i].ok
         && (a[i].ok ==> NoFaster(a[i].ttft, b[i].ttft) && NoFaster(a[i].e2e, b[i].e2e))
  }

  lemma ConcatDominates(a: seq<real>, b: seq<real>, c: seq<real>, d: seq<real>)
    requires Dominates(a, b) && Dominates(c, d)
    ensures Dominates(a + c, b + d)
  {
  }

  lemma {:induction false} SlowedErrors(a: seq<Sample>, b: seq<Sample>)
    requires Slowed(a, b)
    ensures Errors(a) == Errors(b)
  {
    if a != [] { SlowedErrors(a[1..], b[1..]); }
  }

  lemma {:induction false} SlowedTtft(a: seq<Sample>, b: seq<Sample>)
    requires Slowed(a, b)
    ensures Dominates(TtftLatencies(a), TtftLatencies(b))
  {
    if a != [] {
      SlowedTtft(a[1..], b[1..]);
      if a[0].ok && a[0].ttft.Some? {
        ConcatDominates([a[0].ttft.value], [b[0].ttft.value], TtftLatencies(a[1..]), TtftLatencies(b[1..]));
      } else {
        ConcatDominates([], [], TtftLatencies(a[1..]), TtftLatencies(b[1..]));
      }
    }
  }

  lemma {:induction false} SlowedE2e(a: seq<Sample>, b: seq<Sample>)
    requires Slowed(a, b)
    ensures Dominates(E2eLatencies(a), E2eLatencies(b))
  {
    if a != [] {
      SlowedE2e(a[1..], b[1..]);
      if a[0].ok && a[0].e2e.Some? {
        ConcatDominates([a[0].e2e.value], [b[0].e2e.value], E2eLatencies(a[1..]), E2eLatencies(b[1..]));
      } else {
        ConcatDominates([], [], E2eLatencies(a[1..]), E2eLatencies(b[1..]));
      }
    }
  }

  lemma SlowedPercentile(a: seq<real>, b: seq<real>)
    requires Dominates(a, b)
    ensures NoFaster(PercentileOf(a, 95.0), PercentileOf(b, 95.0))
  {
    if a != [] { PercentileMonotone(a, b, 95.0); }
  }

  lemma RatioMonotone(limit: real, a: Option<real>, b: Option<real>, stable: Option<real>)
    requires NoFaster(a, b) && RatioExceeded(limit, a, stable)
    ensures RatioExceeded(limit, b, stable)
  {
    var x, y, s := a.value, b.value, stable.value;
    assert y / s - x / s == (y - x) / s;
    assert (y - x) / s >= 0.0;
  }

  lemma BreachMonotone(cfg: CanaryConfig, stable: LaneSummary, a: LaneSummary, b: LaneSummary)
    requires a.requests == b.requests && a.errors == b.errors
    requires NoFaster(a.p95Ttft, b.p95Ttft) && NoFaster(a.p95E2e, b.p95E2e)
    requires Breach(cfg, stable, a).Some?
    ensures Breach(cfg, stable, b).Some?
  {
    assert ErrorRate(a) == ErrorRate(b);
    if RatioExceeded(cfg.maxRatio, a.p95Ttft, stable.p95Ttft) {
      RatioMonotone(cfg.maxRatio, a.p95Ttft, b.p95Ttft, stable.p95Ttft);
    }
    if RatioExceeded(cfg.maxRatio, a.p95E2e, stable.p95E2e) {
      RatioMonotone(cfg.maxRatio, a.p95E2e, b.p95E2e, stable.p95E2e);
    }
  }

  /** Slowing canary samples down never turns a rollback into any other decision, whatever the
      stable lane, the step and the elapsed time. */
  lemma GateMonotoneInLatency(cfg: CanaryConfig, stepIndex: nat, elapsed: real, stable: LaneSummary,
                              a: seq<Sample>, b: seq<Sample>)
    requires Slowed(a, b)
    requires Verdict(cfg, stepIndex, elapsed, stable, Summarize(Canary, a, cfg.windowS)).0.Rollback?
    ensures Verdict(cfg, stepIndex, elapsed, stable, Summarize(Canary, b, cfg.windowS)).0.Rollback?
  {
    hide PercentileOf, Breach;
    SlowedErrors(a, b);
    SlowedTtft(a, b);
    SlowedE2e(a, b);
    SlowedPercentile(TtftLatencies(a), TtftLatencies(b));
    SlowedPercentile(E2eLatencies(a), E2eLatencies(b));
    var sa, sb := Summarize(Canary, a, cfg.windowS), Summarize(Canary, b, cfg.windowS);
    if Breach(cfg, stable, sa).Some? {
      BreachMonotone(cfg, stable, sa, sb);
    }
  }

  lemma {:induction false} AllFailed(samples: seq<Sample>)
    requires forall i :: 0 <= i < |samples| ==> !samples[i].ok
    ensures Errors(samples) == |samples|
  {
    if samples != [] { AllFailed(samples[1..]); }
  }

  lemma OnlyErrorsBreach(cfg: CanaryConfig, stable: LaneSummary, canary: LaneSummary)
    requires canary.errors == canary.requests > 0 && cfg.maxErrorRate < 1.0
    ensures Breach(cfg, stable, canary) == Some(ErrorRateBreach)
  {
    assert canary.requests as real / canary.requests as real == 1.0;
  }

  /** A window of nothing but failures, once big enough, is rolled back by the next tick. */
  lemma AllFailuresRollBack(cfg: CanaryConfig, r: Rollout, at: real, stable: LaneSummary, samples: seq<Sample>)
    requires OnStep(cfg, r) && r.state.Running? && cfg.maxErrorRate < 1.0
    requires |samples| >= cfg.minRequests && forall i :: 0 <= i < |samples| ==> !samples[i].ok
    ensures var r' := Tick(cfg, r, at, stable, Summarize(Canary, samples, cfg.windowS));
            && r'.state.RolledBack? && Weight(cfg, r') == 0
            && r'.history[|r.history|].reason == ErrorRateBreach
  {
    AllFailed(samples);
    var canary := Summarize(Canary, samples, cfg.windowS);
    OnlyErrorsBreach(cfg, stable, canary);
    assert canary.requests == |samples|;
    hide Breach, Summarize;
  }
}
