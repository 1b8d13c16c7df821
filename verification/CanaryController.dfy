/** The controller object of src/turboserve/canary/controller.py: a rollout plus its two lane
    windows, updated in place, each method tied to the state machine it implements. */
module CanaryControllers {
  import opened Prelude
  import opened LaneWindows
  import opened CanaryGate

  /** The controller's whole state as a value. */
  datatype Controller = Controller(rollout: Rollout, stable: Window, canary: Window)

  const FRESH := Controller(IDLE, EMPTY, EMPTY)

  /** The summary a tick uses for one lane, and that lane's window afterwards: an override is
      taken as it is, otherwise the window is expired and aggregated. */
  function Consult(cfg: CanaryConfig, lane: Lane, w: Window, at: real, override: Option<LaneSummary>)
    : (LaneSummary, Window)
  {
    if override.Some? then (override.value, w)
    else
      var w' := Prune(w, cfg.windowS, at);
      (Summarize(lane, w'.samples, cfg.windowS), w')
  }

  function TickController(cfg: CanaryConfig, c: Controller, at: real,
                          stable: Option<LaneSummary>, canary: Option<LaneSummary>): Controller
    requires OnStep(cfg, c.rollout)
  {
    if !c.rollout.state.Running? then c
    else
      var (s, sw) := Consult(cfg, Stable, c.stable, at, stable);
      var (k, kw) := Consult(cfg, Canary, c.canary, at, canary);
      Controller(Tick(cfg, c.rollout, at, s, k), sw, kw)
  }

  function ObserveController(cfg: CanaryConfig, c: Controller, lane: Lane, s: Sample): Controller {
    match lane
    case Stable => c.(stable := Observe(c.stable, cfg.windowS, cfg.maxSamples, s))
    case Canary => c.(canary := Observe(c.canary, cfg.windowS, cfg.maxSamples, s))
  }

  // ---- evidence ------------------------------------------------------------------------------

  ghost predicate AllFail(s: seq<Sample>) { forall i :: 0 <= i < |s| ==> !s[i].ok }

  lemma {:induction false} FreshFail(seen: seq<Sample>, cutoff: real)
    requires forall i :: 0 <= i < |seen| ==> seen[i].t >= cutoff ==> !seen[i].ok
    ensures AllFail(Fresh(seen, cutoff))
  {
    if seen != [] { FreshFail(seen[1..], cutoff); }
  }

  lemma {:induction false} LastNFail(s: seq<Sample>, n: nat)
    requires AllFail(s)
    ensures AllFail(LastN(s, n))
  {
    if |s| > n { LastNFail(s[1..], n); }
  }

  /** If every canary request observed in the window failed and there are enough of them, the
      next tick of a running rollout rolls back, whatever the stable lane did. */
  lemma {:induction false} FailingCanaryRollsBack(cfg: CanaryConfig, c: Controller, seen: seq<Sample>, at: real)
    requires OnStep(cfg, c.rollout) && c.rollout.state.Running? && cfg.maxErrorRate < 1.0
    requires Exact(c.canary, seen, cfg.windowS, cfg.maxSamples) && (c.canary.now.Some? ==> c.canary.now.value <= at)
    requires forall i :: 0 <= i < |seen| ==> seen[i].t >= at - cfg.windowS ==> !seen[i].ok
    requires |Recomputed(seen, at - cfg.windowS, cfg.maxSamples)| >= cfg.minRequests
    ensures TickController(cfg, c, at, None, None).rollout.state.RolledBack?
  {
    hide Tick, Exact, Summarize, Fresh, LastN, Prune, OnStep, Weight;
    var w := Prune(c.canary, cfg.windowS, at);
    assert |w.samples| >= cfg.minRequests && AllFail(w.samples) by {
      ExactPrune(c.canary, seen, cfg.windowS, cfg.maxSamples, at);
      ExactIsRecomputed(w, seen, cfg.windowS, cfg.maxSamples);
      FreshFail(seen, at - cfg.windowS);
      LastNFail(Fresh(seen, at - cfg.windowS), cfg.maxSamples);
    }
    var stable := Consult(cfg, Stable, c.stable, at, None).0;
    AllFailuresRollBack(cfg, c.rollout, at, stable, w.samples);
  }

  class CanaryController {
    const cfg: CanaryConfig
    const stable: LaneWindow
    const canary: LaneWindow
    var state: State
    var version: Option<string>
    var stepIndex: nat
    var stepStartedAt: real
    var history: seq<Decision>

    ghost predicate Valid()
      reads this
    {
      && stepIndex < |cfg.steps|
      && stable != canary
      && stable.lane == Stable && canary.lane == Canary
      && stable.width == canary.width == cfg.windowS
      && stable.cap == canary.cap == cfg.maxSamples
    }

    ghost function Value(): Controller
      reads this, stable, canary
    {
      Controller(Rollout(state, version, stepIndex, stepStartedAt, history), stable.Value(), canary.Value())
    }

    constructor (cfg: CanaryConfig)
      ensures this.cfg == cfg && Valid() && Value() == FRESH
      ensures fresh(stable) && fresh(canary)
    {
      this.cfg := cfg;
      stable := new LaneWindow(Stable, cfg.windowS, cfg.maxSamples);
      canary := new LaneWindow(Canary, cfg.windowS, cfg.maxSamples);
      state, version, stepIndex, stepStartedAt, history := Idle, None, 0, 0.0, [];
    }

    method CanaryWeight() returns (w: int)
      requires Valid()
      ensures w == Weight(cfg, Value().rollout)
    {
      match state {
        case Running => w := cfg.steps[stepIndex];
        case Promoted => w := 100;
        case _ => w := 0;
      }
    }

    /** Append a decision describing the position after it was applied. */
    method RecordDecision(kind: Kind, reason: Reason, at: real,
                          s: Option<LaneSummary>, k: Option<LaneSummary>) returns (d: Decision)
      requires Valid()
      modifies this`history
      ensures Valid()
      ensures history == old(history) + [d]
      ensures d == Describe(cfg, Value().rollout, kind, reason, at, s, k)
    {
      var w := CanaryWeight();
      d := Decision(kind, reason, at, state, w, stepIndex, version, s, k);
      history := history + [d];
    }

    method Begin(v: string, at: real) returns (res: Result<Decision, CanaryError>)
      requires Valid()
      modifies this, stable, canary
      ensures Valid()
      ensures var s := Start(cfg, old(Value().rollout), v, at);
              match s
              case Err(e) => res == Err(e) && Value() == old(Value())
              case Ok(r) => Value() == Controller(r, EMPTY, EMPTY) && res == Ok(history[0])
    {
      if state.Running? {
        return Err(AlreadyRunning);
      }
      if v == "" {
        return Err(EmptyVersion);
      }
      version, stepIndex, stepStartedAt, state, history := Some(v), 0, at, Running, [];
      stable.Clear();
      canary.Clear();
      var d := RecordDecision(Advance, Started, at, None, None);
      return Ok(d);
    }

    method Cancel(text: string, at: real) returns (res: Result<Decision, CanaryError>)
      requires Valid()
      modifies this
      ensures Valid() && stable.Value() == old(stable.Value()) && canary.Value() == old(canary.Value())
      ensures var s := Abort(cfg, old(Value().rollout), text, at);
              match s
              case Err(e) => res == Err(e) && Value().rollout == old(Value().rollout)
              case Ok(r) => Value().rollout == r && res == Ok(r.history[|r.history| - 1])
    {
      if !state.Running? {
        return Err(NothingToAbort);
      }
      state := RolledBack;
      var d := RecordDecision(Rollback, Aborted(text), at, None, None);
      return Ok(d);
    }

    method Reset()
      requires Valid()
      modifies this, stable, canary
      ensures Valid() && Value() == FRESH
    {
      state, version, stepIndex, stepStartedAt, history := Idle, None, 0, 0.0, [];
      stable.Clear();
      canary.Clear();
    }

    method ObserveRequest(lane: Lane, s: Sample)
      requires Valid()
      modifies stable, canary
      ensures Valid() && Value() == ObserveController(cfg, old(Value()), lane, s)
    {
      match lane {
        case Stable => stable.Record(s);
        case Canary => canary.Record(s);
      }
    }

    /** Apply the gates of a running rollout to one pair of summaries. */
    method Judge(at: real, s: LaneSummary, k: LaneSummary) returns (d: Decision)
      requires Valid() && state.Running?
      modifies this
      ensures Valid() && stable.Value() == old(stable.Value()) && canary.Value() == old(canary.Value())
      ensures Value().rollout == Tick(cfg, old(Value().rollout), at, s, k)
      ensures history == old(history) + [d]
    {
      hide Breach;
      var elapsed := at - stepStartedAt;
      if k.requests < cfg.minRequests {
        if cfg.stallS.Some? && elapsed >= cfg.stallS.value {
          state := RolledBack;
          d := RecordDecision(Rollback, Stalled, at, Some(s), Some(k));
        } else {
          d := RecordDecision(Hold, WaitingForTraffic, at, Some(s), Some(k));
        }
        return;
      }
      var breach := Breach(cfg, s, k);
      if breach.Some? {
        state := RolledBack;
        d := RecordDecision(Rollback, breach.value, at, Some(s), Some(k));
        return;
      }
      if elapsed < cfg.holdS {
        d := RecordDecision(Hold, HealthyNotHeldYet, at, Some(s), Some(k));
        return;
      }
      if stepIndex >= |cfg.steps| - 1 {
        state := Promoted;
        d := RecordDecision(Promote, PromotedAfterHold, at, Some(s), Some(k));
        return;
      }
      stepIndex := stepIndex + 1;
      stepStartedAt := at;
      d := RecordDecision(Advance, AdvancedAfterHold, at, Some(s), Some(k));
    }

    /** Evaluate the gates once. Outside a rollout the call is a HOLD that leaves no trace. */
    method Evaluate(at: real, stableOverride: Option<LaneSummary>, canaryOverride: Option<LaneSummary>)
      returns (d: Decision)
      requires Valid()
      modifies this, stable, canary
      ensures Valid()
      ensures Value() == TickController(cfg, old(Value()), at, stableOverride, canaryOverride)
      ensures old(state).Running? ==> history == old(history) + [d]
      ensures !old(state).Running? ==> d.kind.Hold? && d.state == state && history == old(history)
    {
      hide Tick, Summarize;
      if !state.Running? {
        var w := CanaryWeight();
        return Decision(Hold, NoRollout, at, state, w, stepIndex, version, None, None);
      }
      var s: LaneSummary;
      if stableOverride.Some? { s := stableOverride.value; } else { s := stable.Report(at); }
      var k: LaneSummary;
      if canaryOverride.Some? { k := canaryOverride.value; } else { k := canary.Report(at); }
      d := Judge(at, s, k);
    }
  }
}
