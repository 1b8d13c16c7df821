/** Concurrency slots under interleaving (src/turboserve/gateway/limits.py `slot`, and the gate
    around src/turboserve/gateway/router.py `generate`): any number of requests of any number of
    tenants enter and leave in any order. */
module Admission {
  import opened Prelude
  import Limits

  /** Where a request is; `gate` indexes the limiter whose slot it holds. */
  datatype Phase = Arrived | Inside(gate: nat) | Ungated | TurnedAway | Gone

  datatype Request = Request(tenant: string, phase: Phase)

  /** One tenant's live slot count; limiters appear on a tenant's first request. */
  datatype Gate = Gate(tenant: string, limit: Option<nat>, inFlight: nat)

  datatype System = System(gates: seq<Gate>, requests: seq<Request>)

  /** The tenant directory: configured tenants and their limits. */
  type Directory = map<string, Option<nat>>

  /** `Leave` stands for every way out of the gate. */
  datatype Action = Arrive(tenant: string) | Enter(r: nat) | Leave(r: nat)

  const QUIET := System([], [])

  /** Position of a tenant's gate, or the number of gates if it has none yet. */
  function Find(gates: seq<Gate>, tenant: string): (k: nat)
    ensures k <= |gates|
    ensures k < |gates| ==> gates[k].tenant == tenant
  {
    if gates == [] then 0
    else if gates[0].tenant == tenant then 0
    else 1 + Find(gates[1..], tenant)
  }

  /** The registry once `tenant` has a gate. */
  function WithGate(gates: seq<Gate>, tenant: string, limit: Option<nat>): seq<Gate> {
    if Find(gates, tenant) < |gates| then gates else gates + [Gate(tenant, limit, 0)]
  }

  function Acquire(g: Gate): Option<Gate> {
    var taken := Limits.TakeSlot(g.limit, g.inFlight);
    if taken.None? then None else Some(g.(inFlight := taken.value))
  }

  function Release(g: Gate): Gate { g.(inFlight := Limits.GiveSlot(g.inFlight)) }

  function EnterGate(dir: Directory, s: System, r: nat): System
    requires r < |s.requests|
  {
    var req := s.requests[r];
    if req.tenant !in dir then s.(requests := s.requests[r := req.(phase := Ungated)])
    else
      var gates := WithGate(s.gates, req.tenant, dir[req.tenant]);
      var k := Find(s.gates, req.tenant);
      var taken := Acquire(gates[k]);
      if taken.None? then System(gates, s.requests[r := req.(phase := TurnedAway)])
      else System(gates[k := taken.value], s.requests[r := req.(phase := Inside(k))])
  }

  /** One step of any request; steps that make no sense for its phase do nothing. */
  function Step(dir: Directory, s: System, a: Action): System {
    match a
    case Arrive(tenant) => s.(requests := s.requests + [Request(tenant, Arrived)])
    case Enter(r) => if r < |s.requests| && s.requests[r].phase.Arrived? then EnterGate(dir, s, r) else s
    case Leave(r) =>
      if r >= |s.requests| then s
      else
        var req := s.requests[r];
        match req.phase
        case Inside(k) =>
          System(if k < |s.gates| then s.gates[k := Release(s.gates[k])] else s.gates,
                 s.requests[r := req.(phase := Gone)])
        case Ungated => s.(requests := s.requests[r := req.(phase := Gone)])
        case _ => s
  }

  function Run(dir: Directory, actions: seq<Action>): System {
    if actions == [] then QUIET
    else Step(dir, Run(dir, actions[..|actions| - 1]), actions[|actions| - 1])
  }

  // ---- counting ---------------------------------------------------------------------------------

  /** Requests holding a slot of gate `k`. */
  function Holding(requests: seq<Request>, k: nat): nat {
    if requests == [] then 0
    else Holding(requests[..|requests| - 1], k) + (if requests[|requests| - 1].phase == Inside(k) then 1 else 0)
  }

  /** Requests holding any slot. */
  function HoldingAny(requests: seq<Request>): nat {
    if requests == [] then 0
    else HoldingAny(requests[..|requests| - 1]) + (if requests[|requests| - 1].phase.Inside? then 1 else 0)
  }

  /** `queue_depth`: slots held, summed over tenants. */
  function QueueDepth(gates: seq<Gate>): nat {
    if gates == [] then 0 else QueueDepth(gates[..|gates| - 1]) + gates[|gates| - 1].inFlight
  }

  function One(b: bool): int { if b then 1 else 0 }

  lemma {:induction false} HoldingUpdate(requests: seq<Request>, r: nat, q: Request, k: nat)
    requires r < |requests|
    ensures Holding(requests[r := q], k)
         == Holding(requests, k) - One(requests[r].phase == Inside(k)) + One(q.phase == Inside(k))
  {
    var before := requests[..|requests| - 1];
    if r == |requests| - 1 {
      assert requests[r := q][..|requests| - 1] == before;
    } else {
      assert requests[r := q][..|requests| - 1] == before[r := q];
      HoldingUpdate(before, r, q, k);
    }
  }

  lemma {:induction false} HoldingAnyUpdate(requests: seq<Request>, r: nat, q: Request)
    requires r < |requests|
    ensures HoldingAny(requests[r := q])
         == HoldingAny(requests) - One(requests[r].phase.Inside?) + One(q.phase.Inside?)
  {
    var before := requests[..|requests| - 1];
    if r == |requests| - 1 {
      assert requests[r := q][..|requests| - 1] == before;
    } else {
      assert requests[r := q][..|requests| - 1] == before[r := q];
      HoldingAnyUpdate(before, r, q);
    }
  }

  lemma {:induction false} DepthUpdate(gates: seq<Gate>, k: nat, g: Gate)
    requires k < |gates|
    ensures QueueDepth(gates[k := g]) == QueueDepth(gates) - gates[k].inFlight + g.inFlight
  {
    var before := gates[..|gates| - 1];
    if k == |gates| - 1 {
      assert gates[k := g][..|gates| - 1] == before;
    } else {
      assert gates[k := g][..|gates| - 1] == before[k := g];
      DepthUpdate(before, k, g);
    }
  }

  lemma DepthAppend(gates: seq<Gate>, g: Gate)
    ensures QueueDepth(gates + [g]) == QueueDepth(gates) + g.inFlight
  {
    assert (gates + [g])[..|gates|] == gates;
  }

  // ---- conservation -----------------------------------------------------------------------------------

  ghost predicate GateSound(s: System, k: nat)
    requires k < |s.gates|
  {
    && s.gates[k].inFlight == Holding(s.requests, k)
    && (s.gates[k].limit.Some? ==> s.gates[k].inFlight <= s.gates[k].limit.value)
  }

  /** Every gate counts exactly the requests inside it, within its limit; each request is inside
      its own tenant's gate; the queue depth counts all of them. */
  ghost predicate Conserved(s: System) {
    && (forall k :: 0 <= k < |s.gates| ==> GateSound(s, k))
    && (forall r :: 0 <= r < |s.requests| ==> s.requests[r].phase.Inside? ==>
          s.requests[r].phase.gate < |s.gates| && s.gates[s.requests[r].phase.gate].tenant == s.requests[r].tenant)
    && QueueDepth(s.gates) == HoldingAny(s.requests)
  }

  lemma {:induction false} HoldsNone(requests: seq<Request>, n: nat)
    requires forall r :: 0 <= r < |requests| ==> requests[r].phase.Inside? ==> requests[r].phase.gate < n
    ensures Holding(requests, n) == 0
  {
    if requests != [] { HoldsNone(requests[..|requests| - 1], n); }
  }

  lemma ArriveConserved(s: System, tenant: string)
    requires Conserved(s)
    ensures Conserved(s.(requests := s.requests + [Request(tenant, Arrived)]))
  {
    var s' := s.(requests := s.requests + [Request(tenant, Arrived)]);
    assert s'.requests[..|s.requests|] == s.requests;
    forall k | 0 <= k < |s.gates| ensures GateSound(s', k) {
      assert GateSound(s, k);
    }
  }

  lemma NewGateConserved(s: System, tenant: string, limit: Option<nat>)
    requires Conserved(s)
    ensures Conserved(s.(gates := WithGate(s.gates, tenant, limit)))
  {
    if Find(s.gates, tenant) == |s.gates| {
      var s' := s.(gates := s.gates + [Gate(tenant, limit, 0)]);
      HoldsNone(s.requests, |s.gates|);
      DepthAppend(s.gates, Gate(tenant, limit, 0));
      forall k | 0 <= k < |s'.gates| ensures GateSound(s', k) {
        if k < |s.gates| { assert GateSound(s, k); }
      }
    }
  }

  /** Moving request `r` to a phase that holds no slot it did not hold keeps all counts. */
  lemma IdleMoveConserved(s: System, r: nat, phase: Phase)
    requires Conserved(s) && r < |s.requests| && !s.requests[r].phase.Inside? && !phase.Inside?
    ensures Conserved(s.(requests := s.requests[r := s.requests[r].(phase := phase)]))
  {
    var q := s.requests[r].(phase := phase);
    var s' := s.(requests := s.requests[r := q]);
    HoldingAnyUpdate(s.requests, r, q);
    forall k | 0 <= k < |s.gates| ensures GateSound(s', k) {
      assert GateSound(s, k);
      HoldingUpdate(s.requests, r, q, k);
    }
  }

  lemma TakeSlotConserved(s: System, r: nat, k: nat)
    requires Conserved(s) && r < |s.requests| && !s.requests[r].phase.Inside?
    requires k < |s.gates| && s.gates[k].tenant == s.requests[r].tenant && Acquire(s.gates[k]).Some?
    ensures Conserved(System(s.gates[k := Acquire(s.gates[k]).value],
                             s.requests[r := s.requests[r].(phase := Inside(k))]))
  {
    var q := s.requests[r].(phase := Inside(k));
    var g := Acquire(s.gates[k]).value;
    var s' := System(s.gates[k := g], s.requests[r := q]);
    HoldingAnyUpdate(s.requests, r, q);
    DepthUpdate(s.gates, k, g);
    forall j | 0 <= j < |s'.gates| ensures GateSound(s', j) {
      assert GateSound(s, j);
      HoldingUpdate(s.requests, r, q, j);
    }
  }

  lemma {:induction false} SomeoneHolds(requests: seq<Request>, r: nat, k: nat)
    requires r < |requests| && requests[r].phase == Inside(k)
    ensures Holding(requests, k) > 0
  {
    if r < |requests| - 1 { SomeoneHolds(requests[..|requests| - 1], r, k); }
  }

  lemma GiveBackConserved(s: System, r: nat)
    requires Conserved(s) && r < |s.requests| && s.requests[r].phase.Inside?
    ensures var k := s.requests[r].phase.gate;
            && k < |s.gates| && s.gates[k].inFlight > 0
            && Conserved(System(s.gates[k := Release(s.gates[k])], s.requests[r := s.requests[r].(phase := Gone)]))
  {
    var k := s.requests[r].phase.gate;
    assert GateSound(s, k);
    SomeoneHolds(s.requests, r, k);
    var q := s.requests[r].(phase := Gone);
    var g := Release(s.gates[k]);
    var s' := System(s.gates[k := g], s.requests[r := q]);
    HoldingAnyUpdate(s.requests, r, q);
    DepthUpdate(s.gates, k, g);
    forall j | 0 <= j < |s'.gates| ensures GateSound(s', j) {
      assert GateSound(s, j);
      HoldingUpdate(s.requests, r, q, j);
    }
  }

  lemma StepConserved(dir: Directory, s: System, a: Action)
    requires Conserved(s)
    ensures Conserved(Step(dir, s, a))
  {
    hide Conserved;
    match a {
      case Arrive(tenant) => ArriveConserved(s, tenant);
      case Enter(r) =>
        if r < |s.requests| && s.requests[r].phase.Arrived? {
          var req := s.requests[r];
          if req.tenant !in dir {
            IdleMoveConserved(s, r, Ungated);
          } else {
            NewGateConserved(s, req.tenant, dir[req.tenant]);
            var s1 := s.(gates := WithGate(s.gates, req.tenant, dir[req.tenant]));
            var k := Find(s.gates, req.tenant);
            if Acquire(s1.gates[k]).None? {
              IdleMoveConserved(s1, r, TurnedAway);
            } else {
              TakeSlotConserved(s1, r, k);
            }
          }
        }
      case Leave(r) =>
        if r < |s.requests| {
          if s.requests[r].phase.Inside? {
            GiveBackConserved(s, r);
          } else if s.requests[r].phase.Ungated? {
            IdleMoveConserved(s, r, Gone);
          }
        }
    }
  }

  /** In every interleaving, every tenant's `in_flight` is exactly the number of its requests
      inside the gate, never above its limit, and the queue depth is their sum. */
  lemma {:induction false} SlotsConserved(dir: Directory, actions: seq<Action>)
    ensures Conserved(Run(dir, actions))
  {
    hide Conserved;
    if actions == [] {
      QuietConserved();
    } else {
      SlotsConserved(dir, actions[..|actions| - 1]);
      StepConserved(dir, Run(dir, actions[..|actions| - 1]), actions[|actions| - 1]);
    }
  }

  lemma QuietConserved()
    ensures Conserved(QUIET)
  {
  }

  /** Once every request has left, however each of them left, every slot is free again. */
  lemma AllGoneAllFree(dir: Directory, actions: seq<Action>)
    requires forall r :: 0 <= r < |Run(dir, actions).requests| ==> !Run(dir, actions).requests[r].phase.Inside?
    ensures QueueDepth(Run(dir, actions).gates) == 0
    ensures forall k :: 0 <= k < |Run(dir, actions).gates| ==> Run(dir, actions).gates[k].inFlight == 0
  {
    SlotsConserved(dir, actions);
    var s := Run(dir, actions);
    NobodyHolds(s.requests);
    forall k | 0 <= k < |s.gates| ensures s.gates[k].inFlight == 0 {
      assert GateSound(s, k);
      NobodyHoldsThis(s.requests, k);
    }
  }

  lemma {:induction false} NobodyHolds(requests: seq<Request>)
    requires forall r :: 0 <= r < |requests| ==> !requests[r].phase.Inside?
    ensures HoldingAny(requests) == 0
  {
    if requests != [] { NobodyHolds(requests[..|requests| - 1]); }
  }

  lemma {:induction false} NobodyHoldsThis(requests: seq<Request>, k: nat)
    requires forall r :: 0 <= r < |requests| ==> !requests[r].phase.Inside?
    ensures Holding(requests, k) == 0
  {
    if requests != [] { NobodyHoldsThis(requests[..|requests| - 1], k); }
  }

  // ---- who is turned away ---------------------------------------------------------------------------

  /** Requests of one tenant inside its gate. */
  function InsideOf(requests: seq<Request>, tenant: string): nat {
    if requests == [] then 0
    else
      var last := requests[|requests| - 1];
      InsideOf(requests[..|requests| - 1], tenant) + if last.tenant == tenant && last.phase.Inside? then 1 else 0
  }

  /** Every gate has its own tenant, who is in the directory, and the limit the directory gives it. */
  ghost predicate AsConfigured(dir: Directory, gates: seq<Gate>) {
    && (forall k :: 0 <= k < |gates| ==> gates[k].tenant in dir && gates[k].limit == dir[gates[k].tenant])
    && forall j, k :: 0 <= j < k < |gates| ==> gates[j].tenant != gates[k].tenant
  }

  lemma {:induction false} FindFirst(gates: seq<Gate>, tenant: string)
    ensures Find(gates, tenant) == |gates| <==> forall k :: 0 <= k < |gates| ==> gates[k].tenant != tenant
  {
    if gates != [] {
      FindFirst(gates[1..], tenant);
      assert forall k :: 1 <= k < |gates| ==> gates[k] == gates[1..][k - 1];
      assert forall k :: 0 <= k < |gates| - 1 ==> gates[1..][k] == gates[k + 1];
    }
  }

  lemma {:induction false} StepConfigured(dir: Directory, s: System, a: Action)
    requires AsConfigured(dir, s.gates)
    ensures AsConfigured(dir, Step(dir, s, a).gates)
  {
    if a.Enter? && a.r < |s.requests| { FindFirst(s.gates, s.requests[a.r].tenant); }
  }

  lemma {:induction false} RunConfigured(dir: Directory, actions: seq<Action>)
    ensures AsConfigured(dir, Run(dir, actions).gates)
  {
    hide Step, AsConfigured;
    if actions == [] {
      NoGates(dir);
    } else {
      RunConfigured(dir, actions[..|actions| - 1]);
      StepConfigured(dir, Run(dir, actions[..|actions| - 1]), actions[|actions| - 1]);
    }
  }

  lemma NoGates(dir: Directory)
    ensures AsConfigured(dir, [])
  {}

  /** A tenant's own requests are those that hold its gate. */
  lemma {:induction false} InsideOwnGate(requests: seq<Request>, gates: seq<Gate>, k: nat)
    requires k < |gates| && forall i, j :: 0 <= i < j < |gates| ==> gates[i].tenant != gates[j].tenant
    requires forall r :: 0 <= r < |requests| ==> requests[r].phase.Inside? ==>
               requests[r].phase.gate < |gates| && gates[requests[r].phase.gate].tenant == requests[r].tenant
    ensures InsideOf(requests, gates[k].tenant) == Holding(requests, k)
  {
    if requests != [] { InsideOwnGate(requests[..|requests| - 1], gates, k); }
  }

  lemma {:induction false} NobodyInside(requests: seq<Request>, gates: seq<Gate>, tenant: string)
    requires forall k :: 0 <= k < |gates| ==> gates[k].tenant != tenant
    requires forall r :: 0 <= r < |requests| ==> requests[r].phase.Inside? ==>
               requests[r].phase.gate < |gates| && gates[requests[r].phase.gate].tenant == requests[r].tenant
    ensures InsideOf(requests, tenant) == 0
  {
    if requests != [] { NobodyInside(requests[..|requests| - 1], gates, tenant); }
  }

  /** What entering makes of a request, told by the directory and the requests alone. */
  ghost predicate EntersAs(dir: Directory, requests: seq<Request>, tenant: string, phase: Phase) {
    if tenant !in dir then phase == Ungated
    else if dir[tenant].Some? && InsideOf(requests, tenant) >= dir[tenant].value then phase == TurnedAway
    else phase.Inside?
  }

  lemma EnteredRightly(dir: Directory, s: System, r: nat)
    requires Conserved(s) && AsConfigured(dir, s.gates) && r < |s.requests|
    ensures var t := EnterGate(dir, s, r);
            && |t.requests| == |s.requests|
            && t.requests == s.requests[r := s.requests[r].(phase := t.requests[r].phase)]
            && EntersAs(dir, s.requests, s.requests[r].tenant, t.requests[r].phase)
  {
    var tenant := s.requests[r].tenant;
    FindFirst(s.gates, tenant);
    var k := Find(s.gates, tenant);
    if tenant in dir {
      if k < |s.gates| {
        assert GateSound(s, k);
        InsideOwnGate(s.requests, s.gates, k);
      } else {
        NobodyInside(s.requests, s.gates, tenant);
      }
    }
  }

  /** What one action makes of the requests. */
  ghost predicate Acts(dir: Directory, before: seq<Request>, after: seq<Request>, a: Action) {
    match a
    case Arrive(tenant) => after == before + [Request(tenant, Arrived)]
    case Enter(r) =>
      if r < |before| && before[r].phase.Arrived? then
        && |after| == |before| && after == before[r := before[r].(phase := after[r].phase)]
        && EntersAs(dir, before, before[r].tenant, after[r].phase)
      else after == before
    case Leave(r) =>
      if r < |before| && (before[r].phase.Inside? || before[r].phase.Ungated?)
      then after == before[r := before[r].(phase := Gone)]
      else after == before
  }

  /** One more step of any interleaving changes at most one request: a known tenant's is turned away if and
      only if as many of its requests are inside as the directory allows, a stranger's is not gated, and
      whoever leaves is gone. */
  lemma AdmissionExactly(dir: Directory, actions: seq<Action>, a: Action)
    ensures Acts(dir, Run(dir, actions).requests, Run(dir, actions + [a]).requests, a)
  {
    hide EnterGate, Conserved, AsConfigured, EntersAs;
    assert (actions + [a])[..|actions|] == actions;
    SlotsConserved(dir, actions);
    RunConfigured(dir, actions);
    if a.Enter? && a.r < |Run(dir, actions).requests| { EnteredRightly(dir, Run(dir, actions), a.r); }
  }
}
