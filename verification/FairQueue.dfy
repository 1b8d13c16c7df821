/** The `tenant_fair` admission queue: one queue and one virtual time per tenant, the furthest
    behind next (src/turboserve/engine/core/scheduler.py:304-413). */
module FairQueue {
  import opened Prelude
  import opened Sorting

  type Tenant = string

  /** A positive service weight. */
  type Share = x: real | x > 0.0 witness 1.0

  type Shares = map<Tenant, Share>

  /** `queues` holds the backlogged tenants only; `vtime` outlives a tenant's backlog. */
  datatype Fair = Fair(queues: map<Tenant, seq<nat>>, vtime: map<Tenant, real>, now: real)

  const NOBODY := Fair(map[], map[], 0.0)

  /** What one admission adds to a tenant's virtual time; unconfigured tenants have weight 1. */
  function Cost(shares: Shares, t: Tenant): (c: real)
    ensures c > 0.0 && (if t in shares then c * shares[t] == 1.0 else c == 1.0)
  {
    if t in shares then 1.0 / shares[t] else 1.0
  }

  function TimeOf(q: Fair, t: Tenant): real { if t in q.vtime then q.vtime[t] else 0.0 }

  predicate Before(q: Fair, t: Tenant, u: Tenant) {
    TimeOf(q, t) < TimeOf(q, u) || (TimeOf(q, t) == TimeOf(q, u) && StringLeq(t, u))
  }

  /** The tenant admitted next: smallest virtual time, then name. */
  ghost predicate IsNext(q: Fair, t: Tenant) {
    t in q.queues && forall u :: u in q.queues ==> Before(q, t, u)
  }

  function Queued(q: Fair, t: Tenant): seq<nat> { if t in q.queues then q.queues[t] else [] }

  /** The queue of `t` replaced; an empty one disappears. */
  function WithQueue(q: Fair, t: Tenant, s: seq<nat>): Fair {
    q.(queues := if s == [] then q.queues - {t} else q.queues[t := s])
  }

  function Push(q: Fair, t: Tenant, x: nat): Fair {
    if t in q.queues then WithQueue(q, t, q.queues[t] + [x])
    else WithQueue(q, t, [x]).(vtime := q.vtime[t := Max(TimeOf(q, t), q.now)])
  }

  function Pop(q: Fair, shares: Shares, t: Tenant): Fair {
    var finish := TimeOf(q, t) + Cost(shares, t);
    WithQueue(q, t, if Queued(q, t) == [] then [] else Queued(q, t)[1..])
      .(vtime := q.vtime[t := finish], now := finish)
  }

  /** `s` without its first `x`. */
  function RemoveFirst(s: seq<nat>, x: nat): seq<nat> {
    if s == [] then [] else if s[0] == x then s[1..] else [s[0]] + RemoveFirst(s[1..], x)
  }

  function Remove(q: Fair, t: Tenant, x: nat): Fair {
    if t in q.queues then WithQueue(q, t, RemoveFirst(q.queues[t], x)) else q
  }

  datatype Op = Pushed(tenant: Tenant, id: nat) | Popped(tenant: Tenant) | Removed(tenant: Tenant, id: nat)

  function Apply(q: Fair, shares: Shares, op: Op): Fair {
    match op
    case Pushed(t, x) => Push(q, t, x)
    case Popped(t) => Pop(q, shares, t)
    case Removed(t, x) => Remove(q, t, x)
  }

  function After(q: Fair, shares: Shares, ops: seq<Op>): Fair {
    if ops == [] then q else Apply(After(q, shares, ops[..|ops| - 1]), shares, ops[|ops| - 1])
  }

  /** Every admission of the run took the tenant that was next. */
  ghost predicate Legal(q: Fair, shares: Shares, ops: seq<Op>) {
    ops == [] ||
    (var before, op := ops[..|ops| - 1], ops[|ops| - 1];
     Legal(q, shares, before) && (op.Popped? ==> IsNext(After(q, shares, before), op.tenant)))
  }

  /** Tenant `t` is backlogged throughout the run. */
  ghost predicate Stays(q: Fair, shares: Shares, ops: seq<Op>, t: Tenant) {
    && t in After(q, shares, ops).queues
    && (ops == [] || Stays(q, shares, ops[..|ops| - 1], t))
  }

  /** Admissions of tenant `t`. */
  function Served(ops: seq<Op>, t: Tenant): nat {
    if ops == [] then 0
    else Served(ops[..|ops| - 1], t) + (if ops[|ops| - 1] == Popped(t) then 1 else 0)
  }

  /** `r` is `q` after `n` admissions, each of whoever is next. */
  ghost predicate Admits(q: Fair, shares: Shares, n: int, r: Fair)
    decreases n
  {
    if n <= 0 then n == 0 && r == q else exists t :: IsNext(q, t) && Admits(Pop(q, shares, t), shares, n - 1, r)
  }

  lemma {:induction false} AdmitsMore(q: Fair, shares: Shares, m: int, r: Fair, n: int, s: Fair)
    requires Admits(q, shares, m, r) && Admits(r, shares, n, s)
    ensures Admits(q, shares, m + n, s)
    decreases m
  {
    hide IsNext, Pop;
    if m > 0 {
      var t :| IsNext(q, t) && Admits(Pop(q, shares, t), shares, m - 1, r);
      AdmitsMore(Pop(q, shares, t), shares, m - 1, r, n, s);
    }
  }

  lemma {:induction false} AdmitsOne(q: Fair, shares: Shares, t: Tenant)
    requires IsNext(q, t)
    ensures Admits(q, shares, 1, Pop(q, shares, t))
  {
    AdmitsNobody(Pop(q, shares, t), shares);
  }

  lemma AdmitsNobody(q: Fair, shares: Shares)
    ensures Admits(q, shares, 0, q)
  {}

  // ---- the queue as an object ---------------------------------------------------------------

  class WaitQueue {
    const shares: Shares
    var queues: map<Tenant, seq<nat>>
    var vtime: map<Tenant, real>
    var now: real

    function Value(): Fair reads this { Fair(queues, vtime, now) }

    /** No tenant is listed with nothing queued. */
    ghost predicate Valid() reads this { forall t :: t in queues ==> queues[t] != [] }

    constructor (shares: Shares)
      ensures this.shares == shares && Valid() && Value() == NOBODY
    {
      this.shares := shares;
      queues, vtime, now := map[], map[], 0.0;
    }

    method Add(t: Tenant, x: nat)
      requires Valid()
      modifies this
      ensures Valid() && Value() == Push(old(Value()), t, x)
    {
      if t !in queues {
        queues := queues[t := []];
        vtime := vtime[t := Max(if t in vtime then vtime[t] else 0.0, now)];
      }
      assert [] + [x] == [x];
      queues := queues[t := queues[t] + [x]];
    }

    method NextTenant() returns (r: Option<Tenant>)
      ensures r.None? <==> queues == map[]
      ensures r.Some? ==> IsNext(Value(), r.value)
    {
      r := None;
      var rest := queues.Keys;
      while rest != {}
        invariant rest <= queues.Keys
        invariant r.None? ==> rest == queues.Keys
        invariant r.Some? ==> r.value in queues && forall u :: u in queues && u !in rest ==> Before(Value(), r.value, u)
        decreases |rest|
      {
        var t :| t in rest;
        rest := rest - {t};
        if r.None? || !Before(Value(), r.value, t) {
          BeforeAll(Value(), r, t, queues.Keys - rest);
          r := Some(t);
        }
      }
    }

    /** Whom `Take` would admit. */
    method Peek() returns (r: Option<nat>)
      requires Valid()
      ensures r.None? <==> queues == map[]
      ensures r.Some? ==> exists t :: IsNext(Value(), t) && r.value == queues[t][0]
    {
      var t := NextTenant();
      if t.None? { return None; }
      r := Some(queues[t.value][0]);
    }

    /** Admits the head of the next tenant's queue; `None` is the empty-queue error. */
    method Take() returns (r: Option<(Tenant, nat)>)
      requires Valid()
      modifies this
      ensures Valid()
      ensures r.None? <==> old(queues) == map[]
      ensures r.None? ==> Value() == old(Value())
      ensures r.Some? ==> IsNext(old(Value()), r.value.0) && r.value.1 == old(queues)[r.value.0][0]
      ensures r.Some? ==> Value() == Pop(old(Value()), shares, r.value.0)
    {
      var next := NextTenant();
      if next.None? { return None; }
      var t := next.value;
      var x, rest := queues[t][0], queues[t][1..];
      vtime := vtime[t := (if t in vtime then vtime[t] else 0.0) + Cost(shares, t)];
      now := vtime[t];
      queues := if rest == [] then queues - {t} else queues[t := rest];
      r := Some((t, x));
    }

    /** Takes a queued sequence out and reports whether it was queued. */
    method Drop(t: Tenant, x: nat) returns (found: bool)
      requires Valid()
      modifies this`queues
      ensures Valid() && found == (x in Queued(old(Value()), t))
      ensures Value() == if found then Remove(old(Value()), t, x) else old(Value())
    {
      if t !in queues || x !in queues[t] { return false; }
      var rest := RemoveFirst(queues[t], x);
      queues := if rest == [] then queues - {t} else queues[t := rest];
      found := true;
    }
  }

  lemma {:induction false} BeforeAll(q: Fair, r: Option<Tenant>, t: Tenant, seen: set<Tenant>)
    requires r.Some? ==> !Before(q, r.value, t) && forall u :: u in seen && u != t ==> Before(q, r.value, u)
    requires r.None? ==> seen <= {t}
    ensures forall u :: u in seen ==> Before(q, t, u)
  {
    forall u | u in seen ensures Before(q, t, u) {
      StringLeqTotal(t, t);
      if u != t && r.Some? {
        StringLeqTotal(r.value, t);
        if StringLeq(t, r.value) && StringLeq(r.value, u) { StringLeqTransitive(t, r.value, u); }
      }
    }
  }

  lemma {:induction false} NextIsUnique(q: Fair, t: Tenant, u: Tenant)
    requires IsNext(q, t) && IsNext(q, u)
    ensures t == u
  {
    assert Before(q, t, u) && Before(q, u, t);
    StringLeqAntisymmetric(t, u);
  }

  // ---- fairness -----------------------------------------------------------------------------

  /** The virtual time of a tenant never goes back, and each admission adds its cost. */
  lemma {:induction false} TimeAdvances(q: Fair, shares: Shares, ops: seq<Op>, t: Tenant)
    ensures TimeOf(After(q, shares, ops), t) >= TimeOf(q, t) + Steps(Cost(shares, t), Served(ops, t))
  {
    if ops != [] { TimeAdvances(q, shares, ops[..|ops| - 1], t); }
  }

  /** While a tenant stays backlogged, admissions are all that moves its virtual time. */
  lemma {:induction false} BackloggedTime(q: Fair, shares: Shares, ops: seq<Op>, t: Tenant)
    requires Stays(q, shares, ops, t)
    ensures TimeOf(After(q, shares, ops), t) == TimeOf(q, t) + Steps(Cost(shares, t), Served(ops, t))
  {
    if ops != [] { BackloggedTime(q, shares, ops[..|ops| - 1], t); }
  }

  lemma {:induction false} NeverFarAhead(q: Fair, shares: Shares, ops: seq<Op>, i: Tenant, j: Tenant)
    requires Legal(q, shares, ops) && Stays(q, shares, ops, i) && Stays(q, shares, ops, j) && i != j
    requires Served(ops, i) > 0
    ensures TimeOf(After(q, shares, ops), i) <= TimeOf(After(q, shares, ops), j) + Cost(shares, i)
  {
    var before, op := ops[..|ops| - 1], ops[|ops| - 1];
    var mid := After(q, shares, before);
    if op == Popped(i) {
      assert Before(mid, i, j);
    } else {
      NeverFarAhead(q, shares, before, i, j);
    }
  }

  /** Proportional shares: over any stretch in which two tenants stay backlogged, the weighted
      service of one exceeds the other's by at most one request of its own, after allowing for
      where their virtual times started. */
  lemma {:induction false} ProportionalShare(q: Fair, shares: Shares, ops: seq<Op>, i: Tenant, j: Tenant)
    requires Legal(q, shares, ops) && Stays(q, shares, ops, i) && Stays(q, shares, ops, j) && i != j
    requires Served(ops, i) > 0
    ensures Steps(Cost(shares, i), Served(ops, i))
         <= Steps(Cost(shares, j), Served(ops, j)) + (TimeOf(q, j) - TimeOf(q, i)) + Cost(shares, i)
  {
    NeverFarAhead(q, shares, ops, i, j);
    BackloggedTime(q, shares, ops, i);
    BackloggedTime(q, shares, ops, j);
  }

  /** No credit for idling: a tenant that becomes backlogged starts no earlier than the tenant
      admitted last, so while both stay backlogged it gets at most one request more than its
      share against that one. */
  lemma {:induction false} NoBankedCredit(q: Fair, shares: Shares, last: Tenant, i: Tenant, x: nat, ops: seq<Op>)
    requires i !in Pop(q, shares, last).queues && i != last
    requires var joined := Push(Pop(q, shares, last), i, x);
             && Legal(joined, shares, ops) && Stays(joined, shares, ops, i) && Stays(joined, shares, ops, last)
             && Served(ops, i) > 0
    ensures Steps(Cost(shares, i), Served(ops, i))
         <= Steps(Cost(shares, last), Served(ops, last)) + Cost(shares, i)
  {
    ProportionalShare(Push(Pop(q, shares, last), i, x), shares, ops, i, last);
  }

  /** While a tenant waits, another one is admitted at most `(v - u) * weight + 1` times, where `v`
      and `u` are their virtual times at the start; arrivals, departures and idle spells of the
      other change nothing about that. */
  lemma {:induction false} WaitBounded(q: Fair, shares: Shares, ops: seq<Op>, t: Tenant, j: Tenant)
    requires Legal(q, shares, ops) && Stays(q, shares, ops, t) && Served(ops, t) == 0 && j != t
    ensures Served(ops, j) > 0 ==>
              Served(ops, j) <= ((TimeOf(q, t) - TimeOf(q, j)) / Cost(shares, j)).Floor + 1
  {
    if Served(ops, j) > 0 {
      var before, op := ops[..|ops| - 1], ops[|ops| - 1];
      if op == Popped(j) {
        BackloggedTime(q, shares, before, t);
        TimeAdvances(q, shares, before, j);
        assert Before(After(q, shares, before), j, t);
        StepsFit(Cost(shares, j), TimeOf(q, t) - TimeOf(q, j), Served(before, j));
      } else {
        WaitBounded(q, shares, before, t, j);
      }
    }
  }

  // ---- the virtual clock --------------------------------------------------------------------

  /** Arrivals and departures between two admissions. */
  predicate NoAdmission(ops: seq<Op>) { forall k :: 0 <= k < |ops| ==> !ops[k].Popped? }

  lemma {:induction false} ClockStands(q: Fair, shares: Shares, ops: seq<Op>)
    requires NoAdmission(ops)
    ensures After(q, shares, ops).now == q.now
  {
    if ops != [] { ClockStands(q, shares, ops[..|ops| - 1]); }
  }

  /** Between admissions a tenant's virtual time stands still while it stays backlogged; one that
      joins or rejoins does not start before the clock. */
  lemma {:induction false} JoinersCatchUp(q: Fair, shares: Shares, ops: seq<Op>, t: Tenant)
    requires NoAdmission(ops) && t in After(q, shares, ops).queues
    ensures if Stays(q, shares, ops, t) then TimeOf(After(q, shares, ops), t) == TimeOf(q, t)
            else TimeOf(After(q, shares, ops), t) >= q.now
  {
    if ops != [] {
      var before, op := ops[..|ops| - 1], ops[|ops| - 1];
      assert !op.Popped?;
      ClockStands(q, shares, before);
      var mid := After(q, shares, before);
      if t in mid.queues {
        JoinersCatchUp(q, shares, before, t);
        assert TimeOf(Apply(mid, shares, op), t) == TimeOf(mid, t);
        assert Stays(q, shares, ops, t) <==> Stays(q, shares, before, t);
      } else {
        assert !Stays(q, shares, before, t);
      }
    }
  }

  /** Exactly when the clock goes back. It is the finish time of the last admission, while
      admissions go by start time; so after `u`, whatever arrives or leaves meanwhile, admitting `t`
      sets it back if and only if `t` was backlogged all along and started less behind `u` than it
      is cheaper. */
  lemma {:induction false} ClockGoesBackExactly(q: Fair, shares: Shares, u: Tenant, ops: seq<Op>, t: Tenant)
    requires IsNext(q, u) && NoAdmission(ops)
    requires IsNext(After(Pop(q, shares, u), shares, ops), t)
    ensures var first := Pop(q, shares, u);
            Pop(After(first, shares, ops), shares, t).now < first.now
            <==> Stays(first, shares, ops, t) && TimeOf(q, t) - TimeOf(q, u) < Cost(shares, u) - Cost(shares, t)
  {
    var first := Pop(q, shares, u);
    JoinersCatchUp(first, shares, ops, t);
    assert Cost(shares, t) > 0.0;
  }

  /** So it never does unless the tenant admitted is strictly cheaper than the one before. */
  lemma {:induction false} OnlyCheaperSetsBack(q: Fair, shares: Shares, u: Tenant, ops: seq<Op>, t: Tenant)
    requires IsNext(q, u) && NoAdmission(ops)
    requires IsNext(After(Pop(q, shares, u), shares, ops), t)
    requires Cost(shares, t) >= Cost(shares, u)
    ensures Pop(After(Pop(q, shares, u), shares, ops), shares, t).now >= Pop(q, shares, u).now
  {
    ClockGoesBackExactly(q, shares, u, ops, t);
    var first := Pop(q, shares, u);
    if Stays(first, shares, ops, t) {
      BackloggedFromStart(first, shares, ops, t);
      assert t in q.queues;
      assert Before(q, u, t);
    }
  }

  lemma {:induction false} BackloggedFromStart(q: Fair, shares: Shares, ops: seq<Op>, t: Tenant)
    requires Stays(q, shares, ops, t)
    ensures t in q.queues
  {
    if ops != [] { BackloggedFromStart(q, shares, ops[..|ops| - 1], t); }
  }

  /** Two tenants queue up, with nobody served before. */
  lemma {:induction false} BothQueued(shares: Shares, u: Tenant, t: Tenant)
    requires u != t && StringLeq(u, t)
    ensures var ops := [Pushed(u, 1), Pushed(t, 2)];
            && Legal(NOBODY, shares, ops)
            && After(NOBODY, shares, ops) == Fair(map[u := [1], t := [2]], map[u := 0.0, t := 0.0], 0.0)
            && IsNext(After(NOBODY, shares, ops), u)
  {
    var ops := [Pushed(u, 1), Pushed(t, 2)];
    StringLeqTotal(u, u);
    assert ops[..1] == [Pushed(u, 1)] && ops[..1][..0] == [];
    assert After(NOBODY, shares, ops[..1]) == Fair(map[u := [1]], map[u := 0.0], 0.0) by {
      assert After(NOBODY, shares, []) == NOBODY;
    }
    assert Legal(NOBODY, shares, ops[..1]) by { assert Legal(NOBODY, shares, []); }
  }

  /** And whenever an earlier name is the dearer one, some run does set it back. */
  lemma {:induction false} ClockCanGoBack(shares: Shares, u: Tenant, t: Tenant)
    requires u != t && StringLeq(u, t) && Cost(shares, u) > Cost(shares, t)
    ensures var ops := [Pushed(u, 1), Pushed(t, 2), Popped(u), Popped(t)];
            && Legal(NOBODY, shares, ops)
            && After(NOBODY, shares, ops[..3]).queues == map[t := [2]]
            && After(NOBODY, shares, ops[..3]).now == Cost(shares, u)
            && After(NOBODY, shares, ops).now == Cost(shares, t) < Cost(shares, u)
  {
    var ops := [Pushed(u, 1), Pushed(t, 2), Popped(u), Popped(t)];
    BothQueued(shares, u, t);
    assert ops[..3][..2] == [Pushed(u, 1), Pushed(t, 2)];
    var three := FirstOfBothGone(shares, u, t);
    hide Pop, IsNext, StringLeq, Cost;
    assert After(NOBODY, shares, ops[..3]) == three && Legal(NOBODY, shares, ops[..3]);
    SecondGone(three, shares, t);
  }

  lemma {:induction false} FirstOfBothGone(shares: Shares, u: Tenant, t: Tenant) returns (three: Fair)
    requires u != t
    ensures three == Pop(Fair(map[u := [1], t := [2]], map[u := 0.0, t := 0.0], 0.0), shares, u)
    ensures three.queues == map[t := [2]] && three.now == Cost(shares, u) && TimeOf(three, t) == 0.0 && IsNext(three, t)
  {
    three := Pop(Fair(map[u := [1], t := [2]], map[u := 0.0, t := 0.0], 0.0), shares, u);
    assert three.queues == map[t := [2]];
    StringLeqTotal(t, t);
  }

  lemma SecondGone(three: Fair, shares: Shares, t: Tenant)
    requires TimeOf(three, t) == 0.0
    ensures Pop(three, shares, t).now == Cost(shares, t)
  {}

  /** With a tenant of weight 1/10 the clock goes from 10 back to 1, and a newcomer in between
      starts at 10. */
  lemma {:induction false} TenthWeightSetsBack()
    ensures var shares: Shares := map["a" := 0.1];
            var ops := [Pushed("a", 1), Pushed("b", 2), Popped("a"), Popped("b")];
            && Legal(NOBODY, shares, ops)
            && After(NOBODY, shares, ops[..3]).now == 10.0 && After(NOBODY, shares, ops).now == 1.0
            && TimeOf(Push(After(NOBODY, shares, ops[..3]), "c", 3), "c") >= 10.0
  {
    var shares: Shares := map["a" := 0.1];
    assert Cost(shares, "a") == 10.0 && Cost(shares, "b") == 1.0;
    assert StringLeq("a", "b");
    ClockCanGoBack(shares, "a", "b");
  }

  /** Nobody's virtual time is ahead of the clock, and no backlogged tenant's is more than one
      turn behind it. */
  ghost predicate InStep(q: Fair, turn: real) {
    && q.now >= 0.0
    && (forall t :: t in q.vtime ==> q.vtime[t] <= q.now)
    && (forall t :: t in q.queues ==> TimeOf(q, t) + turn >= q.now)
  }

  lemma {:induction false} ApplyInStep(q: Fair, shares: Shares, op: Op, turn: real)
    requires InStep(q, turn) && (forall t :: Cost(shares, t) == turn) && (op.Popped? ==> IsNext(q, op.tenant))
    ensures InStep(Apply(q, shares, op), turn) && Apply(q, shares, op).now >= q.now
  {
    var r := Apply(q, shares, op);
    assert turn > 0.0 by { assert Cost(shares, op.tenant) > 0.0; }
    if op.Popped? {
      forall t | t in r.queues ensures TimeOf(r, t) + turn >= r.now {
        assert t != op.tenant ==> Before(q, op.tenant, t);
      }
    }
  }

  /** With equal weights the clock never goes back over any run. */
  lemma {:induction false} EqualSharesInStep(shares: Shares, ops: seq<Op>, turn: real)
    requires Legal(NOBODY, shares, ops) && forall t :: Cost(shares, t) == turn
    ensures InStep(After(NOBODY, shares, ops), turn)
    ensures ops != [] ==> After(NOBODY, shares, ops).now >= After(NOBODY, shares, ops[..|ops| - 1]).now
  {
    if ops != [] {
      EqualSharesInStep(shares, ops[..|ops| - 1], turn);
      ApplyInStep(After(NOBODY, shares, ops[..|ops| - 1]), shares, ops[|ops| - 1], turn);
    }
  }

  /** With equal weights a newcomer is admitted before any tenant that was already backlogged gets
      a third turn, whatever happened before it came. */
  lemma {:induction false} NewcomerWaitsTwoTurns(shares: Shares, turn: real, past: seq<Op>, t: Tenant, x: nat,
                                                 j: Tenant, ops: seq<Op>)
    requires Legal(NOBODY, shares, past) && forall u :: Cost(shares, u) == turn
    requires var q := After(NOBODY, shares, past);
             && t !in q.queues && j in q.queues
             && Legal(Push(q, t, x), shares, ops) && Stays(Push(q, t, x), shares, ops, t)
    requires Served(ops, t) == 0
    ensures Served(ops, j) <= 2
  {
    var q := After(NOBODY, shares, past);
    EqualSharesInStep(shares, past, turn);
    var joined := Push(q, t, x);
    assert TimeOf(joined, t) == q.now && TimeOf(joined, j) == TimeOf(q, j);
    assert turn > 0.0 by { assert Cost(shares, t) > 0.0; }
    WaitBounded(joined, shares, ops, t, j);
    OneTurn(TimeOf(joined, t) - TimeOf(joined, j), turn);
  }

  lemma OneTurn(gap: real, turn: real)
    requires turn > 0.0 && gap <= turn
    ensures (gap / turn).Floor <= 1
  {
    assert turn / turn - gap / turn == (turn - gap) / turn;
  }
}
