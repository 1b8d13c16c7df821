/** How many can still be admitted before a queued request, whatever arrives and leaves meanwhile
    (src/turboserve/engine/core/scheduler.py:304-413). */
module Turns {
  import opened Prelude
  import opened FairQueue
  import opened AdmissionOrder

  /** Whom to follow: a request, its tenant, and all the tenants that ever queue anything. */
  datatype Waiter = Waiter(x: nat, tenant: Tenant, names: seq<Tenant>, shares: Shares)

  /** Admissions, each costing `c`, that start no later than `d` from now. */
  function Starts(d: real, c: real): nat
    requires c > 0.0
  {
    if d < 0.0 then 0
    else
      Quotient(d, c);
      (d / c).Floor + 1
  }

  lemma {:induction false} StartsMonotone(d: real, e: real, c: real)
    requires c > 0.0 && d <= e
    ensures Starts(d, c) <= Starts(e, c)
  {
    if d >= 0.0 { FloorMonotone(d / c, e / c, c, d, e); }
  }

  lemma FloorMonotone(x: real, y: real, c: real, d: real, e: real)
    requires c > 0.0 && d <= e && x * c == d && y * c == e
    ensures x.Floor <= y.Floor
  {
    if x > y { CompareScaled(y, x, c); }
  }

  lemma {:induction false} StartsOneLess(d: real, c: real)
    requires c > 0.0 && d >= 0.0
    ensures Starts(d - c, c) + 1 == Starts(d, c)
  {
    Quotient(d, c);
    Quotient(d - c, c);
    OneLess(d / c, (d - c) / c, c, d);
  }

  lemma OneLess(x: real, y: real, c: real, d: real)
    requires c > 0.0 && d >= 0.0 && x * c == d && y * c == d - c
    ensures y == x - 1.0 && x >= 0.0 && (d - c < 0.0 <==> x < 1.0)
  {
    assert (x - 1.0) * c == d - c;
    CompareScaled(y, x - 1.0, c);
    CompareScaled(x - 1.0, y, c);
    CompareScaled(x, 0.0, c);
    CompareScaled(x, 1.0, c);
  }

  /** The virtual time at which the request's own turn comes. */
  function TurnAt(q: Fair, w: Waiter): real {
    TimeOf(q, w.tenant) + Steps(Cost(w.shares, w.tenant), Place(Queued(q, w.tenant), w.x))
  }

  /** How often these other tenants can be admitted by then. */
  function Overtakers(q: Fair, w: Waiter, turn: real, names: seq<Tenant>): nat {
    if names == [] then 0
    else
      (if names[0] == w.tenant then 0 else Starts(turn - TimeOf(q, names[0]), Cost(w.shares, names[0])))
      + Overtakers(q, w, turn, names[1..])
  }

  /** Admissions that can still come before the request's: those ahead of it in its own queue, and
      those of other tenants up to its turn. */
  function Rank(q: Fair, w: Waiter): nat {
    Place(Queued(q, w.tenant), w.x) + Overtakers(q, w, TurnAt(q, w), w.names)
  }

  /** The request is queued, under its tenant; everybody queued is a known tenant. */
  ghost predicate InLine(q: Fair, w: Waiter) {
    w.x in Queued(q, w.tenant) && Listing(q) && forall u :: u in q.queues ==> u in w.names
  }

  lemma {:induction false} OvertakersFewer(p: Fair, q: Fair, w: Waiter, turn: real, turn': real, names: seq<Tenant>)
    requires turn' <= turn && forall u :: TimeOf(p, u) >= TimeOf(q, u)
    ensures Overtakers(p, w, turn', names) <= Overtakers(q, w, turn, names)
  {
    hide Starts, TimeOf, Cost;
    if names != [] {
      var u := names[0];
      StartsMonotone(turn' - TimeOf(p, u), turn - TimeOf(q, u), Cost(w.shares, u));
      OvertakersFewer(p, q, w, turn, turn', names[1..]);
    }
  }

  /** Charging another tenant that was before the turn uses up one of its admissions. */
  lemma {:induction false} OvertakersOneLess(p: Fair, q: Fair, w: Waiter, turn: real, names: seq<Tenant>, t: Tenant)
    requires t in names && t != w.tenant && TimeOf(q, t) <= turn
    requires forall u :: TimeOf(p, u) == if u == t then TimeOf(q, t) + Cost(w.shares, t) else TimeOf(q, u)
    ensures Overtakers(p, w, turn, names) + 1 <= Overtakers(q, w, turn, names)
  {
    hide Starts, TimeOf, Cost;
    var u := names[0];
    if u == t {
      StartsOneLess(turn - TimeOf(q, t), Cost(w.shares, t));
      OvertakersFewer(p, q, w, turn, turn, names[1..]);
    } else {
      OvertakersOneLess(p, q, w, turn, names[1..], t);
    }
  }

  lemma {:induction false} PlaceIn(s: seq<nat>, x: nat)
    requires x in s
    ensures Place(s, x) < |s|
    ensures s[0] != x ==> x in s[1..] && Place(s, x) == Place(s[1..], x) + 1
  {
    if s[0] != x { PlaceIn(s[1..], x); }
  }

  /** An admission of somebody else brings the request's own nearer. */
  lemma {:induction false} PopNearer(q: Fair, w: Waiter, t: Tenant)
    requires InLine(q, w) && IsNext(q, t) && Queued(q, t) != [] && Queued(q, t)[0] != w.x
    ensures InLine(Pop(q, w.shares, t), w) && Rank(Pop(q, w.shares, t), w) + 1 <= Rank(q, w)
  {
    var p := Pop(q, w.shares, t);
    PlaceIn(Queued(q, w.tenant), w.x);
    if t == w.tenant {
      assert Queued(p, t) == Queued(q, t)[1..];
      assert TurnAt(p, w) == TurnAt(q, w);
      hide Cost;
      OvertakersFewer(p, q, w, TurnAt(q, w), TurnAt(p, w), w.names);
    } else {
      assert Queued(p, w.tenant) == Queued(q, w.tenant);
      assert Before(q, t, w.tenant);
      StepsMonotone(Cost(w.shares, w.tenant), 0, Place(Queued(q, w.tenant), w.x));
      hide Cost;
      OvertakersOneLess(p, q, w, TurnAt(q, w), w.names, t);
    }
  }

  /** An arrival brings nobody more before it. */
  lemma {:induction false} PushNoFurther(q: Fair, w: Waiter, t: Tenant, y: nat)
    requires InLine(q, w) && t in w.names
    ensures InLine(Push(q, t, y), w) && Rank(Push(q, t, y), w) <= Rank(q, w)
  {
    var p := Push(q, t, y);
    if t == w.tenant {
      PlaceAppend(Queued(q, t), [y], w.x);
      assert Queued(p, t) == Queued(q, t) + [y];
    } else {
      assert Queued(p, w.tenant) == Queued(q, w.tenant);
    }
    hide Cost, Overtakers;
    OvertakersFewer(p, q, w, TurnAt(q, w), TurnAt(p, w), w.names);
  }

  lemma {:induction false} PlaceRemoved(s: seq<nat>, x: nat, y: nat)
    requires x in s && x != y
    ensures x in RemoveFirst(s, y) && Place(RemoveFirst(s, y), x) <= Place(s, x)
  {
    if s[0] != y && s[0] != x { PlaceRemoved(s[1..], x, y); }
  }

  /** Nor does the departure of somebody else. */
  lemma {:induction false} RemoveNoFurther(q: Fair, w: Waiter, t: Tenant, y: nat)
    requires InLine(q, w) && y != w.x
    ensures InLine(Remove(q, t, y), w) && Rank(Remove(q, t, y), w) <= Rank(q, w)
  {
    var p := Remove(q, t, y);
    var c := Cost(w.shares, w.tenant);
    if t == w.tenant {
      PlaceRemoved(Queued(q, t), w.x, y);
      assert Queued(p, t) == RemoveFirst(Queued(q, t), y);
    } else {
      assert Queued(p, w.tenant) == Queued(q, w.tenant);
    }
    hide Cost, Overtakers;
    StepsMonotone(c, Place(Queued(p, w.tenant), w.x), Place(Queued(q, w.tenant), w.x));
    OvertakersFewer(p, q, w, TurnAt(q, w), TurnAt(p, w), w.names);
  }

  /** Arrivals of known tenants, and departures of others. */
  predicate Meanwhile(ops: seq<Op>, w: Waiter) {
    forall k :: 0 <= k < |ops| ==>
      match ops[k]
      case Pushed(t, _) => t in w.names
      case Removed(_, y) => y != w.x
      case Popped(_) => false
  }

  /** So whatever arrives or leaves, the request stays in line and no further behind. */
  lemma {:induction false} MeanwhileNoFurther(q: Fair, w: Waiter, ops: seq<Op>)
    requires InLine(q, w) && Meanwhile(ops, w)
    ensures InLine(After(q, w.shares, ops), w) && Rank(After(q, w.shares, ops), w) <= Rank(q, w)
  {
    hide InLine, Rank, Push, Remove, Pop;
    if ops != [] {
      var front, op := ops[..|ops| - 1], ops[|ops| - 1];
      MeanwhileNoFurther(q, w, front);
      var p := After(q, w.shares, front);
      match op
      case Pushed(t, y) => PushNoFurther(p, w, t, y);
      case Removed(t, y) => RemoveNoFurther(p, w, t, y);
      case Popped(_) =>
    }
  }

  /** And every admission of others brings it nearer. */
  lemma {:induction false} AdmitsNearer(q: Fair, w: Waiter, n: nat, r: Fair, s: seq<nat>)
    requires InLine(q, w) && Admits(q, w.shares, n, r) && InOrder(q, w.shares, s) && n <= |s| && w.x !in s[..n]
    ensures InLine(r, w) && Rank(r, w) + n <= Rank(q, w)
    decreases n
  {
    hide InLine, Rank, Pop, IsNext;
    if n > 0 {
      var t :| IsNext(q, t) && Admits(Pop(q, w.shares, t), w.shares, n - 1, r);
      NextHeads(q, w.shares, s, t);
      assert s[0] == s[..n][0] && forall v :: v in s[1..][..n - 1] ==> v in s[..n];
      PopNearer(q, w, t);
      AdmitsNearer(Pop(q, w.shares, t), w, n - 1, r, s[1..]);
    }
  }

  /** With one tenant for everybody the rank is the place in the queue. */
  lemma {:induction false} RankInTurn(q: Fair, w: Waiter)
    requires w.names == [w.tenant]
    ensures Rank(q, w) == Place(Queued(q, w.tenant), w.x)
  {
    assert w.names[0] == w.tenant && w.names[1..] == [];
    assert Overtakers(q, w, TurnAt(q, w), w.names[1..]) == 0;
  }
}
