/** The order in which a wait queue admits if nothing else happens
    (src/turboserve/engine/core/scheduler.py:337-391). First come, first served is the case in which
    everybody queues under one name. */
module AdmissionOrder {
  import opened Prelude
  import opened Sorting
  import opened FairQueue

  /** Taking the next until nobody waits gives `s`. */
  ghost predicate InOrder(q: Fair, shares: Shares, s: seq<nat>)
    decreases |s|
  {
    if s == [] then q.queues == map[]
    else exists t :: IsNext(q, t) && HeadIs(q, t, s[0]) && InOrder(Pop(q, shares, t), shares, s[1..])
  }

  ghost predicate HeadIs(q: Fair, t: Tenant, x: nat) {
    Queued(q, t) != [] && Queued(q, t)[0] == x
  }

  /** Whoever is next heads the order, and the rest is the order without it. */
  lemma {:induction false} NextHeads(q: Fair, shares: Shares, s: seq<nat>, t: Tenant)
    requires InOrder(q, shares, s) && IsNext(q, t)
    ensures s != [] && HeadIs(q, t, s[0]) && InOrder(Pop(q, shares, t), shares, s[1..])
  {
    var u :| IsNext(q, u) && HeadIs(q, u, s[0]) && InOrder(Pop(q, shares, u), shares, s[1..]);
    NextIsUnique(q, t, u);
  }

  /** With everybody under one name the order is first come, first served. */
  lemma {:induction false} OneNameInTurn(q: Fair, shares: Shares, s: seq<nat>, t: Tenant)
    requires InOrder(q, shares, s) && forall u :: u in q.queues ==> u == t
    ensures s == Queued(q, t)
    decreases |s|
  {
    if s != [] {
      var u :| IsNext(q, u) && HeadIs(q, u, s[0]) && InOrder(Pop(q, shares, u), shares, s[1..]);
      OneNameInTurn(Pop(q, shares, u), shares, s[1..], t);
      assert Queued(Pop(q, shares, u), t) == Queued(q, t)[1..];
      assert s == [s[0]] + s[1..] && Queued(q, t) == [s[0]] + Queued(q, t)[1..];
    }
  }

  // ---- what the order depends on ------------------------------------------------------------

  /** The same queues, and the same virtual times of everybody in them. */
  ghost predicate Alike(p: Fair, q: Fair) {
    p.queues == q.queues && forall t :: t in q.queues ==> TimeOf(p, t) == TimeOf(q, t)
  }

  lemma {:induction false} NextAlike(p: Fair, q: Fair, shares: Shares, t: Tenant)
    requires Alike(p, q) && IsNext(q, t)
    ensures IsNext(p, t) && Queued(p, t) == Queued(q, t) && Alike(Pop(p, shares, t), Pop(q, shares, t))
  {
    hide StringLeq, Cost;
    forall u | u in p.queues ensures Before(p, t, u) { assert Before(q, t, u); }
  }

  lemma {:induction false} OrderOfAlike(p: Fair, q: Fair, shares: Shares, s: seq<nat>)
    requires InOrder(q, shares, s) && Alike(p, q)
    ensures InOrder(p, shares, s)
    decreases |s|
  {
    hide Pop, IsNext, Queued;
    if s == [] {
      assert p.queues == map[];
    } else {
      var t :| IsNext(q, t) && HeadIs(q, t, s[0]) && InOrder(Pop(q, shares, t), shares, s[1..]);
      NextAlike(p, q, shares, t);
      assert HeadIs(p, t, s[0]);
      OrderOfAlike(Pop(p, shares, t), Pop(q, shares, t), shares, s[1..]);
    }
  }

  // ---- a newcomer ---------------------------------------------------------------------------

  /** `p` is `q` with `x` queued last under `t`; if nobody was, at any virtual time. */
  ghost predicate Joined(p: Fair, q: Fair, t: Tenant, x: nat) {
    && p.queues == q.queues[t := Queued(q, t) + [x]]
    && forall u :: u in q.queues ==> TimeOf(p, u) == TimeOf(q, u)
  }

  /** A newcomer is inserted somewhere; the order of the others stays. */
  lemma {:induction false} JoinedPlace(p: Fair, q: Fair, shares: Shares, s: seq<nat>, t: Tenant, x: nat)
    returns (place: nat)
    requires InOrder(q, shares, s) && Joined(p, q, t, x) && Listing(q)
    ensures place <= |s| && InOrder(p, shares, s[..place] + [x] + s[place..])
    decreases |s|
  {
    hide Pop, IsNext, Queued, Joined, Listing;
    if IsNext(p, t) && t !in q.queues {
      place := 0;
      JoinedFirst(p, q, shares, t, x);
      OrderOfAlike(Pop(p, shares, t), q, shares, s);
      assert s[..0] + [x] + s[0..] == [x] + s && ([x] + s)[1..] == s;
    } else {
      var u := NextStays(p, q, t, x);
      NextHeads(q, shares, s, u);
      JoinedPop(p, q, shares, t, x, u);
      place := JoinedPlace(Pop(p, shares, u), Pop(q, shares, u), shares, s[1..], t, x);
      var rest := s[1..][..place] + [x] + s[1..][place..];
      place := place + 1;
      assert s[..place] + [x] + s[place..] == [s[0]] + rest;
      assert ([s[0]] + rest)[1..] == rest;
    }
  }

  /** A newcomer who goes first leaves the others as they were. */
  lemma {:induction false} JoinedFirst(p: Fair, q: Fair, shares: Shares, t: Tenant, x: nat)
    requires Joined(p, q, t, x) && t !in q.queues
    ensures HeadIs(p, t, x) && Alike(Pop(p, shares, t), q)
  {
    hide Cost;
    assert [] + [x] == [x] && [x][1..] == [];
    assert Queued(p, t) == [x];
    assert p.queues - {t} == q.queues;
  }

  /** Unless the newcomer goes first, whoever was next still is. */
  lemma {:induction false} NextStays(p: Fair, q: Fair, t: Tenant, x: nat) returns (u: Tenant)
    requires Joined(p, q, t, x) && !(IsNext(p, t) && t !in q.queues)
    ensures u in q.queues && IsNext(q, u) && IsNext(p, u)
  {
    hide StringLeq;
    assert t in p.queues.Keys;
    u := SomebodyNext(p, p.queues.Keys);
    assert IsNext(p, u);
    assert u in q.queues;
    forall w | w in q.queues ensures Before(q, u, w) { assert w in p.queues && Before(p, u, w); }
  }

  lemma {:induction false} SomebodyNext(q: Fair, among: set<Tenant>) returns (t: Tenant)
    requires among != {}
    ensures t in among && forall u :: u in among ==> Before(q, t, u)
    decreases among
  {
    var v :| v in among;
    var rest := among - {v};
    if rest == {} {
      BeforeAll(q, None, v, among);
      t := v;
    } else {
      t := SomebodyNext(q, rest);
      if !Before(q, t, v) {
        BeforeAll(q, Some(t), v, among);
        t := v;
      }
    }
  }

  lemma {:induction false} JoinedPop(p: Fair, q: Fair, shares: Shares, t: Tenant, x: nat, u: Tenant)
    requires Joined(p, q, t, x) && Listing(q) && u in q.queues
    ensures Joined(Pop(p, shares, u), Pop(q, shares, u), t, x) && Listing(Pop(q, shares, u))
    ensures Queued(p, u) != [] && Queued(p, u)[0] == Queued(q, u)[0]
  {
    hide Cost, Pop, TimeOf;
    var r, o := Pop(p, shares, u), Pop(q, shares, u);
    PopQueues(p, shares, u);
    PopQueues(q, shares, u);
    if u == t {
      assert (q.queues[t] + [x])[1..] == q.queues[t][1..] + [x];
      assert Queued(o, t) == q.queues[t][1..];
    }
    assert r.queues == o.queues[t := Queued(o, t) + [x]];
    forall v | v in o.queues ensures TimeOf(r, v) == TimeOf(o, v) {
      PopTime(p, shares, u, v);
      PopTime(q, shares, u, v);
    }
  }

  lemma PopQueues(q: Fair, shares: Shares, u: Tenant)
    requires u in q.queues && q.queues[u] != []
    ensures Pop(q, shares, u).queues
            == if |q.queues[u]| == 1 then q.queues - {u} else q.queues[u := q.queues[u][1..]]
  {
    hide Cost;
  }

  lemma PopTime(q: Fair, shares: Shares, u: Tenant, v: Tenant)
    ensures TimeOf(Pop(q, shares, u), v) == if v == u then TimeOf(q, u) + Cost(shares, u) else TimeOf(q, v)
  {
    hide Cost;
  }

  lemma {:induction false} PushJoins(q: Fair, t: Tenant, x: nat)
    ensures Joined(Push(q, t, x), q, t, x)
  {
    assert [] + [x] == [x];
  }

  /** No tenant is listed with nothing queued. */
  ghost predicate Listing(q: Fair) { forall t :: t in q.queues ==> q.queues[t] != [] }

  // ---- somebody leaves ----------------------------------------------------------------------

  /** Everybody is queued under the name `tenants` gives, which need not be known. */
  ghost predicate Filed(q: Fair, tenants: seq<Tenant>) {
    forall t :: t in q.queues ==> FiledUnder(q.queues[t], t, tenants)
  }

  ghost predicate FiledUnder(s: seq<nat>, t: Tenant, tenants: seq<Tenant>) {
    forall k :: 0 <= k < |s| ==> s[k] < |tenants| && tenants[s[k]] == t
  }

  /** With everybody filed under one name the order is that of the one queue. */
  lemma FirstCome(q: Fair, shares: Shares, s: seq<nat>, tenants: seq<Tenant>, name: Tenant)
    requires InOrder(q, shares, s) && Filed(q, tenants)
    requires Listing(q) && forall k :: 0 <= k < |tenants| ==> tenants[k] == name
    ensures s == Queued(q, name)
  {
    hide InOrder;
    forall t | t in q.queues ensures t == name {
      var x := q.queues[t][0];
      assert FiledUnder(q.queues[t], t, tenants);
      assert tenants[x] == t;
    }
    OneNameInTurn(q, shares, s, name);
  }

  /** The order lists everybody as often as they are queued. */
  lemma {:induction false} OrderCounts(q: Fair, shares: Shares, s: seq<nat>, tenants: seq<Tenant>, x: nat)
    requires InOrder(q, shares, s) && Filed(q, tenants)
    ensures multiset(s)[x] == if x < |tenants| then multiset(Queued(q, tenants[x]))[x] else 0
    decreases |s|
  {
    hide Pop, IsNext, Filed;
    if s == [] {
      assert q.queues == map[];
      assert x < |tenants| ==> Queued(q, tenants[x]) == [];
    } else {
      var t :| IsNext(q, t) && HeadIs(q, t, s[0]) && InOrder(Pop(q, shares, t), shares, s[1..]);
      FiledPop(q, shares, t, tenants);
      OrderCounts(Pop(q, shares, t), shares, s[1..], tenants, x);
      HeadCounted(s, x);
      HeadCounted(Queued(q, t), x);
    }
  }

  lemma {:induction false} HeadCounted(s: seq<nat>, x: nat)
    requires s != []
    ensures multiset(s)[x] == multiset(s[1..])[x] + (if s[0] == x then 1 else 0)
  {
    assert s == [s[0]] + s[1..];
  }

  lemma {:induction false} FiledPop(q: Fair, shares: Shares, t: Tenant, tenants: seq<Tenant>)
    requires Filed(q, tenants) && Queued(q, t) != []
    ensures Filed(Pop(q, shares, t), tenants)
    ensures forall u :: Queued(Pop(q, shares, t), u) == if u == t then Queued(q, t)[1..] else Queued(q, u)
    ensures Queued(q, t)[0] < |tenants| && tenants[Queued(q, t)[0]] == t
  {
    hide Cost;
    var rest := q.queues[t][1..];
    assert FiledUnder(q.queues[t], t, tenants);
    QueueReplaced(q, Pop(q, shares, t), t, rest, tenants);
  }

  /** One tenant's queue cut to `rest`, an empty one disappearing. */
  lemma {:induction false} QueueReplaced(q: Fair, p: Fair, t: Tenant, rest: seq<nat>, tenants: seq<Tenant>)
    requires t in q.queues && p.queues == (if rest == [] then q.queues - {t} else q.queues[t := rest])
    requires Filed(q, tenants) && FiledUnder(rest, t, tenants)
    ensures Filed(p, tenants) && (Listing(q) ==> Listing(p))
    ensures forall u :: Queued(p, u) == if u == t then rest else Queued(q, u)
  {}

  /** However the queues stand, taking the next ends with nobody waiting. */
  lemma {:induction false} OrderExists(q: Fair, shares: Shares, places: set<(Tenant, nat)>) returns (s: seq<nat>)
    requires Listing(q)
    requires forall t, k: nat :: k < |Queued(q, t)| ==> (t, k) in places
    ensures InOrder(q, shares, s)
    decreases places
  {
    hide Cost, StringLeq;
    if q.queues == map[] {
      s := [];
    } else {
      var w :| w in q.queues;
      assert w in q.queues.Keys;
      var t := SomebodyNext(q, q.queues.Keys);
      assert IsNext(q, t);
      var p, last := Pop(q, shares, t), (t, |q.queues[t]| - 1);
      assert last in places && |Queued(q, t)| > 0;
      forall u, k: nat | k < |Queued(p, u)| ensures (u, k) in places - {last} {
        assert Queued(p, u) == if u == t then q.queues[t][1..] else Queued(q, u);
      }
      hide Pop, IsNext;
      var rest := OrderExists(p, shares, places - {last});
      s := [q.queues[t][0]] + rest;
      assert s[1..] == rest && HeadIs(q, t, s[0]);
    }
  }

  /** After `x` has left the queue there is an order again, of the same others. */
  lemma {:induction false} RemovedOrder(q: Fair, shares: Shares, s: seq<nat>, tenants: seq<Tenant>, t: Tenant, x: nat)
    returns (r: seq<nat>)
    requires InOrder(q, shares, s) && Filed(q, tenants) && Listing(q)
    requires x < |tenants| && tenants[x] == t && multiset(s)[x] <= 1
    ensures var p := Remove(q, t, x);
            InOrder(p, shares, r) && Filed(p, tenants) && Listing(p) && multiset(r) == multiset(s)[x := 0]
  {
    hide InOrder, Filed, Listing, Remove, RemoveFirst, Queued, AllPlaces;
    var p := Remove(q, t, x);
    PlacesAll(p);
    RemovedQueue(q, tenants, t, x);
    r := OrderExists(p, shares, AllPlaces(p));
    forall y: nat ensures multiset(r)[y] == multiset(s)[x := 0][y] {
      RemovedCount(q, p, shares, s, r, tenants, x, y);
    }
  }

  lemma {:induction false} RemovedCount(q: Fair, p: Fair, shares: Shares, s: seq<nat>, r: seq<nat>,
                                        tenants: seq<Tenant>, x: nat, y: nat)
    requires InOrder(q, shares, s) && Filed(q, tenants) && InOrder(p, shares, r) && Filed(p, tenants)
    requires x < |tenants| && multiset(s)[x] <= 1
    requires forall u :: Queued(p, u) == if u == tenants[x] then RemoveFirst(Queued(q, tenants[x]), x) else Queued(q, u)
    ensures multiset(r)[y] == if y == x then 0 else multiset(s)[y]
  {
    OrderCounts(q, shares, s, tenants, y);
    OrderCounts(p, shares, r, tenants, y);
    hide InOrder, Filed, Queued;
    RemovedFirst(Queued(q, tenants[x]), x);
  }

  lemma {:induction false} RemovedQueue(q: Fair, tenants: seq<Tenant>, t: Tenant, x: nat)
    requires Filed(q, tenants) && Listing(q) && x < |tenants| && tenants[x] == t
    ensures var p := Remove(q, t, x);
            && Filed(p, tenants) && Listing(p)
            && forall u :: Queued(p, u) == if u == t then RemoveFirst(Queued(q, t), x) else Queued(q, u)
  {
    if t in q.queues {
      RemovedFiled(q.queues[t], x, t, tenants);
      QueueReplaced(q, Remove(q, t, x), t, RemoveFirst(q.queues[t], x), tenants);
    }
  }

  lemma {:induction false} PlacesAll(q: Fair)
    ensures forall t, k: nat :: k < |Queued(q, t)| ==> (t, k) in AllPlaces(q)
  {
    forall t, k: nat | k < |Queued(q, t)| ensures (t, k) in AllPlaces(q) {
      assert t in q.queues;
    }
  }

  lemma {:induction false} RemovedFiled(s: seq<nat>, x: nat, t: Tenant, tenants: seq<Tenant>)
    requires FiledUnder(s, t, tenants)
    ensures FiledUnder(RemoveFirst(s, x), t, tenants)
  {
    if s != [] { RemovedFiled(s[1..], x, t, tenants); }
  }

  /** Whoever is not queued is not listed, and taking it out changes nothing. */
  lemma {:induction false} RemovedAbsent(q: Fair, shares: Shares, s: seq<nat>, tenants: seq<Tenant>, x: nat)
    requires InOrder(q, shares, s) && Filed(q, tenants) && Listing(q) && x < |tenants|
    ensures x in Queued(q, tenants[x]) <==> x in s
    ensures x !in Queued(q, tenants[x]) ==> Remove(q, tenants[x], x) == q
  {
    hide InOrder, Filed, RemoveFirst;
    OrderCounts(q, shares, s, tenants, x);
    assert x in s <==> multiset(s)[x] > 0;
    assert x in Queued(q, tenants[x]) <==> multiset(Queued(q, tenants[x]))[x] > 0;
    if tenants[x] in q.queues { RemovedNothing(q.queues[tenants[x]], x); }
  }

  lemma {:induction false} RemovedNothing(s: seq<nat>, x: nat)
    ensures x !in s ==> RemoveFirst(s, x) == s
  {
    if s != [] { RemovedNothing(s[1..], x); }
  }

  lemma {:induction false} PushFiled(q: Fair, t: Tenant, x: nat, tenants: seq<Tenant>)
    requires Filed(q, tenants) && x == |tenants|
    ensures Filed(Push(q, t, x), tenants + [t])
  {
    var p := Push(q, t, x);
    assert [] + [x] == [x];
    forall u | u in p.queues ensures FiledUnder(p.queues[u], u, tenants + [t]) {
      if u in q.queues { assert FiledUnder(q.queues[u], u, tenants); }
    }
  }

  function AllPlaces(q: Fair): set<(Tenant, nat)> {
    set t, k: nat | t in q.queues && k < |q.queues[t]| :: (t, k)
  }

  lemma {:induction false} RemovedFirst(s: seq<nat>, x: nat)
    ensures multiset(RemoveFirst(s, x)) == multiset(s) - multiset{x}
    ensures forall y :: y in RemoveFirst(s, x) ==> y in s
  {
    if s != [] {
      assert s == [s[0]] + s[1..];
      RemovedFirst(s[1..], x);
    }
  }
}
