/** Nobody starves: as long as everybody unfinished fits the pool and the step, every request is in a
    batch after a bounded number of steps, whatever arrives meanwhile
    (src/turboserve/engine/core/scheduler.py:337-391, 606-711). */
module Liveness {
  import opened Prelude
  import opened KvBlocks
  import opened KvSharing
  import opened KvEngine
  import opened EngineEffects
  import opened SchedulerState
  import opened Stalls
  import opened Preemption
  import opened BatchScheduler
  import opened Turns
  import Sampling
  import AdmissionOrder
  import FairQueue

  // ---- between two steps --------------------------------------------------------------------

  /** The list without those who are done. */
  function Kept(s: seq<nat>, done: set<nat>): seq<nat> {
    if s == [] then [] else if s[0] in done then Kept(s[1..], done) else [s[0]] + Kept(s[1..], done)
  }

  lemma {:induction false} KeptPlace(s: seq<nat>, done: set<nat>, x: nat)
    requires x !in done
    ensures |Kept(s, done)| <= |s| && (x in Kept(s, done) <==> x in s)
    ensures x in s ==> Place(Kept(s, done), x) <= Place(s, x) < |s|
    ensures s != [] && s[0] in done ==>
              |Kept(s, done)| < |s| && (x in s ==> Place(Kept(s, done), x) < Place(s, x))
    ensures s != [] && s[0] !in done ==> Kept(s, done) != [] && Kept(s, done)[0] == s[0]
  {
    if s != [] {
      KeptPlace(s[1..], done, x);
      assert x in s <==> x == s[0] || x in s[1..];
      if s[0] !in done { assert Kept(s, done)[1..] == Kept(s[1..], done); }
    }
  }

  lemma {:induction false} KeptTwice(s: seq<nat>, a: set<nat>, b: set<nat>)
    ensures Kept(Kept(s, a), b) == Kept(s, a + b)
  {
    if s != [] {
      KeptTwice(s[1..], a, b);
      if s[0] !in a { assert Kept(s, a)[1..] == Kept(s[1..], a); }
    }
  }

  /** What happens between two steps, seen from one request: some finish, not it; requests of known
      tenants join the wait queue, and others leave it; others get tokens. */
  ghost predicate Between(r: Queues, f: FairQueue.Fair, s: Queues, g: FairQueue.Fair, done: set<nat>,
                          ops: seq<FairQueue.Op>, w: Waiter)
  {
    && w.x !in done && s.running == Kept(r.running, done) && s.preempted == Kept(r.preempted, done)
    && g == FairQueue.After(f, w.shares, ops) && Meanwhile(ops, w)
    && |s.e.seqs| >= |r.e.seqs|
    && forall v :: v in s.running && v < |r.e.seqs| ==> s.e.seqs[v].computed == r.e.seqs[v].computed
  }

  lemma {:induction false} BetweenMore(r: Queues, f: FairQueue.Fair, s: Queues, g: FairQueue.Fair, t: Queues,
                                       h: FairQueue.Fair, a: set<nat>, b: set<nat>, ops: seq<FairQueue.Op>,
                                       more: seq<FairQueue.Op>, w: Waiter)
    requires Between(r, f, s, g, a, ops, w) && Between(s, g, t, h, b, more, w)
    ensures Between(r, f, t, h, a + b, ops + more, w)
  {
    KeptTwice(r.running, a, b);
    KeptTwice(r.preempted, a, b);
    forall v | v in t.running ensures v in s.running { KeptIn(s.running, b, v); }
    AfterMore(f, w.shares, ops, more);
  }

  lemma {:induction false} AfterMore(f: FairQueue.Fair, shares: FairQueue.Shares, ops: seq<FairQueue.Op>,
                                     more: seq<FairQueue.Op>)
    ensures FairQueue.After(f, shares, ops + more)
         == FairQueue.After(FairQueue.After(f, shares, ops), shares, more)
    decreases |more|
  {
    hide FairQueue.Apply;
    if more == [] {
      assert ops + more == ops;
    } else {
      var front := more[..|more| - 1];
      assert (ops + more)[..|ops + more| - 1] == ops + front;
      AfterMore(f, shares, ops, front);
    }
  }

  lemma {:induction false} KeptIn(s: seq<nat>, done: set<nat>, v: nat)
    ensures v in Kept(s, done) <==> v in s && v !in done
  {
    if s != [] { KeptIn(s[1..], done, v); }
  }

  lemma {:induction false} KeptIsWithout(s: seq<nat>, i: nat)
    ensures Kept(s, {i}) == Without(s, i)
  {
    if s != [] { KeptIsWithout(s[1..], i); }
  }

  lemma {:induction false} KeptAll(s: seq<nat>)
    ensures Kept(s, {}) == s
  {
    if s != [] { KeptAll(s[1..]); }
  }

  /** The forward pass is such a change. */
  lemma ExecuteIsBetween(r: Queues, s: Queues, f: FairQueue.Fair, w: Waiter)
    requires SameProgress(r.e, s.e) && s == r.(e := s.e, ids := s.ids)
    ensures Between(r, f, s, f, {}, [], w)
  {
    KeptAll(r.running);
    KeptAll(r.preempted);
  }

  /** So is finishing somebody else, wherever it is queued. */
  lemma FinishIsBetween(r: Queues, f: FairQueue.Fair, s: Queues, g: FairQueue.Fair, i: nat, t: FairQueue.Tenant,
                        w: Waiter)
    requires OnlyChanges(r.e, s.e, i) && w.x != i
    requires s.running == Without(r.running, i) && s.preempted == Without(r.preempted, i)
    requires g == if i in r.running || i in r.preempted then f else FairQueue.Remove(f, t, i)
    ensures var ops := if i in r.running || i in r.preempted then [] else [FairQueue.Removed(t, i)];
            Between(r, f, s, g, {i}, ops, w)
  {
    KeptIsWithout(r.running, i);
    KeptIsWithout(r.preempted, i);
    KeptIn(r.running, {i}, i);
    AfterOne(f, w.shares, FairQueue.Removed(t, i));
  }

  lemma AfterOne(f: FairQueue.Fair, shares: FairQueue.Shares, op: FairQueue.Op)
    ensures FairQueue.After(f, shares, [op]) == FairQueue.Apply(f, shares, op)
  {
    hide FairQueue.Apply;
    assert [op][..0] == [];
  }

  /** So is a sampled token. */
  lemma AppendIsBetween(r: Queues, s: Queues, f: FairQueue.Fair, i: nat, token: Token, w: Waiter)
    requires OnlyChanges(r.e, s.e, i) && s == r.(e := s.e)
    requires s.e.seqs[i] == r.e.seqs[i].(tokens := r.e.seqs[i].tokens + [token])
    ensures Between(r, f, s, f, {}, [], w)
  {
    KeptAll(r.running);
    KeptAll(r.preempted);
  }

  /** So is a new request of a known tenant, wherever the policy places it. */
  lemma AddIsBetween(r: Queues, f: FairQueue.Fair, s: Queues, g: FairQueue.Fair, y: Live, t: FairQueue.Tenant,
                     w: Waiter)
    requires s.e.seqs == r.e.seqs + [y] && s == r.(e := s.e, waiting := s.waiting) && t in w.names
    requires g == FairQueue.Push(f, t, |r.e.seqs|)
    ensures Between(r, f, s, g, {}, [FairQueue.Pushed(t, |r.e.seqs|)], w)
  {
    KeptAll(r.running);
    KeptAll(r.preempted);
    AfterOne(f, w.shares, FairQueue.Pushed(t, |r.e.seqs|));
  }

  // ---- the wait queue seen from one request -------------------------------------------------

  /** The wait queue admits in the order listed; if the request waits, it is in line there. */
  ghost predicate Followed(q: Queues, f: FairQueue.Fair, w: Waiter) {
    AdmissionOrder.InOrder(f, w.shares, q.waiting) && (w.x in q.waiting ==> InLine(f, w))
  }

  /** The scheduler's own wait queue is like that, under either policy. */
  lemma QueueFollowed(s: Scheduler, w: Waiter)
    requires s.Ordered() && w.shares == s.queue.shares && w.x < |s.tenants| && w.tenant == s.tenants[w.x]
    requires forall t :: t in s.tenants ==> t in w.names
    ensures Followed(s.State(), s.queue.Value(), w)
  {
    var f := s.queue.Value();
    AdmissionOrder.RemovedAbsent(f, w.shares, s.waiting, s.tenants, w.x);
    hide AdmissionOrder.InOrder;
    forall u | u in f.queues ensures u in w.names {
      assert AdmissionOrder.FiledUnder(f.queues[u], u, s.tenants);
      assert f.queues[u] != [];
      assert s.tenants[f.queues[u][0]] == u;
    }
  }

  // ---- how long to wait ---------------------------------------------------------------------

  /** A state between steps: everybody unfinished fits the pool and the step, and everybody running has
      a token to compute. */
  ghost predicate Healthy(q: Queues, limits: Limits, blocks: nat, setup: Setup) {
    && Ready(q, blocks, setup) && q.ids == {} && limits.maxTokens >= 1 && limits.maxSeqs >= 1
    && (forall j :: j in Members(q) ==> Fits(q.e, j, limits, blocks, setup.blockSize))
    && (forall v :: v in q.running && v < |q.e.seqs| ==> Uncomputed(q.e.seqs[v]) >= 1)
  }

  /** How many are ahead of the request, or can still come before it. */
  function Ahead(q: Queues, f: FairQueue.Fair, w: Waiter): nat {
    if w.x in q.running then Place(q.running, w.x)
    else if w.x in q.preempted then |q.running| + Place(q.preempted, w.x)
    else |q.running| + |q.preempted| + Rank(f, w)
  }

  /** Tokens the pool can hold. */
  function Capacity(blocks: nat, setup: Setup): nat { Size(blocks, setup.blockSize) }

  /** At most how many steps the oldest running sequence can still take. */
  function Slack(q: Queues, blocks: nat, setup: Setup): nat {
    var c := Capacity(blocks, setup);
    if q.running == [] then c + 1
    else if q.running[0] < |q.e.seqs| && q.e.seqs[q.running[0]].computed <= c
    then c - q.e.seqs[q.running[0]].computed
    else c
  }

  /** Steps within which the request is in a batch, if no more than `n` others run or are preempted at
      once: `Capacity + 2` for each that comes before it; a running sequence may be preempted once. */
  function Patience(q: Queues, f: FairQueue.Fair, w: Waiter, n: nat, blocks: nat, setup: Setup): nat {
    var turn := Capacity(blocks, setup) + 2;
    (if w.x in q.running then Size(n + 1, turn) else 0) + Size(Ahead(q, f, w), turn) + Slack(q, blocks, setup)
  }

  // ---- one step -----------------------------------------------------------------------------

  /** The oldest running sequence computes on; with nobody running, somebody starts. */
  lemma {:induction false} OldestMovesOn(q: Queues, r: Queues, batch: seq<Item>, a: Assembly, limits: Limits,
                                         blocks: nat, setup: Setup)
    requires setup.blockSize >= 1 && Healthy(q, limits, blocks, setup) && Members(q) != {}
    requires StepDone(q, r, batch, a, limits, blocks, setup)
    ensures r.running != []
    ensures q.running != [] ==>
              && q.running[0] in r.ids && r.running[0] == q.running[0] && q.running[0] < |q.e.seqs| == |r.e.seqs|
              && q.e.seqs[q.running[0]].computed < r.e.seqs[q.running[0]].computed <= Capacity(blocks, setup)
  {
    hide Ready, BatchOk, Admissible, Stuck, Stepped, Considered, Demand, SameText, Needed, Tokens, Capacity;
    if q.running != [] {
      var i := q.running[0];
      OldestFits(q, limits, blocks, setup);
      hide ChunkOutgrown, Fits;
      assert i in r.ids && i !in a.victims;
      SteppedRunning(q, r, a.victims, i, setup);
      CountAt(r, batch, i);
      PlaceFirst(q.running, r.running);
      WrittenAt(q, i, blocks, setup);
      ComputedWithin(q, r, batch, a, i, limits, blocks, setup);
    } else {
      NotStuck(q, limits, blocks, setup);
      EmptyExactly(r.e, batch, r.ids);
      var v :| v in r.ids;
      InBatchRuns(r, v, blocks, setup);
    }
  }

  lemma PlaceFirst(s: seq<nat>, t: seq<nat>)
    requires s != [] && s[0] in t && Place(t, s[0]) <= Place(s, s[0])
    ensures t != [] && t[0] == s[0]
  {}

  lemma {:induction false} OldestFits(q: Queues, limits: Limits, blocks: nat, setup: Setup)
    requires setup.blockSize >= 1 && Healthy(q, limits, blocks, setup) && q.running != []
    ensures q.running[0] < |q.e.seqs| && FirstCarried(q.e, q.running, limits) == Some(q.running[0])
    ensures !ChunkOutgrown(q.e, q.running[0], limits, blocks, setup.blockSize)
  {
    var i := q.running[0];
    assert i in q.running && i in Members(q);
    hide Ready, Needed, Members;
    var s := q.e.seqs[i];
    FirstOfCarried(q.e, q.running, limits);
    NeededMonotone(s.computed + NextTokens(s, limits.maxTokens), |s.tokens|, setup.blockSize);
  }

  lemma {:induction false} FirstOfCarried(e: Engine, s: seq<nat>, limits: Limits)
    requires s != [] && Carried(e, s[0], limits)
    ensures FirstCarried(e, s, limits) == Some(s[0])
  {
    hide Carried;
    if |s| > 1 {
      FirstOfCarried(e, s[..|s| - 1], limits);
    } else {
      assert s[..0] == [];
    }
  }

  lemma {:induction false} CountAt(r: Queues, batch: seq<Item>, i: nat)
    requires BatchOk(r.e, batch, r.ids) && i in r.ids
    ensures i < |r.e.seqs| && r.e.seqs[i].computed > r.e.seqs[i].written
  {
    var k: nat :| k < |batch| && batch[k].seqIndex == i;
    assert Pending(r.e, batch[k]);
  }

  lemma WrittenAt(q: Queues, i: nat, blocks: nat, setup: Setup)
    requires Ready(q, blocks, setup) && q.ids == {} && i < |q.e.seqs|
    ensures q.e.seqs[i].written == q.e.seqs[i].computed
  {
    assert Queued(q, i);
  }

  lemma InBatchRuns(r: Queues, v: nat, blocks: nat, setup: Setup)
    requires Ready(r, blocks, setup) && v in r.ids
    ensures v in r.running && r.running != []
  {
    assert Queued(r, v);
    assert v in multiset(r.running);
  }

  lemma NotStuck(q: Queues, limits: Limits, blocks: nat, setup: Setup)
    requires setup.blockSize >= 1 && Healthy(q, limits, blocks, setup) && Members(q) != {} && q.running == []
    ensures !Stuck(q, limits, blocks, setup)
  {
    hide Ready, Stuck, Fits, Members;
    FittingNeverStuck(q, limits, blocks, setup);
  }

  lemma {:induction false} ComputedWithin(q: Queues, r: Queues, batch: seq<Item>, a: Assembly, i: nat, limits: Limits,
                                          blocks: nat, setup: Setup)
    requires setup.blockSize >= 1 && Healthy(q, limits, blocks, setup) && i in q.running
    requires Ready(r, blocks, setup) && SameText(q.e, r.e) && i < |q.e.seqs|
    ensures |r.e.seqs| == |q.e.seqs| && r.e.seqs[i].computed <= Capacity(blocks, setup)
  {
    assert i in Members(q) && Fits(q.e, i, limits, blocks, setup.blockSize);
    ProgressOrdered(r.e, i, blocks, setup);
    NeededFits(|q.e.seqs[i].tokens|, blocks, setup.blockSize);
  }

  /** A step that does not serve the request puts nobody before it, unless it preempts it. */
  lemma {:induction false} NobodyPasses(q: Queues, f: FairQueue.Fair, r: Queues, g: FairQueue.Fair, victims: set<nat>,
                                        w: Waiter, setup: Setup)
    requires setup.blockSize >= 1 && Stepped(q, r, victims, setup) && w.x in Members(q) && w.x !in r.ids
    requires Followed(q, f, w) && FairQueue.Admits(f, w.shares, |q.waiting| - |r.waiting|, g)
    requires forall v :: v in q.preempted ==> v !in q.running
    requires forall v :: v in r.preempted + r.waiting ==> v !in r.running
    requires forall v :: v in r.waiting ==> v !in r.preempted
    ensures w.x in q.running && w.x !in victims ==> w.x in r.running && Ahead(r, g, w) <= Ahead(q, f, w)
    ensures w.x in q.running && w.x in victims ==> w.x in r.preempted && w.x !in r.running
    ensures w.x !in q.running ==>
              w.x !in r.running && (w.x in r.preempted || w.x in r.waiting) && Ahead(r, g, w) <= Ahead(q, f, w)
    ensures w.x !in q.running && w.x !in r.preempted ==> InLine(g, w)
  {
    hide OnlyPublished, Displaced, Drained, FairQueue.Admits, AdmissionOrder.InOrder, InLine, Rank;
    var p: Queues, d: Queues :|
      p == q.(e := p.e) && OnlyPublished(q.e, p.e) && Displaced(p, d, victims, setup) && Drained(d, r);
    DisplacedAhead(p, d, victims, w.x, setup);
    DrainedAhead(d, f, r, g, w);
  }

  lemma {:induction false} DisplacedAhead(p: Queues, d: Queues, victims: set<nat>, x: nat, setup: Setup)
    requires setup.blockSize >= 1 && Displaced(p, d, victims, setup) && x in Members(p)
    requires forall v :: v in p.preempted ==> v !in p.running
    ensures |d.running| + |d.preempted| == |p.running| + |p.preempted| && d.waiting == p.waiting
    ensures x in p.running ==> if x in victims then x in d.preempted
                               else x in d.running && Place(d.running, x) <= Place(p.running, x)
    ensures x !in p.running && x in p.preempted ==>
              x in d.preempted && Place(d.preempted, x) == Place(p.preempted, x) && |d.running| <= |p.running|
    ensures x !in p.running && x !in p.preempted ==> x in d.waiting && x !in d.preempted
  {
    hide SameText, AllOffered, SameIndex;
    QueuedVictims(p, d, victims, setup);
    assert d.preempted == p.preempted + d.preempted[|p.preempted|..];
    PlaceAppend(p.preempted, d.preempted[|p.preempted|..], x);
  }

  lemma {:induction false} DrainedAhead(d: Queues, f: FairQueue.Fair, r: Queues, g: FairQueue.Fair, w: Waiter)
    requires Drained(d, r) && w.x !in r.ids
    requires Followed(d, f, w) && FairQueue.Admits(f, w.shares, |d.waiting| - |r.waiting|, g)
    requires forall v :: v in r.preempted + r.waiting ==> v !in r.running
    requires forall v :: v in r.waiting ==> v !in r.preempted
    ensures w.x in d.running ==> w.x in r.running && Place(r.running, w.x) == Place(d.running, w.x)
    ensures w.x in d.preempted ==> w.x in r.preempted && w.x !in r.running
                                   && Ahead(r, g, w) == |d.running| + Place(d.preempted, w.x)
    ensures w.x in d.waiting && w.x !in d.preempted ==>
              w.x in r.waiting && w.x !in r.running && w.x !in r.preempted && InLine(g, w)
              && Ahead(r, g, w) <= |d.running| + |d.preempted| + Rank(f, w)
  {
    hide FairQueue.Admits, AdmissionOrder.InOrder, InLine, Rank;
    var n, m := |d.preempted| - |r.preempted|, |d.waiting| - |r.waiting|;
    assert w.x !in Taken(d, r);
    assert d.preempted == d.preempted[..n] + r.preempted && d.waiting == d.waiting[..m] + r.waiting;
    assert w.x !in d.preempted[..n] && w.x !in d.waiting[..m];
    PlaceAppend(d.running, Taken(d, r), w.x);
    PlaceAppend(d.preempted[..n], r.preempted, w.x);
    if w.x in d.waiting { AdmitsNearer(f, w, m, g, d.waiting); }
    hide RunningKept, Listed, IsSuffix, Place;
    if w.x in r.preempted {
      assert w.x in r.preempted + r.waiting;
    } else if w.x in r.waiting {
      assert w.x in r.preempted + r.waiting;
    }
  }

  /** What happens between two steps puts nobody before the request, and if the oldest running sequence
      finishes, one fewer is. */
  lemma {:induction false} BetweenAhead(r: Queues, f: FairQueue.Fair, s: Queues, g: FairQueue.Fair, done: set<nat>,
                                        ops: seq<FairQueue.Op>, w: Waiter)
    requires Between(r, f, s, g, done, ops, w) && r.running != []
    requires w.x in r.running || w.x in r.preempted || InLine(f, w)
    ensures Ahead(s, g, w) <= Ahead(r, f, w) && (w.x in s.running <==> w.x in r.running)
    ensures r.running[0] in done ==> Ahead(s, g, w) < Ahead(r, f, w)
    ensures r.running[0] !in done ==> s.running != [] && s.running[0] == r.running[0]
  {
    hide InLine, Rank, Meanwhile, FairQueue.After;
    KeptPlace(r.running, done, w.x);
    KeptPlace(r.preempted, done, w.x);
    if w.x !in r.running && w.x !in r.preempted { MeanwhileNoFurther(f, w, ops); }
  }

  lemma {:induction false} ListsApart(q: Queues, blocks: nat, setup: Setup)
    requires Ready(q, blocks, setup)
    ensures forall v :: v in q.preempted + q.waiting ==> v !in q.running
    ensures forall v :: v in q.preempted ==> v !in q.running
    ensures forall v :: v in q.waiting ==> v !in q.preempted
  {
    forall v | v in q.preempted + q.waiting
      ensures v !in q.running && (v in q.waiting ==> v !in q.preempted)
    {
      assert Queued(q, v);
      assert v in q.running <==> v in multiset(q.running);
      assert v in q.preempted <==> v in multiset(q.preempted);
      assert v in q.waiting <==> v in multiset(q.waiting);
    }
    forall v | v in q.preempted ensures v !in q.running { assert v in q.preempted + q.waiting; }
    forall v | v in q.waiting ensures v !in q.preempted { assert v in q.preempted + q.waiting; }
  }

  // ---- a run --------------------------------------------------------------------------------

  /** One step and what follows it: the queues and the wait queue before and after the step, who
      finishes then, and who joins and leaves the wait queue. */
  datatype Round = Round(q: Queues, fair: FairQueue.Fair, r: Queues, after: FairQueue.Fair, batch: seq<Item>,
                         a: Assembly, done: set<nat>, ops: seq<FairQueue.Op>)

  ghost predicate RoundOk(o: Round, w: Waiter, n: nat, limits: Limits, blocks: nat, setup: Setup)
    requires setup.blockSize >= 1
  {
    && Healthy(o.q, limits, blocks, setup) && w.x in Members(o.q)
    && StepDone(o.q, o.r, o.batch, o.a, limits, blocks, setup)
    && Followed(o.q, o.fair, w) && FairQueue.Admits(o.fair, w.shares, |o.q.waiting| - |o.r.waiting|, o.after)
    && |o.q.running| + |o.q.preempted| <= n
  }

  /** A run of rounds in which the request does not finish and tenants come from a known set, with at
      most `n` others running or preempted at once. */
  ghost predicate RunOk(run: seq<Round>, w: Waiter, n: nat, limits: Limits, blocks: nat, setup: Setup)
    requires setup.blockSize >= 1
  {
    && (forall k :: 0 <= k < |run| ==> RoundOk(run[k], w, n, limits, blocks, setup))
    && (forall k :: 0 < k < |run| ==> Follows(run[k - 1], run[k].q, run[k].fair, w))
  }

  ghost predicate Follows(o: Round, s: Queues, g: FairQueue.Fair, w: Waiter) {
    Between(o.r, o.after, s, g, o.done, o.ops, w)
  }

  lemma {:induction false} SizeMonotone(j: nat, k: nat, bs: nat)
    requires j <= k
    ensures Size(j, bs) <= Size(k, bs) && (j < k ==> Size(j, bs) + bs <= Size(k, bs))
  {
    if j < k { SizeMonotone(j, k - 1, bs); }
  }

  /** Unless it finishes, the oldest running sequence has less to go after a round. */
  lemma {:induction false} SlackShrinks(o: Round, s: Queues, g: FairQueue.Fair, w: Waiter, n: nat, limits: Limits,
                                        blocks: nat, setup: Setup)
    requires setup.blockSize >= 1 && RoundOk(o, w, n, limits, blocks, setup) && Follows(o, s, g, w)
    ensures o.r.running != []
    ensures o.r.running[0] !in o.done ==> Slack(s, blocks, setup) < Slack(o.q, blocks, setup)
  {
    hide Healthy, StepDone, Capacity, Members, Stepped, Ready, Place, Meanwhile, FairQueue.After, FairQueue.Admits;
    OldestMovesOn(o.q, o.r, o.batch, o.a, limits, blocks, setup);
    KeptPlace(o.r.running, o.done, w.x);
    ReadyAfter(o.q, o.r, o.batch, o.a, limits, blocks, setup);
    RunningKnown(o.r, blocks, setup);
    assert o.r.running[0] in o.r.running;
    if o.r.running[0] !in o.done { assert s.running[0] in s.running; }
  }

  lemma ReadyAfter(q: Queues, r: Queues, batch: seq<Item>, a: Assembly, limits: Limits, blocks: nat, setup: Setup)
    requires setup.blockSize >= 1 && StepDone(q, r, batch, a, limits, blocks, setup)
    ensures Ready(r, blocks, setup) && Stepped(q, r, a.victims, setup)
  {}

  lemma SlackWithin(q: Queues, blocks: nat, setup: Setup)
    ensures Slack(q, blocks, setup) < Capacity(blocks, setup) + 2
  {}

  /** A round that does not serve the request uses up some of its patience, whoever arrives. */
  lemma {:induction false} PatienceRunsDown(o: Round, s: Queues, g: FairQueue.Fair, w: Waiter, n: nat, limits: Limits,
                                            blocks: nat, setup: Setup)
    requires setup.blockSize >= 1 && RoundOk(o, w, n, limits, blocks, setup) && w.x !in o.r.ids
    requires Follows(o, s, g, w) && |s.running| + |s.preempted| <= n
    ensures Patience(s, g, w, n, blocks, setup) < Patience(o.q, o.fair, w, n, blocks, setup)
  {
    hide RoundOk, Follows, Capacity, Size, Slack, Ahead, Members;
    var turn := Capacity(blocks, setup) + 2;
    SlackShrinks(o, s, g, w, n, limits, blocks, setup);
    SlackWithin(s, blocks, setup);
    WhereAfter(o, s, g, w, n, limits, blocks, setup);
    if w.x in o.q.running && w.x in o.a.victims {
      SizeMonotone(Ahead(s, g, w), n, turn);
      SizeMonotone(n, n + 1, turn);
    } else {
      SizeMonotone(Ahead(s, g, w), Ahead(o.q, o.fair, w), turn);
    }
  }

  /** Where the request stands after a round that does not serve it. */
  lemma {:induction false} WhereAfter(o: Round, s: Queues, g: FairQueue.Fair, w: Waiter, n: nat, limits: Limits,
                                      blocks: nat, setup: Setup)
    requires setup.blockSize >= 1 && RoundOk(o, w, n, limits, blocks, setup) && w.x !in o.r.ids
    requires Follows(o, s, g, w) && |s.running| + |s.preempted| <= n && o.r.running != []
    ensures w.x in o.q.running && w.x in o.a.victims ==> w.x !in s.running && Ahead(s, g, w) < n
    ensures !(w.x in o.q.running && w.x in o.a.victims) ==>
              && (w.x in s.running <==> w.x in o.q.running) && Ahead(s, g, w) <= Ahead(o.q, o.fair, w)
              && (o.r.running[0] in o.done ==> Ahead(s, g, w) < Ahead(o.q, o.fair, w))
  {
    hide StepDone, Stepped, Ready, InLine, Rank, Followed, Meanwhile, FairQueue.After, FairQueue.Admits;
    ReadyAfter(o.q, o.r, o.batch, o.a, limits, blocks, setup);
    ListsApart(o.q, blocks, setup);
    ListsApart(o.r, blocks, setup);
    NobodyPasses(o.q, o.fair, o.r, o.after, o.a.victims, w, setup);
    BetweenAhead(o.r, o.after, s, g, o.done, o.ops, w);
    KeptPlace(o.r.running, o.done, w.x);
    KeptPlace(o.r.preempted, o.done, w.x);
    PlaceAppend(s.preempted, [], w.x);
  }

  /** So within its patience it is served: in a run that is longer, some round has it in its batch. */
  lemma {:induction false} NobodyStarves(run: seq<Round>, w: Waiter, n: nat, limits: Limits, blocks: nat, setup: Setup)
    requires setup.blockSize >= 1 && RunOk(run, w, n, limits, blocks, setup) && run != []
    requires |run| > Patience(run[0].q, run[0].fair, w, n, blocks, setup) + 1
    ensures exists k :: 0 <= k < |run| && w.x in run[k].r.ids
  {
    hide RoundOk, Follows, Patience;
    if w.x !in run[0].r.ids {
      var rest := run[1..];
      assert Follows(run[0], run[1].q, run[1].fair, w) && RoundOk(run[1], w, n, limits, blocks, setup);
      NextSmall(run[1], w, n, limits, blocks, setup);
      PatienceRunsDown(run[0], run[1].q, run[1].fair, w, n, limits, blocks, setup);
      assert forall k :: 0 <= k < |rest| ==> rest[k] == run[k + 1];
      NobodyStarves(rest, w, n, limits, blocks, setup);
      var k :| 0 <= k < |rest| && w.x in rest[k].r.ids;
      assert w.x in run[k + 1].r.ids;
    }
  }

  lemma NextSmall(o: Round, w: Waiter, n: nat, limits: Limits, blocks: nat, setup: Setup)
    requires setup.blockSize >= 1 && RoundOk(o, w, n, limits, blocks, setup)
    ensures |o.q.running| + |o.q.preempted| <= n
  {}

  /** First come, first served, those that come before a waiting request are those that wait ahead of it. */
  lemma AheadInTurn(q: Queues, f: FairQueue.Fair, w: Waiter)
    requires Followed(q, f, w) && w.x in q.waiting && w.x !in q.running && w.x !in q.preempted
    requires w.names == [w.tenant]
    ensures Ahead(q, f, w) == |q.running| + |q.preempted| + Place(q.waiting, w.x)
  {
    AdmissionOrder.OneNameInTurn(f, w.shares, q.waiting, w.tenant);
    RankInTurn(f, w);
  }

  // ---- a round of the scheduler -------------------------------------------------------------

  /** What the engine asks of the scheduler between steps. */
  datatype Event =
    | Joins(id: string, lora: int, prompt: seq<Token>, rank: int, tenant: FairQueue.Tenant)
    | Samples(seqIndex: nat, token: Token)
    | Ends(seqIndex: nat)

  /** One such event, unless it would end the request followed. */
  method Handle(s: Scheduler, event: Event, w: Waiter) returns (ghost done: set<nat>, ghost ops: seq<FairQueue.Op>)
    requires s.Idle() && w.x < |s.tenants|
    requires event.Joins? ==> s.Key(event.tenant) in w.names
    modifies s, s.queue
    ensures s.Idle() && (OnFile(s, w) <== old(OnFile(s, w)))
    ensures Between(old(s.State()), old(s.queue.Value()), s.State(), s.queue.Value(), done, ops, w)
  {
    hide Between, Ready, Books, Scheduler.Ordered, FairQueue.Push, FairQueue.Remove, Inserted, Waiting;
    ghost var q, f := s.State(), s.queue.Value();
    done, ops := {}, [];
    NothingIsBetween(q, f, w);
    match event
    case Joins(id, lora, prompt, rank, tenant) =>
      var ok := s.AddSequence(id, lora, prompt, rank, tenant);
      if ok {
        ops := [FairQueue.Pushed(s.Key(tenant), |q.e.seqs|)];
        AddIsBetween(q, f, s.State(), s.queue.Value(), Waiting(lora, prompt), s.Key(tenant), w);
      }
    case Samples(i, token) =>
      if i < |s.e.seqs| {
        s.AppendToken(i, token);
        AppendIsBetween(q, s.State(), f, i, token, w);
      }
    case Ends(i) =>
      IndexSizes(s);
      if i < |s.e.seqs| && i != w.x && (s.names[i] !in s.requests || s.requests[s.names[i]] == i) {
        InFlight(s, i);
        ghost var t := s.tenants[i];
        s.Finish(i);
        done, ops := {i}, if i in q.running || i in q.preempted then [] else [FairQueue.Removed(t, i)];
        FinishIsBetween(q, f, s.State(), s.queue.Value(), i, t, w);
      }
  }

  /** The request is on file, and so are only tenants known. */
  ghost predicate OnFile(s: Scheduler, w: Waiter)
    reads s`tenants
  {
    w.x < |s.tenants| && w.tenant == s.tenants[w.x] && forall t :: t in s.tenants ==> t in w.names
  }

  lemma FollowedOnFile(s: Scheduler, w: Waiter)
    requires s.Building() && OnFile(s, w) && w.shares == s.queue.shares
    ensures Followed(s.State(), s.queue.Value(), w)
  {
    hide Scheduler.Ordered, Books, Followed;
    QueueFollowed(s, w);
  }

  /** The forward pass, and any events before the next step. */
  method Interval(s: Scheduler, events: seq<Event>, w: Waiter)
    returns (ghost done: set<nat>, ghost ops: seq<FairQueue.Op>)
    requires s.Building() && OnFile(s, w)
    requires forall k :: 0 <= k < |events| && events[k].Joins? ==> s.Key(events[k].tenant) in w.names
    modifies s, s.queue
    ensures s.Idle() && OnFile(s, w)
    ensures Between(old(s.State()), old(s.queue.Value()), s.State(), s.queue.Value(), done, ops, w)
  {
    hide Between, Scheduler.Building, Sampling.Samplers;
    ghost var r, after := s.State(), s.queue.Value();
    var sampling := s.Execute();
    ExecuteIsBetween(r, s.State(), after, w);
    done, ops := {}, [];
    for k := 0 to |events|
      invariant s.Idle() && OnFile(s, w) && Between(r, after, s.State(), s.queue.Value(), done, ops, w)
    {
      ghost var p, f := s.State(), s.queue.Value();
      ghost var gone, more;
      gone, more := Handle(s, events[k], w);
      BetweenMore(r, after, p, f, s.State(), s.queue.Value(), done, gone, ops, more, w);
      done, ops := done + gone, ops + more;
    }
  }

  /** A round: `schedule()`, the forward pass, and any events before the next. If the state before it is
      healthy, it is a round of a run as `NobodyStarves` asks for. */
  method ServeRound(s: Scheduler, events: seq<Event>, w: Waiter) returns (ghost o: Round)
    requires s.Idle() && OnFile(s, w) && w.shares == s.queue.shares
    requires forall k :: 0 <= k < |events| && events[k].Joins? ==> s.Key(events[k].tenant) in w.names
    modifies s, s.queue
    ensures s.Idle() && OnFile(s, w) && o.q == old(s.State()) && o.fair == old(s.queue.Value())
    ensures StepDone(o.q, o.r, o.batch, o.a, s.limits, s.blocks, s.setup) && Followed(o.q, o.fair, w)
    ensures FairQueue.Admits(o.fair, w.shares, |o.q.waiting| - |o.r.waiting|, o.after)
    ensures Follows(o, s.State(), s.queue.Value(), w)
  {
    hide Between, Scheduler.Building, Scheduler.Ordered, Followed, StepDone, FairQueue.Admits, OnFile, TurnsBefore;
    FollowedOnFile(s, w);
    ghost var q, fair := s.State(), s.queue.Value();
    s.ScheduleStep();
    ghost var r, after, batch, a := s.State(), s.queue.Value(), s.batch, s.Progress();
    ghost var done, ops;
    done, ops := Interval(s, events, w);
    o := Round(q, fair, r, after, batch, a, done, ops);
  }

  lemma IndexSizes(s: Scheduler)
    requires s.Building()
    ensures |s.names| == |s.tenants| == |s.e.seqs|
  {}

  lemma InFlight(s: Scheduler, i: nat)
    requires s.Building() && i < |s.e.seqs|
    requires s.names[i] !in s.requests || s.requests[s.names[i]] == i
    ensures i in Members(s.State()) || s.names[i] !in s.requests
  {}

  lemma NothingIsBetween(q: Queues, f: FairQueue.Fair, w: Waiter)
    ensures Between(q, f, q, f, {}, [], w)
  {
    KeptAll(q.running);
    KeptAll(q.preempted);
  }
}
