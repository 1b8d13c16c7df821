/** Two requests that the scheduler accepts and that then stop it for good
    (src/turboserve/engine/core/scheduler.py:496-551): one outgrows the pool, one the step. */
module StallRuns {
  import opened Prelude
  import opened KvBlocks
  import opened KvSharing
  import opened KvEngine
  import opened EngineEffects
  import opened SchedulerState
  import opened Stalls
  import opened Sampling
  import opened Preemption
  import opened BatchScheduler
  import FairQueue

  // ---- what a step does with these two ------------------------------------------------------

  lemma {:induction false} StepOfNobodyRunning(q: Queues, r: Queues, batch: seq<Item>, a: Assembly, limits: Limits,
                                               blocks: nat, setup: Setup)
    requires setup.blockSize >= 1 && StepDone(q, r, batch, a, limits, blocks, setup)
    requires q.running == q.preempted == [] && q.ids == {} && q.waiting == [0, 1]
    ensures a.victims == {} && r.preempted == []
    ensures || (r.running == [] && r.waiting == [0, 1] && r.ids == {})
            || (r.running == [0] && r.waiting == [1] && r.ids == {0})
            || (r.running == [0, 1] && r.waiting == [] && r.ids == {0, 1})
  {
    hide OnlyPublished, Displaced, Drained, Ready, BatchOk, Admissible, Demand, Stuck, FirstServed, Considered;
    var p: Queues, d: Queues :| p == q.(e := p.e) && Displaced(p, d, a.victims, setup) && Drained(d, r);
    NobodyLeft(q.running, {});
    assert a.victims == {};
    NobodyDisplaced(p, d, setup);
    TakenOfTwo(d, r);
  }

  lemma {:induction false} NobodyDisplaced(p: Queues, d: Queues, setup: Setup)
    requires setup.blockSize >= 1 && Displaced(p, d, {}, setup) && p.ids == {} && p.preempted == []
    ensures d.preempted == [] && d.waiting == p.waiting && |d.running| == |p.running|
    ensures p.running == [] ==> d.running == [] && d.ids == {}
    ensures forall v :: v in p.running ==> v in d.running && Place(d.running, v) <= Place(p.running, v)
  {
    hide SameText, AllOffered, SameIndex;
    QueuedVictims(p, d, {}, setup);
    NobodyLeft(d.preempted, {});
    if p.running == [] { NobodyLeft(d.running, {}); }
  }

  lemma {:induction false} TakenOfTwo(d: Queues, r: Queues)
    requires Drained(d, r) && d.running == d.preempted == [] && d.waiting == [0, 1] && d.ids == {}
    ensures r.preempted == []
    ensures || (r.running == [] && r.waiting == [0, 1] && r.ids == {})
            || (r.running == [0] && r.waiting == [1] && r.ids == {0})
            || (r.running == [0, 1] && r.waiting == [] && r.ids == {0, 1})
  {
    hide Drained, Listed;
    SuffixOf(d, r);
    var m := 2 - |r.waiting|;
    PrefixOfTwo(m);
    RestOfTwo(m);
  }

  lemma {:induction false} RestOfTwo(m: nat)
    requires m <= 2
    ensures [0, 1][m..] == if m == 0 then [0, 1] else if m == 1 then [1] else []
  {}

  lemma SuffixOf(d: Queues, r: Queues)
    requires Drained(d, r) && d.running == d.preempted == []
    ensures r.preempted == [] && |r.waiting| <= |d.waiting|
    ensures r.waiting == d.waiting[|d.waiting| - |r.waiting|..]
    ensures r.running == d.waiting[..|d.waiting| - |r.waiting|] && r.ids == d.ids + Listed(r.running)
  {
    assert [] + d.waiting[..|d.waiting| - |r.waiting|] == d.waiting[..|d.waiting| - |r.waiting|];
  }

  lemma {:induction false} PrefixOfTwo(m: nat)
    requires m <= 2
    ensures [0, 1][..m] == (if m == 0 then [] else if m == 1 then [0] else [0, 1])
    ensures Listed([0, 1][..m]) == if m == 0 then {} else if m == 1 then {0} else {0, 1}
  {}

  /** Two running sequences, the second of which may be preempted; nobody is queued. */
  lemma {:induction false} StepOfTwoRunning(q: Queues, r: Queues, batch: seq<Item>, a: Assembly, limits: Limits,
                                            blocks: nat, setup: Setup)
    requires setup.blockSize >= 1 && StepDone(q, r, batch, a, limits, blocks, setup) && 0 in r.ids
    requires q.running == [0, 1] && q.preempted == q.waiting == [] && q.ids == {}
    ensures r.waiting == [] && 0 !in a.victims
    ensures if 1 in a.victims then r.running == [0] && r.preempted == [1] && r.ids == {0}
            else r.running == [0, 1] && r.preempted == []
  {
    hide OnlyPublished, Displaced, Drained, Ready, BatchOk, Admissible, Demand, Stuck, FirstServed, Considered;
    var p: Queues, d: Queues :| p == q.(e := p.e) && Displaced(p, d, a.victims, setup) && Drained(d, r);
    assert 0 in q.running && 1 in q.running;
    TwoDisplaced(p, d, a.victims, setup);
    NobodyTaken(d, r, a.victims);
  }

  lemma {:induction false} TwoDisplaced(p: Queues, d: Queues, victims: set<nat>, setup: Setup)
    requires setup.blockSize >= 1 && Displaced(p, d, victims, setup)
    requires p.running == [0, 1] && p.preempted == p.waiting == [] && 0 !in victims
    ensures d.waiting == []
    ensures if 1 in victims then d.running == [0] && d.preempted == [1] else d.running == [0, 1] && d.preempted == []
    ensures forall v :: v in d.ids ==> v in p.ids || v == 0 || v == 1
  {
    hide SameText, AllOffered, SameIndex;
    QueuedVictims(p, d, victims, setup);
    assert 0 in p.running && 1 in p.running;
    assert Place(p.running, 0) == 0 && Place(p.running, 1) == 1;
    OnlyThose(d.preempted, 1);
    FirstAt(d.running, 0);
    if 1 in victims {
      assert 1 in d.preempted;
    } else {
      NobodyLeft(d.preempted, {});
      SecondAt(d.running, 1);
    }
  }

  lemma {:induction false} OnlyThose(s: seq<nat>, x: nat)
    requires forall y :: y in s ==> y == x
    ensures |s| == 1 ==> s == [x]
  {
    if |s| == 1 { assert s[0] in s; }
  }

  lemma FirstAt(s: seq<nat>, x: nat)
    requires x in s && Place(s, x) == 0
    ensures s != [] && s[0] == x
  {}

  lemma SecondAt(s: seq<nat>, x: nat)
    requires x in s && Place(s, x) <= 1 && |s| == 2 && s[0] != x
    ensures s == [s[0], x]
  {}

  lemma InNeither(s: seq<nat>, a: set<nat>, b: set<nat>)
    requires (forall v :: v in s ==> v in a) && forall v :: v in s ==> v in b
    ensures a !! b ==> s == []
  {
    if s != [] { assert s[0] in a * b; }
  }

  lemma {:induction false} NobodyTaken(d: Queues, r: Queues, victims: set<nat>)
    requires Drained(d, r) && d.waiting == [] && r.ids !! victims && (forall v :: v in d.preempted ==> v in victims)
    ensures r.running == d.running && r.preempted == d.preempted && r.waiting == [] && r.ids == d.ids
  {
    var n := |d.preempted| - |r.preempted|;
    assert d.waiting[..|d.waiting| - |r.waiting|] == [];
    assert d.preempted[..n] + [] == d.preempted[..n];
    assert forall v :: v in d.preempted[..n] ==> v in d.preempted;
    InNeither(d.preempted[..n], r.ids, victims);
    assert d.preempted[..0] == [] && d.running + [] == d.running && Listed([]) == {};
  }

  // ---- outgrowing the step ------------------------------------------------------------------

  /** Four blocks of one token, no prefix cache. */
  const FOUR := Setup(1, false)

  /** Two tokens and two sequences a step. */
  predicate TwoAStep(limits: Limits) { limits.maxTokens == limits.maxSeqs == 2 }

  lemma {:induction false} NeededOne(n: nat)
    ensures Needed(n, 1) == n
  {
    NeededFits(n, n, 1);
    SizeOne(n);
    if n > 0 {
      SizeOne(n - 1);
      NeededFits(n, n - 1, 1);
    }
  }

  lemma {:induction false} SizeOne(n: nat)
    ensures Size(n, 1) == n
  {
    if n > 0 { SizeOne(n - 1); }
  }

  /** The room two sequences leave: a block for each computed token of either is gone. */
  lemma {:induction false} RoomOfTwo(q: Queues)
    requires Ready(q, 4, FOUR) && |q.e.seqs| == 2
    ensures NoIndex(q.e.pool) && Allocatable(q.e.pool) == 4 - q.e.seqs[0].computed - q.e.seqs[1].computed
    ensures |q.e.seqs[0].table| == q.e.seqs[0].computed && |q.e.seqs[1].table| == q.e.seqs[1].computed
  {
    hide Reachable, Queued, Allocatable, Needed;
    UncachedRoom(q.e, 4, FOUR);
    NeededOne(q.e.seqs[0].computed);
    NeededOne(q.e.seqs[1].computed);
    assert Tight(q.e.seqs[0], 1) && Tight(q.e.seqs[1], 1);
    OwnedByTwo(q.e.seqs);
  }

  lemma {:induction false} OwnedByTwo(seqs: seq<Live>)
    requires |seqs| == 2
    ensures |Owned(seqs)| == |seqs[0].table| + |seqs[1].table|
  {
    assert seqs[1..][1..] == [];
    assert Owned(seqs[1..]) == multiset(seqs[1].table);
  }

  lemma {:induction false} ComputedBounds(q: Queues, i: nat, blocks: nat, setup: Setup)
    requires Ready(q, blocks, setup) && i < |q.e.seqs|
    ensures q.e.seqs[i].written <= q.e.seqs[i].computed <= |q.e.seqs[i].tokens|
    ensures i !in q.running ==> q.e.seqs[i].computed == 0
    ensures i !in q.ids ==> q.e.seqs[i].written == q.e.seqs[i].computed
  {
    ProgressOrdered(q.e, i, blocks, setup);
    assert Queued(q, i);
    assert i in q.running <==> i in multiset(q.running);
  }

  lemma {:induction false} CountOf(r: Queues, batch: seq<Item>, i: nat)
    requires BatchOk(r.e, batch, r.ids) && i in r.ids
    ensures i < |r.e.seqs| && r.e.seqs[i].computed > r.e.seqs[i].written
    ensures r.ids == {i} ==> |batch| == 1 && Tokens(batch) == r.e.seqs[i].computed - r.e.seqs[i].written
  {
    var k: nat :| k < |batch| && batch[k].seqIndex == i;
    assert Pending(r.e, batch[k]);
    if r.ids == {i} {
      assert k == 0 && batch[..0] == [];
      assert Tokens(batch[..0]) == 0;
    }
  }

  /** The first step admits both. */
  lemma {:induction false} BothAdmitted(q: Queues, r: Queues, batch: seq<Item>, a: Assembly, limits: Limits)
    requires TwoAStep(limits) && Ready(q, 4, FOUR) && StepDone(q, r, batch, a, limits, 4, FOUR)
    requires q.running == q.preempted == [] && q.waiting == [0, 1] && q.ids == {} && |q.e.seqs| == 2
    requires |q.e.seqs[0].tokens| == |q.e.seqs[1].tokens| == 1
    ensures r.running == [0, 1] && r.preempted == r.waiting == [] && |r.e.seqs| == 2
    ensures r.e.seqs[0].computed == r.e.seqs[1].computed == 1
  {
    hide Ready, BatchOk, Admissible, Stuck, Stepped, FirstServed, Considered, Demand, SameText;
    StepOfNobodyRunning(q, r, batch, a, limits, 4, FOUR);
    BothFit(q, limits);
    EmptyExactly(r.e, batch, r.ids);
    SameTextAt(q.e, r.e, 0);
    SameTextAt(q.e, r.e, 1);
    SameCount(q.e, r.e);
    if r.ids == {0} { SecondAdmissible(r, batch, a, limits); }
    assert r.ids == {0, 1};
    CountOf(r, batch, 0);
    CountOf(r, batch, 1);
    ComputedBounds(r, 0, 4, FOUR);
    ComputedBounds(r, 1, 4, FOUR);
  }

  lemma SameCount(e: Engine, f: Engine)
    requires SameText(e, f)
    ensures |f.seqs| == |e.seqs|
  {}

  lemma {:induction false} BothFit(q: Queues, limits: Limits)
    requires TwoAStep(limits) && Ready(q, 4, FOUR)
    requires q.running == q.preempted == [] && q.waiting == [0, 1] && q.ids == {}
    requires |q.e.seqs| == 2 && |q.e.seqs[0].tokens| == |q.e.seqs[1].tokens| == 1
    ensures !Stuck(q, limits, 4, FOUR)
  {
    hide Ready, Needed, Stuck;
    NeededOne(1);
    assert q.waiting[0] in Members(q);
    FittingNeverStuck(q, limits, 4, FOUR);
  }

  lemma {:induction false} SecondAdmissible(r: Queues, batch: seq<Item>, a: Assembly, limits: Limits)
    requires TwoAStep(limits) && Ready(r, 4, FOUR) && BatchOk(r.e, batch, r.ids) && r.ids == {0} && a.victims == {}
    requires Tokens(batch) + a.tokensLeft == 2 && |batch| + a.seqsLeft == 2
    requires r.running == [0] && r.preempted == [] && r.waiting == [1] && |r.e.seqs| == 2
    requires |r.e.seqs[0].tokens| == |r.e.seqs[1].tokens| == 1
    ensures a.tokensLeft > 0 && a.seqsLeft > 0 && Admissible(r, a.victims, a.tokensLeft, limits, FOUR)
  {
    CountOf(r, batch, 0);
    ComputedBounds(r, 0, 4, FOUR);
    ComputedBounds(r, 1, 4, FOUR);
    RoomOfTwo(r);
    NeededOne(1);
    hide Ready, BatchOk, Needed, Tokens, Allocatable;
    NoHits(r.e.pool, r.e.seqs[1], 1);
  }

  /** A step over both running: the first is served; the second too, unless it is preempted. */
  lemma {:induction false} ServedTogether(q: Queues, r: Queues, batch: seq<Item>, a: Assembly, n: nat, limits: Limits)
    requires TwoAStep(limits) && Ready(q, 4, FOUR) && StepDone(q, r, batch, a, limits, 4, FOUR) && n <= 3
    requires q.running == [0, 1] && q.preempted == q.waiting == [] && q.ids == {} && |q.e.seqs| == 2
    requires q.e.seqs[0].computed == q.e.seqs[1].computed == n
    requires |q.e.seqs[0].tokens| == |q.e.seqs[1].tokens| == n + 1
    ensures |r.e.seqs| == 2 && 0 in r.ids && r.e.seqs[0].computed == n + 1
    ensures 1 in a.victims || (1 in r.ids && r.e.seqs[1].computed == n + 1)
  {
    hide Ready, BatchOk, Admissible, Stuck, Stepped, Demand, SameText, Needed, Tokens;
    SameTextAt(q.e, r.e, 0);
    SameTextAt(q.e, r.e, 1);
    SameCount(q.e, r.e);
    FirstOfBoth(q, n, limits);
    hide ChunkOutgrown;
    CountOf(r, batch, 0);
    SteppedRunning(q, r, a.victims, 0, FOUR);
    SteppedRunning(q, r, a.victims, 1, FOUR);
    ComputedBounds(q, 0, 4, FOUR);
    ComputedBounds(q, 1, 4, FOUR);
    ComputedBounds(r, 0, 4, FOUR);
    ComputedBounds(r, 1, 4, FOUR);
    assert 1 in q.running && Considered(q.e, 1, a);
    if 1 in r.ids {
      CountOf(r, batch, 1);
    } else if 1 !in a.victims {
      OnlyOnes(r, 4, FOUR);
    }
  }

  lemma {:induction false} OnlyOnes(r: Queues, blocks: nat, setup: Setup)
    requires Ready(r, blocks, setup) && |r.e.seqs| == 2 && 0 in r.ids && 1 !in r.ids
    ensures r.ids == {0}
  {
    forall v | v in r.ids ensures v == 0 { assert Queued(r, v); }
  }

  lemma {:induction false} FirstOfBoth(q: Queues, n: nat, limits: Limits)
    requires TwoAStep(limits) && q.running == [0, 1] && |q.e.seqs| == 2 && n <= 3
    requires q.e.seqs[0].computed == n && |q.e.seqs[0].tokens| == n + 1
    ensures FirstCarried(q.e, q.running, limits) == Some(0) && !ChunkOutgrown(q.e, 0, limits, 4, 1)
  {
    hide Needed;
    NeededOne(n + 1);
    assert [0, 1][..1] == [0] && [0][..0] == [];
    assert FirstCarried(q.e, [0], limits) == Some(0);
  }

  lemma {:induction false} RoomForBoth(q: Queues, limits: Limits)
    requires TwoAStep(limits) && Ready(q, 4, FOUR) && q.running == [0, 1] && |q.e.seqs| == 2
    requires q.e.seqs[0].computed == q.e.seqs[1].computed == 1
    requires |q.e.seqs[0].tokens| == |q.e.seqs[1].tokens| == 2
    ensures Demand(q.e, q.running, limits, 1) <= Allocatable(q.e.pool)
  {
    RoomOfTwo(q);
    hide Ready, Needed, Allocatable;
    NeededOne(2);
    assert [0, 1][1..] == [1] && [1][1..] == [];
    assert ShareOf(q.e, 0, limits, 1) == 1 && ShareOf(q.e, 1, limits, 1) == 1;
    assert Demand(q.e, [1], limits, 1) == 1;
  }

  lemma {:induction false} BothServed(q: Queues, r: Queues, batch: seq<Item>, a: Assembly, limits: Limits)
    requires TwoAStep(limits) && Ready(q, 4, FOUR) && StepDone(q, r, batch, a, limits, 4, FOUR)
    requires q.running == [0, 1] && q.preempted == q.waiting == [] && q.ids == {} && |q.e.seqs| == 2
    requires q.e.seqs[0].computed == q.e.seqs[1].computed == 1
    requires |q.e.seqs[0].tokens| == |q.e.seqs[1].tokens| == 2
    ensures r.running == [0, 1] && r.preempted == r.waiting == [] && |r.e.seqs| == 2
    ensures r.e.seqs[0].computed == r.e.seqs[1].computed == 2
  {
    ServedTogether(q, r, batch, a, 1, limits);
    RoomForBoth(q, limits);
    hide Ready, BatchOk, Admissible, Stuck, Stepped, FirstServed, Considered, Demand, SameText;
    StepOfTwoRunning(q, r, batch, a, limits, 4, FOUR);
  }

  lemma {:induction false} SecondPreempted(q: Queues, r: Queues, batch: seq<Item>, a: Assembly, limits: Limits)
    requires TwoAStep(limits) && Ready(q, 4, FOUR) && StepDone(q, r, batch, a, limits, 4, FOUR)
    requires q.running == [0, 1] && q.preempted == q.waiting == [] && q.ids == {} && |q.e.seqs| == 2
    requires q.e.seqs[0].computed == q.e.seqs[1].computed == 2
    requires |q.e.seqs[0].tokens| == |q.e.seqs[1].tokens| == 3
    ensures r.running == [0] && r.preempted == [1] && r.waiting == [] && |r.e.seqs| == 2
  {
    ServedTogether(q, r, batch, a, 2, limits);
    RoomOfTwo(r);
    hide Ready, BatchOk, Admissible, Stuck, Stepped, FirstServed, Considered, Demand, SameText;
    StepOfTwoRunning(q, r, batch, a, limits, 4, FOUR);
  }

  /** The preempted one is alone now, fits the pool, but has outgrown the step. */
  lemma {:induction false} LeftOver(q: Queues, limits: Limits)
    requires TwoAStep(limits) && !limits.chunked && Ready(q, 4, FOUR)
    requires q.running == [] && q.preempted == [1] && q.waiting == [] && |q.e.seqs| == 2
    requires |q.e.seqs[1].tokens| == 3
    ensures Stuck(q, limits, 4, FOUR) && !Outgrown(q.e, 1, 4, 1)
  {
    UncachedRoom(q.e, 4, FOUR);
    NeededOne(3);
    NoHits(q.e.pool, q.e.seqs[1], 1);
    hide Ready, Needed, CanAllocate, Credit;
    assert AllPublished(q.e, [], FOUR) == q.e && q.(e := q.e) == q;
  }

  // ---- outgrowing the pool ------------------------------------------------------------------

  /** One block of one token. */
  const ONE := Setup(1, true)
  const SINGLE := Limits(1, 1, true)

  lemma {:induction false} OnlyHeadAdmitted(q: Queues, r: Queues, batch: seq<Item>, a: Assembly)
    requires Ready(q, 1, ONE) && StepDone(q, r, batch, a, SINGLE, 1, ONE)
    requires q.running == q.preempted == [] && q.waiting == [0, 1] && q.ids == {} && |q.e.seqs| == 2
    requires |q.e.seqs[0].tokens| == |q.e.seqs[1].tokens| == 1
    ensures r.running == [0] && r.preempted == [] && r.waiting == [1] && |r.e.seqs| == 2
    ensures r.e.seqs[0].computed == 1
  {
    hide Ready, Admissible, Stuck, Stepped, FirstServed, Considered, Demand, SameText;
    StepOfNobodyRunning(q, r, batch, a, SINGLE, 1, ONE);
    OneFits(q);
    EmptyExactly(r.e, batch, r.ids);
    SameTextAt(q.e, r.e, 0);
    SameCount(q.e, r.e);
    assert r.ids == {0};
    CountOf(r, batch, 0);
    ComputedBounds(r, 0, 1, ONE);
  }

  lemma {:induction false} OneFits(q: Queues)
    requires Ready(q, 1, ONE) && q.running == q.preempted == [] && q.waiting == [0, 1] && q.ids == {}
    requires |q.e.seqs| == 2 && |q.e.seqs[0].tokens| == |q.e.seqs[1].tokens| == 1
    ensures !Stuck(q, SINGLE, 1, ONE)
  {
    hide Ready, Needed, Stuck;
    NeededOne(1);
    assert q.waiting[0] in Members(q);
    FittingNeverStuck(q, SINGLE, 1, ONE);
  }

  lemma {:induction false} RunnerPreempted(q: Queues, r: Queues, batch: seq<Item>, a: Assembly)
    requires Ready(q, 1, ONE) && StepDone(q, r, batch, a, SINGLE, 1, ONE)
    requires q.running == [0] && q.preempted == [] && q.waiting == [1] && q.ids == {} && |q.e.seqs| == 2
    requires q.e.seqs[0].computed == 1 && |q.e.seqs[0].tokens| == 2
    ensures batch == [] && r.running == [] && r.preempted == [0] && r.waiting == [1] && |r.e.seqs| == 2
  {
    RunnerStuck(q);
    hide Ready, Admissible, Stuck, OnlyPublished, Displaced, Drained, FirstServed, Demand, SameText;
    EmptyExactly(r.e, batch, r.ids);
    NoTokens();
    SameCount(q.e, r.e);
    assert 0 in q.running && Considered(q.e, 0, a);
    var p: Queues, d: Queues :| p == q.(e := p.e) && Displaced(p, d, a.victims, ONE) && Drained(d, r);
    OneDisplaced(p, d, a.victims);
    NobodyAdmitted(d, r);
  }

  lemma {:induction false} OneDisplaced(p: Queues, d: Queues, victims: set<nat>)
    requires Displaced(p, d, victims, ONE) && 0 in victims && p.running == [0] && p.preempted == []
    ensures d.running == [] && d.preempted == [0] && d.waiting == p.waiting
  {
    hide SameText, AllOffered, SameIndex, Place;
    QueuedVictims(p, d, victims, ONE);
    assert 0 in d.preempted;
    OnlyThose(d.preempted, 0);
  }

  lemma {:induction false} NobodyAdmitted(d: Queues, r: Queues)
    requires Drained(d, r) && r.ids == {}
    ensures r.running == d.running && r.preempted == d.preempted && r.waiting == d.waiting
  {
    assert forall v :: v in Taken(d, r) ==> v in Listed(Taken(d, r));
    NobodyLeft(Taken(d, r), {});
    assert d.running + [] == d.running;
  }

  lemma {:induction false} RunnerStuck(q: Queues)
    requires Ready(q, 1, ONE) && q.running == [0] && q.preempted == [] && q.ids == {} && |q.e.seqs| == 2
    requires q.e.seqs[0].computed == 1 && |q.e.seqs[0].tokens| == 2
    ensures Stuck(q, SINGLE, 1, ONE)
  {
    assert q.running[..1] == q.running && q.running[..0] == [];
    AllPublishedKeeps(q, 1, 1, ONE);
    hide Ready, Needed, AllPublished;
    NeededOne(2);
    var f := AllPublished(q.e, q.running, ONE);
    assert FirstCarried(f, q.running, SINGLE) == Some(0);
  }

  lemma {:induction false} GrownHead(q: Queues)
    requires Ready(q, 1, ONE) && q.running == [] && q.preempted == [0] && q.waiting == [1] && |q.e.seqs| == 2
    requires |q.e.seqs[0].tokens| == 2 && |q.e.seqs[1].tokens| == 1
    ensures Stuck(q, SINGLE, 1, ONE) && Fits(q.e, 1, SINGLE, 1, 1)
  {
    hide Ready, Needed, CanAllocate;
    NeededOne(1);
    NeededOne(2);
    assert AllPublished(q.e, [], ONE) == q.e && q.(e := q.e) == q;
    AdmissibleAlone(q, {}, 1, SINGLE, 1, ONE);
  }

  // ---- the runs -----------------------------------------------------------------------------

  /** Two requests of one token, first come, first served. */
  method TwoQueued(blocks: nat, setup: Setup, limits: Limits, t: Token) returns (s: Scheduler)
    requires setup.blockSize == 1 && blocks >= 1 && limits.maxTokens >= 1
    ensures fresh(s) && fresh(s.queue) && s.Idle() && s.ids == {}
    ensures s.blocks == blocks && s.setup == setup && s.limits == limits
    ensures s.running == s.preempted == [] && s.waiting == [0, 1] && s.prompts == [1, 1]
    ensures |s.e.seqs| == 2 && s.e.seqs[0].tokens == s.e.seqs[1].tokens == [t]
  {
    hide Ready, Registry, BatchOk, Tokens, Members, Needed, Books, Inserted, FairQueue.Push, Scheduler.Building;
    s := new Scheduler(blocks, setup, limits, false, map[]);
    NeededOne(1);
    var first := s.AddSequence("a", 0, [t], 0, "");
    assert first && s.e.seqs == [Waiting(0, [t])] && s.prompts == [1] && "a"[0] != "b"[0];
    var second := s.AddSequence("b", 0, [t], 0, "");
    assert second && s.e.seqs == [Waiting(0, [t]), Waiting(0, [t])];
    assert [] + [0] + [1] == [0, 1];
    Standing(s);
  }

  lemma Standing(s: Scheduler)
    requires s.Building()
    ensures Ready(s.State(), s.blocks, s.setup) && |s.tenants| == |s.names| == |s.e.seqs|
    ensures s.batch == [] ==> s.ids == {}
  {
    EmptyExactly(s.e, s.batch, s.ids);
  }

  lemma StepText(q: Queues, r: Queues, batch: seq<Item>, a: Assembly, limits: Limits, blocks: nat, setup: Setup)
    requires setup.blockSize >= 1 && StepDone(q, r, batch, a, limits, blocks, setup)
    ensures |r.e.seqs| == |q.e.seqs|
    ensures forall i: nat :: i < |q.e.seqs| ==> r.e.seqs[i].tokens == q.e.seqs[i].tokens
  {}

  /** In a pool of one block of one token the first of them starts. */
  method FirstStarts(t: Token) returns (s: Scheduler)
    ensures fresh(s) && fresh(s.queue) && s.Idle() && s.ids == {}
    ensures s.blocks == 1 && s.setup == ONE && s.limits == SINGLE
    ensures s.running == [0] && s.preempted == [] && s.waiting == [1] && |s.e.seqs| == 2
    ensures |s.e.seqs[0].tokens| == |s.e.seqs[1].tokens| == 1 && s.e.seqs[0].computed == 1
  {
    hide Ready, BatchOk, StepDone, Tokens, SameText, Members, Samplers, Scheduler.Building, FairQueue.Admits;
    hide TurnsBefore;
    s := TwoQueued(1, ONE, SINGLE, t);
    ghost var q := s.State();
    Standing(s);
    s.ScheduleStep();
    OnlyHeadAdmitted(q, s.State(), s.batch, s.Progress());
    StepText(q, s.State(), s.batch, s.Progress(), SINGLE, 1, ONE);
    var sampling := s.Execute();
  }

  /** Admission looks at the prompt only. The first request samples a second token, which has no room:
      the next step preempts it, and from then on it heads the queue and nothing is scheduled,
      although the second request fits. */
  method GrownPastThePool(t: Token, u: Token) returns (s: Scheduler)
    ensures fresh(s) && fresh(s.queue) && s.Idle() && s.blocks == 1 && s.setup == ONE && s.limits == SINGLE
    ensures s.running == [] && s.preempted == [0] && s.waiting == [1]
    ensures Stuck(s.State(), SINGLE, 1, ONE) && Fits(s.e, 1, SINGLE, 1, 1)
  {
    hide TurnsBefore, Ready, BatchOk, StepDone, Tokens, SameText, Members, Stuck, Fits, Scheduler.Building;
    s := FirstStarts(t);
    s.AppendToken(0, u);
    ghost var q := s.State();
    Standing(s);
    s.ScheduleStep();
    Standing(s);
    RunnerPreempted(q, s.State(), s.batch, s.Progress());
    StepText(q, s.State(), s.batch, s.Progress(), SINGLE, 1, ONE);
    GrownHead(s.State());
  }

  /** Both run, with all `n` of their tokens computed. */
  ghost predicate BothRun(s: Scheduler, n: nat, limits: Limits)
    reads s, s.queue
  {
    && s.Idle() && s.ids == {} && s.blocks == 4 && s.setup == FOUR && s.limits == limits && s.prompts == [1, 1]
    && s.running == [0, 1] && s.preempted == s.waiting == [] && |s.e.seqs| == 2
    && |s.e.seqs[0].tokens| == |s.e.seqs[1].tokens| == n
    && s.e.seqs[0].computed == s.e.seqs[1].computed == n
  }

  /** In a pool of four such blocks both start. */
  method BothStart(t: Token, limits: Limits) returns (s: Scheduler)
    requires TwoAStep(limits)
    ensures fresh(s) && fresh(s.queue) && BothRun(s, 1, limits)
  {
    hide Ready, BatchOk, StepDone, Tokens, SameText, Members, Samplers, Scheduler.Building, FairQueue.Admits;
    hide TurnsBefore;
    s := TwoQueued(4, FOUR, limits, t);
    ghost var q := s.State();
    Standing(s);
    s.ScheduleStep();
    BothAdmitted(q, s.State(), s.batch, s.Progress(), limits);
    StepText(q, s.State(), s.batch, s.Progress(), limits, 4, FOUR);
    var sampling := s.Execute();
  }

  /** Both sample a token and compute it. */
  method BothGoOn(s: Scheduler, u: Token, ghost limits: Limits)
    requires TwoAStep(limits) && BothRun(s, 1, limits)
    modifies s, s.queue
    ensures BothRun(s, 2, limits)
  {
    hide Ready, BatchOk, StepDone, Tokens, SameText, Members, Samplers, Scheduler.Building, FairQueue.Admits;
    hide TurnsBefore;
    s.AppendToken(0, u);
    s.AppendToken(1, u);
    ghost var q := s.State();
    Standing(s);
    s.ScheduleStep();
    BothServed(q, s.State(), s.batch, s.Progress(), limits);
    StepText(q, s.State(), s.batch, s.Progress(), limits, 4, FOUR);
    var sampling := s.Execute();
  }

  /** Both sample another; there is room for the first one's only, and the second is preempted with
      three tokens, more than a step takes. */
  method SecondGoes(s: Scheduler, u: Token, ghost limits: Limits)
    requires TwoAStep(limits) && BothRun(s, 2, limits)
    modifies s, s.queue
    ensures s.Idle() && s.running == [0] && s.preempted == [1] && s.waiting == []
    ensures |s.e.seqs| == 2 && |s.e.seqs[1].tokens| == 3 && s.prompts == [1, 1]
  {
    hide Ready, BatchOk, StepDone, Tokens, SameText, Members, Samplers, Scheduler.Building, FairQueue.Admits;
    hide TurnsBefore;
    s.AppendToken(0, u);
    s.AppendToken(1, u);
    ghost var q := s.State();
    Standing(s);
    s.ScheduleStep();
    SecondPreempted(q, s.State(), s.batch, s.Progress(), limits);
    StepText(q, s.State(), s.batch, s.Progress(), limits, 4, FOUR);
    var sampling := s.Execute();
  }

  /** Once the first request has finished, the whole pool is free for the preempted one, which fits
      it. */
  method SecondLeft(t: Token, u: Token, limits: Limits) returns (s: Scheduler)
    requires TwoAStep(limits)
    ensures fresh(s) && fresh(s.queue) && s.Idle() && s.blocks == 4 && s.setup == FOUR && s.limits == limits
    ensures s.running == [] && s.preempted == [1] && s.waiting == [] && s.prompts == [1, 1]
    ensures |s.e.seqs| == 2 && |s.e.seqs[1].tokens| == 3
  {
    hide Ready, BatchOk, StepDone, Tokens, SameText, Members, Samplers, Scheduler.Building, FairQueue.Admits;
    hide TurnsBefore;
    s := BothStart(t, limits);
    BothGoOn(s, u, limits);
    SecondGoes(s, u, limits);
    Standing(s);
    FirstListed(s.State());
    TextAt(s.e, 1);
    s.Finish(0);
  }

  /** Where a prompt may not be split, admission looks at no more than the prompt either, and the
      preempted request is released in every step. */
  method GrownPastTheStep(t: Token, u: Token, limits: Limits) returns (s: Scheduler)
    requires TwoAStep(limits) && !limits.chunked
    ensures fresh(s) && fresh(s.queue) && s.Idle() && s.blocks == 4 && s.setup == FOUR && s.limits == limits
    ensures s.running == [] && s.preempted == [1] && s.waiting == []
    ensures Stuck(s.State(), limits, 4, FOUR) && !Outgrown(s.e, 1, 4, 1)
  {
    hide Ready, BatchOk, Stuck, Outgrown, Scheduler.Building;
    s := SecondLeft(t, u, limits);
    Standing(s);
    LeftOver(s.State(), limits);
  }

  lemma TextAt(e: Engine, i: nat)
    ensures forall f :: SameText(e, f) && i < |e.seqs| ==> |f.seqs| == |e.seqs| && f.seqs[i].tokens == e.seqs[i].tokens
  {}

  lemma FirstListed(q: Queues)
    requires q.running == [0]
    ensures 0 in Members(q) && Without(q.running, 0) == [] && (q.preempted == [1] ==> Without(q.preempted, 0) == [1])
  {
    assert 0 in q.running;
  }
}
