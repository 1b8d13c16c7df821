/** When a scheduling step schedules nobody, exactly
    (src/turboserve/engine/core/scheduler.py:606-711). */
module Stalls {
  import opened Prelude
  import opened KvBlocks
  import opened KvSharing
  import opened KvEngine
  import opened EngineEffects
  import opened SchedulerState

  function Uncomputed(s: Live): nat {
    if s.computed <= |s.tokens| then |s.tokens| - s.computed else 0
  }

  /** Tokens a sequence would compute next within `budget`. */
  function NextTokens(s: Live, budget: nat): nat {
    if budget <= Uncomputed(s) then budget else Uncomputed(s)
  }

  // ---- why a sequence cannot go on ----------------------------------------------------------

  /** Blocks the whole sequence needs exceed the pool. */
  predicate Outgrown(e: Engine, i: nat, blocks: nat, bs: nat)
    requires bs >= 1
  {
    i < |e.seqs| && Needed(|e.seqs[i].tokens|, bs) > blocks
  }

  /** The next chunk of a running sequence would end beyond the pool. */
  predicate ChunkOutgrown(e: Engine, i: nat, limits: Limits, blocks: nat, bs: nat)
    requires bs >= 1
  {
    i < |e.seqs| && Needed(e.seqs[i].computed + NextTokens(e.seqs[i], limits.maxTokens), bs) > blocks
  }

  /** What the cache would leave to compute of a sequence admitted now does not fit `budget`, and may
      not be split. */
  predicate TooLong(e: Engine, i: nat, budget: nat, limits: Limits, bs: nat)
    requires bs >= 1
  {
    i < |e.seqs| && !limits.chunked && |e.seqs[i].tokens| - Credit(e.pool, e.seqs[i], bs) > budget
  }

  /** A running sequence a whole step could carry: it has a token to compute, and the step may split
      what it has or need not. */
  predicate Carried(e: Engine, i: nat, limits: Limits) {
    && i < |e.seqs| && Uncomputed(e.seqs[i]) >= 1
    && (limits.chunked || Uncomputed(e.seqs[i]) <= limits.maxTokens)
  }

  function FirstCarried(e: Engine, s: seq<nat>, limits: Limits): (r: Option<nat>)
    ensures r.None? <==> forall v :: v in s ==> !Carried(e, v, limits)
    ensures r.Some? ==> r.value in s && Carried(e, r.value, limits)
  {
    if s == [] then None
    else
      var front := FirstCarried(e, s[..|s| - 1], limits);
      if front.Some? then front else if Carried(e, s[|s| - 1], limits) then Some(s[|s| - 1]) else None
  }

  // ---- admission ----------------------------------------------------------------------------

  /** The head of the queue was not preempted in this step, the pool can take it, and so can what is
      left of the token budget. */
  predicate Admissible(q: Queues, victims: set<nat>, budget: nat, limits: Limits, setup: Setup)
    requires setup.blockSize >= 1
  {
    && q.preempted + q.waiting != [] && Head(q) !in victims && Head(q) < |q.e.seqs|
    && CanAllocate(q.e.pool, q.e.seqs[Head(q)], setup.blockSize)
    && !TooLong(q.e, Head(q), budget, limits, setup.blockSize)
  }

  /** With nobody running, that means: it fits the pool and the budget. */
  lemma {:induction false} AdmissibleAlone(q: Queues, victims: set<nat>, budget: nat, limits: Limits, blocks: nat,
                                           setup: Setup)
    requires Ready(q, blocks, setup) && q.running == [] && q.preempted + q.waiting != []
    ensures Admissible(q, victims, budget, limits, setup)
            <==> Head(q) !in victims && !Outgrown(q.e, Head(q), blocks, setup.blockSize)
                 && !TooLong(q.e, Head(q), budget, limits, setup.blockSize)
  {
    hide Ready, CanAllocate, Needed, Credit;
    HeadAdmittedAlone(q, blocks, setup);
  }

  // ---- stuck --------------------------------------------------------------------------------

  /** What publishing everybody's completed blocks makes of the engine. */
  function AllPublished(e: Engine, running: seq<nat>, setup: Setup): (f: Engine)
    requires setup.blockSize >= 1
  {
    if running == [] then e
    else
      var f := AllPublished(e, running[..|running| - 1], setup);
      var r := Step(f, Offer(running[|running| - 1]), setup);
      if r.Some? then r.value else f
  }

  /** After publication nothing can be scheduled. If a step could carry anybody running, the first
      such sequence's next chunk exceeds the pool, so that it preempts everybody and then itself, and
      the head of the preempted queue is one of those or fits neither the pool nor, unsplit, the
      step. Otherwise the queue is empty or its head is not admitted. */
  predicate NothingFits(q: Queues, limits: Limits, blocks: nat, setup: Setup)
    requires setup.blockSize >= 1
  {
    match FirstCarried(q.e, q.running, limits)
    case Some(i) =>
      && ChunkOutgrown(q.e, i, limits, blocks, setup.blockSize)
      && (q.preempted == [] || Outgrown(q.e, q.preempted[0], blocks, setup.blockSize)
          || TooLong(q.e, q.preempted[0], limits.maxTokens, limits, setup.blockSize))
    case None => !Admissible(q, {}, limits.maxTokens, limits, setup)
  }

  predicate Stuck(q: Queues, limits: Limits, blocks: nat, setup: Setup)
    requires setup.blockSize >= 1
  {
    || limits.maxTokens == 0 || limits.maxSeqs == 0
    || NothingFits(q.(e := AllPublished(q.e, q.running, setup)), limits, blocks, setup)
  }

  // ---- publication --------------------------------------------------------------------------

  lemma {:induction false} AllPublishedKeeps(q: Queues, n: nat, blocks: nat, setup: Setup)
    requires setup.blockSize >= 1 && Ready(q, blocks, setup) && q.ids == {} && n <= |q.running|
    ensures var f := AllPublished(q.e, q.running[..n], setup);
            && Ready(q.(e := f), blocks, setup) && OnlyPublished(q.e, f)
            && forall k: nat :: k < n && q.running[k] < |f.seqs| ==> Offered(f.seqs[q.running[k]], setup)
    ensures n < |q.running| ==>
              Step(AllPublished(q.e, q.running[..n], setup), Offer(q.running[n]), setup)
              == Some(AllPublished(q.e, q.running[..n + 1], setup))
  {
    hide Ready, Step, Offered;
    if n > 0 {
      AllPublishedKeeps(q, n - 1, blocks, setup);
      assert q.running[..n][..n - 1] == q.running[..n - 1];
      OfferReady(q.(e := AllPublished(q.e, q.running[..n - 1], setup)), q.running[n - 1], blocks, setup);
    }
    if n < |q.running| {
      assert q.running[..n + 1][..n] == q.running[..n];
      OfferReady(q.(e := AllPublished(q.e, q.running[..n], setup)), q.running[n], blocks, setup);
    }
  }

  lemma {:induction false} PublishedOffered(q: Queues, blocks: nat, setup: Setup)
    requires setup.blockSize >= 1 && Ready(q, blocks, setup) && q.ids == {}
    ensures AllOffered(q.(e := AllPublished(q.e, q.running, setup)), setup)
  {
    assert q.running[..|q.running|] == q.running;
    AllPublishedKeeps(q, |q.running|, blocks, setup);
    hide Ready, Offered, AllPublished;
    var f := AllPublished(q.e, q.running, setup);
    forall v | v in q.running && v < |f.seqs| ensures Offered(f.seqs[v], setup) {
      var k: nat :| k < |q.running| && q.running[k] == v;
      assert Offered(f.seqs[q.running[k]], setup);
    }
  }

  // ---- exactness ----------------------------------------------------------------------------

  lemma {:induction false} SameVerdict(e: Engine, f: Engine, i: nat, budget: nat, limits: Limits, blocks: nat, bs: nat)
    requires bs >= 1 && SameText(e, f) && SameIndex(e.pool, f.pool)
    ensures Outgrown(f, i, blocks, bs) <==> Outgrown(e, i, blocks, bs)
    ensures TooLong(f, i, budget, limits, bs) <==> TooLong(e, i, budget, limits, bs)
  {
    if i < |e.seqs| { SameCredit(e.pool, f.pool, e.seqs[i], f.seqs[i], bs); }
  }

  lemma {:induction false} SameCredit(p: Pool, q: Pool, s: Live, t: Live, bs: nat)
    requires bs >= 1 && p.byHash == q.byHash && s.tokens == t.tokens && s.lora == t.lora
    ensures Credit(p, s, bs) == Credit(q, t, bs)
  {
    SameHits(p, s, t, 0, HitCap(s, bs), bs);
  }

  lemma {:induction false} SameHits(p: Pool, s: Live, t: Live, k: nat, cap: nat, bs: nat)
    requires bs >= 1 && s.tokens == t.tokens && s.lora == t.lora && k <= cap && Size(cap, bs) <= |s.tokens|
    ensures Hits(p.byHash, s, k, cap, bs) == Hits(p.byHash, t, k, cap, bs)
    decreases cap - k
  {
    if k < cap { SameHits(p, s, t, k + 1, cap, bs); }
  }

  /** Nobody can be admitted next: the queue is empty, or its head was preempted in this step or is
      not admissible to a whole budget. */
  predicate Unresumable(q: Queues, victims: set<nat>, limits: Limits, setup: Setup)
    requires setup.blockSize >= 1
  {
    !Admissible(q, victims, limits.maxTokens, limits, setup)
  }

  /** Once the running sequences have had their turn and the batch is still empty, nobody can be
      admitted exactly if nothing fitted at first. */
  lemma {:induction false} AfterRunning(p: Queues, d: Queues, victims: set<nat>, limits: Limits, blocks: nat,
                                        setup: Setup)
    requires setup.blockSize >= 1 && Ready(p, blocks, setup) && Ready(d, blocks, setup) && AllOffered(p, setup)
    requires Displaced(p, d, victims, setup) && d.ids == {}
    requires var first := FirstCarried(p.e, p.running, limits);
             if first.None? then d == p && victims == {}
             else d.running == [] && ChunkOutgrown(p.e, first.value, limits, blocks, setup.blockSize)
    ensures Unresumable(d, victims, limits, setup) <==> NothingFits(p, limits, blocks, setup)
  {
    hide Ready, Outgrown, TooLong, ChunkOutgrown, AllOffered, CanAllocate;
    if FirstCarried(p.e, p.running, limits).Some? {
      HeadAfterDisplacing(p, d, victims, blocks, setup);
      AdmissibleAlone(d, victims, limits.maxTokens, limits, blocks, setup);
      DisplacedIndex(p, d, victims, setup);
      SameVerdict(p.e, d.e, Head(d), limits.maxTokens, limits, blocks, setup.blockSize);
    }
  }

  lemma DisplacedIndex(p: Queues, d: Queues, victims: set<nat>, setup: Setup)
    requires setup.blockSize >= 1 && Displaced(p, d, victims, setup) && d.ids == {} && AllOffered(p, setup)
    ensures SameText(p.e, d.e) && SameIndex(p.e.pool, d.e.pool)
  {
    hide AllOffered;
  }

  /** Somebody served means that something fitted. */
  lemma {:induction false} ServedFits(p: Queues, limits: Limits, blocks: nat, setup: Setup)
    requires setup.blockSize >= 1
    requires var first := FirstCarried(p.e, p.running, limits);
             first.Some? && !ChunkOutgrown(p.e, first.value, limits, blocks, setup.blockSize)
    ensures !NothingFits(p, limits, blocks, setup)
  {}

  /** With nobody running, a stuck scheduler whose queues, texts and prefix cache stay is stuck. */
  lemma {:induction false} StuckStays(q: Queues, r: Queues, limits: Limits, blocks: nat, setup: Setup)
    requires setup.blockSize >= 1 && Ready(q, blocks, setup) && Ready(r, blocks, setup)
    requires q.running == r.running == []
    requires q.preempted == r.preempted && q.waiting == r.waiting
    requires SameText(q.e, r.e) && SameIndex(q.e.pool, r.e.pool)
    ensures Stuck(q, limits, blocks, setup) <==> Stuck(r, limits, blocks, setup)
  {
    hide Ready, Outgrown, TooLong, CanAllocate;
    assert q.(e := q.e) == q && r.(e := r.e) == r;
    if q.preempted + q.waiting != [] {
      AdmissibleAlone(q, {}, limits.maxTokens, limits, blocks, setup);
      AdmissibleAlone(r, {}, limits.maxTokens, limits, blocks, setup);
      SameVerdict(q.e, r.e, Head(q), limits.maxTokens, limits, blocks, setup.blockSize);
    }
  }

  /** A sequence fits if the pool holds it and a step can carry it, whole if it may not be split. */
  predicate Fits(e: Engine, i: nat, limits: Limits, blocks: nat, bs: nat)
    requires bs >= 1
  {
    i < |e.seqs| && !Outgrown(e, i, blocks, bs) && (limits.chunked || |e.seqs[i].tokens| <= limits.maxTokens)
  }

  /** Progress: while everybody unfinished fits, and somebody running, if anybody is, has a token to
      compute, the scheduler is never stuck. */
  lemma {:induction false} FittingNeverStuck(q: Queues, limits: Limits, blocks: nat, setup: Setup)
    requires setup.blockSize >= 1 && Ready(q, blocks, setup) && q.ids == {} && Members(q) != {}
    requires limits.maxTokens >= 1 && limits.maxSeqs >= 1
    requires forall j :: j in Members(q) ==> Fits(q.e, j, limits, blocks, setup.blockSize)
    requires q.running != [] ==> exists v :: v in q.running && v < |q.e.seqs| && Uncomputed(q.e.seqs[v]) >= 1
    ensures !Stuck(q, limits, blocks, setup)
  {
    var p := q.(e := AllPublished(q.e, q.running, setup));
    assert q.running[..|q.running|] == q.running;
    AllPublishedKeeps(q, |q.running|, blocks, setup);
    hide Ready, AllPublished, Needed, Credit, CanAllocate;
    var first := FirstCarried(p.e, p.running, limits);
    if q.running != [] { SomebodyCarried(q, p.e, limits, blocks, setup.blockSize); }
    if first.Some? {
      var s := p.e.seqs[first.value];
      assert first.value in Members(q);
      NeededMonotone(s.computed + NextTokens(s, limits.maxTokens), |s.tokens|, setup.blockSize);
    } else {
      FittingHead(p, limits, blocks, setup);
    }
  }

  lemma {:induction false} SomebodyCarried(q: Queues, e: Engine, limits: Limits, blocks: nat, bs: nat)
    requires bs >= 1 && OnlyPublished(q.e, e)
    requires forall j :: j in Members(q) ==> Fits(q.e, j, limits, blocks, bs)
    requires exists v :: v in q.running && v < |q.e.seqs| && Uncomputed(q.e.seqs[v]) >= 1
    ensures FirstCarried(e, q.running, limits).Some?
  {
    hide Outgrown;
    var v :| v in q.running && v < |q.e.seqs| && Uncomputed(q.e.seqs[v]) >= 1;
    assert v in Members(q) && Fits(q.e, v, limits, blocks, bs);
    assert Carried(e, v, limits);
  }

  lemma {:induction false} FittingHead(q: Queues, limits: Limits, blocks: nat, setup: Setup)
    requires setup.blockSize >= 1 && Ready(q, blocks, setup) && q.running == [] && Members(q) != {}
    requires forall j :: j in Members(q) ==> Fits(q.e, j, limits, blocks, setup.blockSize)
    ensures q.preempted + q.waiting != [] && Admissible(q, {}, limits.maxTokens, limits, setup)
  {
    hide Ready, Needed, Credit, CanAllocate, Outgrown;
    if q.preempted != [] {
      assert q.preempted[0] in Members(q);
    } else {
      assert q.waiting != [];
      assert q.waiting[0] in Members(q);
    }
    AdmissibleAlone(q, {}, limits.maxTokens, limits, blocks, setup);
  }

  // ---- room for everybody -------------------------------------------------------------------

  /** Blocks that giving each of these its next chunk would take. */
  function Demand(e: Engine, s: seq<nat>, limits: Limits, bs: nat): nat
    requires bs >= 1
  {
    if s == [] then 0 else ShareOf(e, s[0], limits, bs) + Demand(e, s[1..], limits, bs)
  }

  function ShareOf(e: Engine, i: nat, limits: Limits, bs: nat): nat
    requires bs >= 1
  {
    if i < |e.seqs| then Missing(e.seqs[i], NextTokens(e.seqs[i], limits.maxTokens), bs) else 0
  }

  lemma {:induction false} DemandAlike(e: Engine, f: Engine, s: seq<nat>, limits: Limits, bs: nat)
    requires bs >= 1 && OnlyPublished(e, f)
    ensures Demand(f, s, limits, bs) == Demand(e, s, limits, bs) && Allocatable(f.pool) == Allocatable(e.pool)
  {
    hide Allocatable, Needed;
    if s != [] { DemandAlike(e, f, s[1..], limits, bs); }
  }

  lemma {:induction false} ShareCovers(e: Engine, i: nat, n: nat, limits: Limits, bs: nat)
    requires bs >= 1 && i < |e.seqs| && n <= NextTokens(e.seqs[i], limits.maxTokens)
    requires e.seqs[i].computed + n <= |e.seqs[i].tokens| && ShareOf(e, i, limits, bs) <= Allocatable(e.pool)
    ensures CanAppend(e.pool, e.seqs[i], n, bs) && Missing(e.seqs[i], n, bs) <= ShareOf(e, i, limits, bs)
  {
    hide Needed, Allocatable;
    NeededMonotone(e.seqs[i].computed + n, e.seqs[i].computed + NextTokens(e.seqs[i], limits.maxTokens), bs);
  }
}
