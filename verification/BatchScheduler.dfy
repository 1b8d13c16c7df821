/** The continuous-batching scheduler: one `schedule()` call over running, preempted and waiting
    sequences, and the calls between steps (src/turboserve/engine/core/scheduler.py:416-815). */
module BatchScheduler {
  import opened Prelude
  import opened KvBlocks
  import opened KvSharing
  import opened KvEngine
  import opened EngineEffects
  import opened SchedulerState
  import opened Stalls
  import opened Preemption
  import opened Sampling
  import FairQueue
  import AdmissionOrder

  // ---- the request index --------------------------------------------------------------------

  /** `requests` finds exactly the unfinished sequences, each under its own name. */
  ghost predicate Registry(names: seq<string>, requests: map<string, nat>, members: set<nat>) {
    && (forall id :: id in requests ==>
          requests[id] in members && requests[id] < |names| && names[requests[id]] == id)
    && (forall i :: i in members ==> i < |names| && names[i] in requests && requests[names[i]] == i)
  }

  lemma RegistryNames(names: seq<string>, requests: map<string, nat>, a: set<nat>, b: set<nat>)
    requires Registry(names, requests, a) && Registry(names, requests, b)
    ensures a == b
  {}

  lemma RegistryAdd(names: seq<string>, requests: map<string, nat>, members: set<nat>, id: string)
    requires Registry(names, requests, members) && id !in requests && |names| !in members
    ensures Registry(names + [id], requests[id := |names|], members + {|names|})
  {}

  lemma RegistryDrop(names: seq<string>, requests: map<string, nat>, members: set<nat>, i: nat)
    requires Registry(names, requests, members) && i < |names| && (i in members || names[i] !in requests)
    ensures Registry(names, requests - {names[i]}, members - {i})
  {}

  // ---- the course of a step -----------------------------------------------------------------

  /** A sequence that was running is scheduled or preempted, or left out for a reason: a limit is
      used up, it has nothing to compute, or the rest of the step cannot carry it whole. */
  ghost predicate Considered(was: Engine, i: nat, a: Assembly) {
    || i in a.ids || i in a.victims || a.tokensLeft == 0 || a.seqsLeft == 0
    || (i < |was.seqs| && (Uncomputed(was.seqs[i]) == 0 || (!a.chunked && a.tokensLeft < Uncomputed(was.seqs[i]))))
  }

  lemma StillConsidered(was: Engine, running: seq<nat>, a: Assembly, b: Assembly)
    requires forall v :: v in running ==> Considered(was, v, a)
    requires a.ids <= b.ids && a.victims <= b.victims && a.chunked == b.chunked
    requires b.tokensLeft <= a.tokensLeft && b.seqsLeft <= a.seqsLeft
    ensures forall v :: v in running ==> Considered(was, v, b)
  {}

  lemma ConsideredAlike(was: Engine, f: Engine, running: seq<nat>, a: Assembly)
    requires OnlyPublished(was, f) && forall v :: v in running ==> Considered(f, v, a)
    ensures forall v :: v in running ==> Considered(was, v, a)
  {
    forall v | v in running ensures Considered(was, v, a) { assert Considered(f, v, a); }
  }

  /** The first sequence a step could carry is in the batch exactly if its next chunk fits the pool;
      if not, nobody is. */
  ghost predicate FirstServed(q: Queues, ids: set<nat>, limits: Limits, blocks: nat, bs: nat)
    requires bs >= 1
  {
    limits.maxTokens >= 1 && limits.maxSeqs >= 1 ==>
      var first := FirstCarried(q.e, q.running, limits);
      first.Some? ==>
        if ChunkOutgrown(q.e, first.value, limits, blocks, bs) then first.value !in ids else first.value in ids
  }

  /** The state once those of `s` have had their turn: as before if a step could carry none of them;
      otherwise the first of those it could is in the batch, or there was no room for its chunk and
      nobody runs any more. */
  ghost predicate ServedSo(q: Queues, r: Queues, s: seq<nat>, limits: Limits, blocks: nat, bs: nat)
    requires bs >= 1
  {
    limits.maxTokens >= 1 && limits.maxSeqs >= 1 ==>
      var first := FirstCarried(q.e, s, limits);
      if first.None? then r == q
      else if ChunkOutgrown(q.e, first.value, limits, blocks, bs) then r.ids == {} && r.running == []
      else first.value in r.ids
  }

  ghost predicate RunningServed(q: Queues, r: Queues, victims: set<nat>, limits: Limits, blocks: nat, bs: nat)
    requires bs >= 1
  {
    && ServedSo(q, r, q.running, limits, blocks, bs)
    && (limits.maxTokens == 0 || limits.maxSeqs == 0 || FirstCarried(q.e, q.running, limits).None? ==>
          r == q && victims == {})
  }

  /** What one sequence's turn does: `q` and `a` before it, `r` and `b` after. */
  ghost predicate Turned(was: Queues, q: Queues, a: Assembly, r: Queues, b: Assembly, i: nat, limits: Limits,
                         blocks: nat, bs: nat)
    requires bs >= 1
  {
    && (r.ids == q.ids || r.ids == q.ids + {i})
    && a.ids <= b.ids && a.victims <= b.victims && a.chunked == b.chunked
    && b.tokensLeft <= a.tokensLeft && b.seqsLeft <= a.seqsLeft
    && (i !in q.running ==> r == q && a.victims == b.victims)
    && Considered(was.e, i, b)
    && (q == was && q.ids == {} && Untouched(a, limits) ==>
          if !Carried(was.e, i, limits) then r == was && b == a
          else if ChunkOutgrown(was.e, i, limits, blocks, bs) then r.ids == {} && r.running == []
          else i in r.ids)
    && (i in q.running && ShareOf(was.e, i, limits, bs) <= Allocatable(q.e.pool) ==>
          && b.victims == a.victims
          && Allocatable(r.e.pool) >= Allocatable(q.e.pool) - ShareOf(was.e, i, limits, bs))
  }

  /** A turn that changes nothing: the sequence was preempted before it, or cannot be carried. */
  lemma TurnSkipped(was: Queues, q: Queues, a: Assembly, i: nat, limits: Limits, blocks: nat, bs: nat)
    requires bs >= 1 && i in was.running && a.tokensLeft > 0 && a.chunked == limits.chunked
    requires i !in q.running ==> i in a.victims
    requires i in q.running ==>
               && i < |was.e.seqs|
               && var n := NextTokens(was.e.seqs[i], a.tokensLeft);
               n == 0 || (!limits.chunked && n < Uncomputed(was.e.seqs[i]))
    ensures Turned(was, q, a, q, a, i, limits, blocks, bs)
  {
    hide ChunkOutgrown, ShareOf, Allocatable;
  }

  /** A turn in which the sequence becomes the last victim. */
  lemma TurnLost(was: Queues, q: Queues, a: Assembly, r: Queues, b: Assembly, i: nat, n: nat, limits: Limits,
                 blocks: nat, bs: nat)
    requires bs >= 1 && i in q.running && i < |was.e.seqs| && n == NextTokens(was.e.seqs[i], a.tokensLeft) >= 1
    requires limits.chunked || n == Uncomputed(was.e.seqs[i])
    requires r.ids == q.ids == a.ids && a.victims <= b.victims && i in b.victims && b == a.(victims := b.victims)
    requires q.ids == {} ==> r.running == []
    requires q.ids != {} || Needed(was.e.seqs[i].computed + n, bs) > blocks
    requires ShareOf(was.e, i, limits, bs) > Allocatable(q.e.pool)
    ensures Turned(was, q, a, r, b, i, limits, blocks, bs)
  {
    hide ShareOf, Allocatable, Needed;
  }

  /** A turn in which the sequence is scheduled. */
  lemma TurnServed(was: Queues, q: Queues, a: Assembly, r: Queues, b: Assembly, i: nat, n: nat, limits: Limits,
                   blocks: nat, bs: nat)
    requires bs >= 1 && i in q.running && i < |was.e.seqs| && n == NextTokens(was.e.seqs[i], a.tokensLeft) >= 1
    requires limits.chunked || n == Uncomputed(was.e.seqs[i])
    requires q.ids == a.ids && r.ids == b.ids == q.ids + {i} && a.victims <= b.victims && a.chunked == b.chunked
    requires b.tokensLeft <= a.tokensLeft && b.seqsLeft <= a.seqsLeft
    requires Needed(was.e.seqs[i].computed + n, bs) <= blocks
    requires ShareOf(was.e, i, limits, bs) <= Allocatable(q.e.pool) ==>
               && b.victims == a.victims
               && Allocatable(r.e.pool) >= Allocatable(q.e.pool) - ShareOf(was.e, i, limits, bs)
    ensures Turned(was, q, a, r, b, i, limits, blocks, bs)
  {
    hide ShareOf, Allocatable, Needed;
  }

  predicate Untouched(a: Assembly, limits: Limits) {
    a.tokensLeft == limits.maxTokens && a.seqsLeft == limits.maxSeqs && a.victims == {}
  }

  /** Where the turns stand after the first `k` of those that were running. */
  ghost predicate TurnsDone(was: Queues, r: Queues, b: Assembly, k: nat, limits: Limits, blocks: nat, bs: nat)
    requires bs >= 1
  {
    && k <= |was.running|
    && (forall v :: v in r.ids ==> v in was.running[..k])
    && (forall v :: v in was.running[..k] ==> Considered(was.e, v, b))
    && ServedSo(was, r, was.running[..k], limits, blocks, bs)
    && (limits.maxTokens == 0 || limits.maxSeqs == 0 || FirstCarried(was.e, was.running[..k], limits).None? ==>
          r == was && Untouched(b, limits))
    && (Demand(was.e, was.running, limits, bs) <= Allocatable(was.e.pool) ==>
          && b.victims == {} && Demand(was.e, was.running[k..], limits, bs) <= Allocatable(r.e.pool)
          && forall v :: v in was.running ==> v in r.running)
  }

  lemma TurnsBegin(was: Queues, a: Assembly, limits: Limits, blocks: nat, bs: nat)
    requires bs >= 1 && was.ids == {} && Untouched(a, limits)
    ensures TurnsDone(was, was, a, 0, limits, blocks, bs)
  {
    assert was.running[..0] == [] && was.running[0..] == was.running;
  }

  lemma TurnOf(was: Queues, q: Queues, a: Assembly, k: nat, limits: Limits, blocks: nat, bs: nat)
    requires bs >= 1 && k < |was.running| && was.running[k] !in was.running[..k]
    requires TurnsDone(was, q, a, k, limits, blocks, bs)
    ensures was.running[k] in was.running && was.running[k] !in q.ids
  {}

  lemma {:induction false} NextTurn(was: Queues, q: Queues, a: Assembly, r: Queues, b: Assembly, k: nat, limits: Limits,
                                    blocks: nat, bs: nat)
    requires bs >= 1 && k < |was.running| && was.ids == {}
    requires TurnsDone(was, q, a, k, limits, blocks, bs) && a.tokensLeft > 0 && a.seqsLeft > 0
    requires Turned(was, q, a, r, b, was.running[k], limits, blocks, bs)
    requires forall v :: v in was.running ==> v in r.running || v in b.victims
    requires a.tokensLeft <= limits.maxTokens && a.seqsLeft <= limits.maxSeqs
    ensures TurnsDone(was, r, b, k + 1, limits, blocks, bs)
  {
    hide Carried, ChunkOutgrown, Considered, ShareOf, Allocatable;
    var i, s := was.running[k], was.running;
    assert s[..k + 1] == s[..k] + [i] && s[..k + 1][..k] == s[..k];
    assert s[k..] == [i] + s[k + 1..] && s[k..][1..] == s[k + 1..];
    StillConsidered(was.e, s[..k], a, b);
  }

  lemma {:induction false} TurnsOver(was: Queues, r: Queues, b: Assembly, k: nat, limits: Limits, blocks: nat, bs: nat)
    requires bs >= 1 && TurnsDone(was, r, b, k, limits, blocks, bs)
    requires k == |was.running| || b.tokensLeft == 0 || b.seqsLeft == 0
    ensures forall v :: v in was.running ==> Considered(was.e, v, b)
    ensures forall v :: v in r.ids ==> v in was.running
    ensures RunningServed(was, r, b.victims, limits, blocks, bs)
    ensures Demand(was.e, was.running, limits, bs) <= Allocatable(was.e.pool) ==> b.victims == {}
  {
    hide Carried, ChunkOutgrown, ShareOf, Allocatable;
    assert was.running[..|was.running|] == was.running;
    if FirstCarried(was.e, was.running[..k], limits).Some? { FirstOfPrefix(was.e, was.running, k, limits); }
  }

  lemma {:induction false} FirstOfPrefix(e: Engine, s: seq<nat>, k: nat, limits: Limits)
    requires k <= |s| && FirstCarried(e, s[..k], limits).Some?
    ensures FirstCarried(e, s, limits) == FirstCarried(e, s[..k], limits)
  {
    hide Carried;
    if k < |s| {
      assert s[..|s| - 1][..k] == s[..k];
      FirstOfPrefix(e, s[..|s| - 1], k, limits);
    } else {
      assert s[..k] == s;
    }
  }

  /** What trying the head of the queue does: admitted, it runs on its prefix hits and is in the batch;
      otherwise nothing moves, and it is not admissible afterwards either. */
  ghost predicate HeadTried(q: Queues, r: Queues, more: bool, victims: set<nat>, budget: nat, limits: Limits,
                            setup: Setup)
    requires setup.blockSize >= 1
  {
    && SameText(q.e, r.e) && RunningKept(q, r.e)
    && (more <==> Admissible(q, victims, budget, limits, setup))
    && (more ==> q.preempted + q.waiting != [] && Head(q) !in victims
                 && r == Popped(q).(e := r.e, running := q.running + [Head(q)], ids := q.ids + {Head(q)})
                 && r.e.seqs[Head(q)].written == Credit(q.e.pool, q.e.seqs[Head(q)], setup.blockSize))
    && (!more ==> r == q.(e := r.e) && SameIndex(q.e.pool, r.e.pool)
                  && !Admissible(r, victims, budget, limits, setup))
  }

  lemma HeadRefused(q: Queues, victims: set<nat>, budget: nat, limits: Limits, setup: Setup)
    requires setup.blockSize >= 1
    requires q.preempted + q.waiting != [] && Head(q) !in victims && Head(q) < |q.e.seqs| ==>
               !CanAllocate(q.e.pool, q.e.seqs[Head(q)], setup.blockSize)
    ensures HeadTried(q, q, false, victims, budget, limits, setup)
  {
    SameTextSelf(q.e);
    KeptSelf(q);
    hide CanAllocate;
  }

  lemma HeadTakenBack(q: Queues, f: Engine, r: Queues, victims: set<nat>, budget: nat, limits: Limits, blocks: nat,
                      setup: Setup)
    requires setup.blockSize >= 1 && q.preempted + q.waiting != [] && Head(q) < |q.e.seqs| && budget > 0
    requires SameText(q.e, f) && f.seqs[Head(q)].computed == Credit(q.e.pool, q.e.seqs[Head(q)], setup.blockSize)
                                                         < |f.seqs[Head(q)].tokens|
    requires var n := NextTokens(f.seqs[Head(q)], budget);
             n == 0 || (!limits.chunked && n < Uncomputed(f.seqs[Head(q)]))
    requires r == q.(e := r.e) && SameText(q.e, r.e) && SameIndex(q.e.pool, r.e.pool) && RunningKept(q, r.e)
    ensures HeadTried(q, r, false, victims, budget, limits, setup)
  {
    hide CanAllocate, Credit, RunningKept, SameIndex;
    SameTextAt(q.e, f, Head(q));
    SameVerdict(q.e, r.e, Head(q), budget, limits, blocks, setup.blockSize);
  }

  lemma HeadTaken(q: Queues, f: Engine, r: Queues, victims: set<nat>, budget: nat, limits: Limits, setup: Setup)
    requires setup.blockSize >= 1 && q.preempted + q.waiting != [] && Head(q) < |q.e.seqs| && Head(q) !in victims
    requires CanAllocate(q.e.pool, q.e.seqs[Head(q)], setup.blockSize)
    requires SameText(q.e, f) && f.seqs[Head(q)].computed == Credit(q.e.pool, q.e.seqs[Head(q)], setup.blockSize)
                                                         < |f.seqs[Head(q)].tokens|
    requires limits.chunked || NextTokens(f.seqs[Head(q)], budget) == Uncomputed(f.seqs[Head(q)])
    requires r == Popped(q).(e := r.e, running := q.running + [Head(q)], ids := q.ids + {Head(q)})
    requires SameText(q.e, r.e) && RunningKept(q, r.e) && r.e.seqs[Head(q)].written == f.seqs[Head(q)].computed
    ensures HeadTried(q, r, true, victims, budget, limits, setup)
  {
    hide CanAllocate, Credit, RunningKept, SameIndex;
    SameTextAt(q.e, f, Head(q));
  }

  /** Without a prefix cache, whoever joined the batch besides `already` has nothing in memory yet. */
  ghost predicate FromScratch(already: set<nat>, r: Queues, setup: Setup) {
    !setup.caching ==> forall v :: v in r.ids && v !in already ==> v < |r.e.seqs| && r.e.seqs[v].written == 0
  }

  lemma {:induction false} ScratchMore(already: set<nat>, q: Queues, r: Queues, more: bool, victims: set<nat>,
                                       budget: nat, limits: Limits, blocks: nat, setup: Setup)
    requires setup.blockSize >= 1 && Ready(q, blocks, setup) && FromScratch(already, q, setup)
    requires HeadTried(q, r, more, victims, budget, limits, setup)
    ensures FromScratch(already, r, setup)
  {
    forall v | v in q.ids ensures v in q.running {
      assert Queued(q, v);
      assert v in multiset(q.running);
    }
    if more && !setup.caching {
      HeadKnown(q, blocks, setup);
      UncachedRoom(q.e, blocks, setup);
      NoHits(q.e.pool, q.e.seqs[Head(q)], setup.blockSize);
      hide Ready, Admissible, Credit, SameText;
    }
  }

  lemma ScratchSelf(q: Queues, setup: Setup)
    ensures FromScratch(q.ids, q, setup)
  {}

  lemma ScratchOf(running: seq<nat>, already: set<nat>, r: Queues, setup: Setup)
    requires FromScratch(already, r, setup) && forall v :: v in already ==> v in running
    ensures FromScratch(Listed(running), r, setup)
  {}

  /** What a step makes of the queues `q`. The batch respects both limits and lists each sequence once,
      with exactly its new tokens pending, which are all it has left unless they use up the budget.
      Nobody is lost, and everybody running is considered, the first the step can carry being served if
      its chunk fits the pool. Nobody preempted in the step is in its batch, and nobody is preempted
      while there is room for all. Admissions end only at a limit or at a head that is not admissible.
      The batch is empty exactly if the scheduler was stuck, and with nobody running it then stays so
      for good. */
  ghost predicate StepDone(q: Queues, r: Queues, batch: seq<Item>, a: Assembly, limits: Limits, blocks: nat,
                           setup: Setup)
    requires setup.blockSize >= 1
  {
    && Ready(r, blocks, setup) && BatchOk(r.e, batch, r.ids) && SameText(q.e, r.e) && Members(r) == Members(q)
    && Tokens(batch) + a.tokensLeft == limits.maxTokens && |batch| + a.seqsLeft == limits.maxSeqs
    && a.ids == r.ids && a.chunked == limits.chunked && Stepped(q, r, a.victims, setup)
    && (forall v :: v in q.running ==> Considered(q.e, v, a))
    && FirstServed(q, r.ids, limits, blocks, setup.blockSize)
    && r.ids !! a.victims && (forall v :: v in a.victims ==> v in q.running)
    && (Demand(q.e, q.running, limits, setup.blockSize) <= Allocatable(q.e.pool) ==> a.victims == {})
    && (a.tokensLeft == 0 || a.seqsLeft == 0 || !Admissible(r, a.victims, a.tokensLeft, limits, setup))
    && Filled(r.e, batch, a.tokensLeft) && FromScratch(Listed(q.running), r, setup)
    && (batch == [] <==> Stuck(q, limits, blocks, setup))
    && (batch == [] && q.running == [] ==> r == q.(e := r.e) && Stuck(r, limits, blocks, setup))
  }

  // ---- the parts of a step ------------------------------------------------------------------

  /** After everybody's turn: if nobody is in the batch, what is admissible now tells whether anything
      fitted at first; if somebody is, something did. */
  lemma {:induction false} AfterTurns(p: Queues, d: Queues, victims: set<nat>, limits: Limits, blocks: nat,
                                      setup: Setup)
    requires setup.blockSize >= 1 && Ready(p, blocks, setup) && Ready(d, blocks, setup) && AllOffered(p, setup)
    requires Displaced(p, d, victims, setup) && p.ids == {}
    requires RunningServed(p, d, victims, limits, blocks, setup.blockSize)
    ensures limits.maxTokens == 0 || limits.maxSeqs == 0 ==> d == p
    ensures limits.maxTokens >= 1 && limits.maxSeqs >= 1 ==>
              if d.ids == {} then Unresumable(d, victims, limits, setup) <==> NothingFits(p, limits, blocks, setup)
              else !NothingFits(p, limits, blocks, setup)
    ensures p.running == [] ==> d == p && victims == {}
    ensures FirstServed(p, d.ids, limits, blocks, setup.blockSize)
  {
    hide Ready, ChunkOutgrown, NothingFits, Unresumable, AllOffered, Displaced;
    if limits.maxTokens >= 1 && limits.maxSeqs >= 1 {
      if d.ids == {} {
        AfterRunning(p, d, victims, limits, blocks, setup);
      } else {
        ServedFits(p, limits, blocks, setup);
      }
    }
  }

  /** What admissions add to the batch does not change whether the first one was served. */
  lemma {:induction false} StillServed(p: Queues, d: Queues, victims: set<nat>, ids: set<nat>, limits: Limits,
                                       blocks: nat, setup: Setup)
    requires setup.blockSize >= 1 && Displaced(p, d, victims, setup)
    requires RunningServed(p, d, victims, limits, blocks, setup.blockSize)
    requires d.ids <= ids && forall v :: v in ids ==> v in d.ids || v !in victims
    ensures FirstServed(p, ids, limits, blocks, setup.blockSize)
  {
    hide ChunkOutgrown;
  }

  lemma {:induction false} PublishedAlike(q: Queues, p: Queues, limits: Limits, blocks: nat, bs: nat)
    requires bs >= 1 && p == q.(e := p.e) && OnlyPublished(q.e, p.e)
    ensures forall ids :: FirstServed(p, ids, limits, blocks, bs) <==> FirstServed(q, ids, limits, blocks, bs)
  {
    FirstAlike(q.e, p.e, q.running, limits);
    hide FirstCarried, Needed;
  }

  lemma {:induction false} FirstAlike(e: Engine, f: Engine, s: seq<nat>, limits: Limits)
    requires OnlyPublished(e, f)
    ensures FirstCarried(f, s, limits) == FirstCarried(e, s, limits)
  {
    if s != [] { FirstAlike(e, f, s[..|s| - 1], limits); }
  }

  /** Publishing, the running sequences' turns and the admissions make a step. */
  lemma {:induction false} StepCompleted(q: Queues, p: Queues, d: Queues, r: Queues, batch: seq<Item>, a: Assembly,
                                         limits: Limits, blocks: nat, setup: Setup)
    requires setup.blockSize >= 1 && q.ids == {} && Ready(q, blocks, setup)
    requires p == q.(e := p.e) && p.e == AllPublished(q.e, q.running, setup) && OnlyPublished(q.e, p.e)
    requires AllOffered(p, setup) && Ready(p, blocks, setup)
    requires Displaced(p, d, a.victims, setup) && Drained(d, r) && SameText(p.e, r.e) && Members(r) == Members(q)
    requires Ready(r, blocks, setup) && BatchOk(r.e, batch, r.ids) && Filled(r.e, batch, a.tokensLeft)
    requires Tokens(batch) + a.tokensLeft == limits.maxTokens && |batch| + a.seqsLeft == limits.maxSeqs
    requires a.ids == r.ids && a.chunked == limits.chunked && FromScratch(Listed(q.running), r, setup)
    requires forall v :: v in q.running ==> Considered(p.e, v, a)
    requires FirstServed(p, r.ids, limits, blocks, setup.blockSize)
    requires r.ids !! a.victims && forall v :: v in a.victims ==> v in q.running
    requires Demand(p.e, q.running, limits, setup.blockSize) <= Allocatable(p.e.pool) ==> a.victims == {}
    requires a.tokensLeft == 0 || a.seqsLeft == 0 || !Admissible(r, a.victims, a.tokensLeft, limits, setup)
    requires batch == [] <==> limits.maxTokens == 0 || limits.maxSeqs == 0 || NothingFits(p, limits, blocks, setup)
    requires batch == [] && q.running == [] ==> r == p.(e := r.e) && SameIndex(p.e.pool, r.e.pool)
    ensures StepDone(q, r, batch, a, limits, blocks, setup)
  {
    hide FromScratch, Ready, BatchOk, Filled, Listed, FirstServed, Tokens, SameText, Considered, Drained, Displaced;
    hide OnlyPublished, NothingFits, Admissible, SameIndex, Demand, AllOffered, Allocatable, Members, AllPublished;
    PublishedAlike(q, p, limits, blocks, setup.blockSize);
    DemandAlike(q.e, p.e, q.running, limits, setup.blockSize);
    ConsideredAlike(q.e, p.e, q.running, a);
    PublishedIsText(q.e, p.e);
    SameTextMore(q.e, p.e, r.e);
    assert Stepped(q, r, a.victims, setup);
    if q.running == [] { NobodyPublished(q.e, setup); }
    if batch == [] && q.running == [] { StuckStays(q, r, limits, blocks, setup); }
  }

  lemma StepInTurn(priority: seq<int>, q: Queues, p: Queues, d: Queues, r: Queues, victims: set<nat>,
                   course: seq<Turn>, limits: Limits, setup: Setup)
    requires setup.blockSize >= 1 && p == q.(e := AllPublished(q.e, q.running, setup))
    requires StepTurns(priority, p, d, victims, course, limits, setup) && Drained(d, r)
    ensures TurnsBefore(priority, q, r, victims, limits, setup)
  {
    hide StepTurns, Drained, AllPublished;
    assert StepTurns(priority, Published(q, setup), d, victims, course, limits, setup);
  }

  /** `r` is `s` with `x` put in somewhere. */
  ghost predicate Inserted(s: seq<nat>, x: nat, r: seq<nat>) {
    exists k: nat :: k <= |s| && r == s[..k] + [x] + s[k..]
  }

  /** What is on file about each request, by its number, and who is in flight. */
  datatype Ledger = Ledger(priority: seq<int>, names: seq<string>, tenants: seq<FairQueue.Tenant>,
                           prompts: seq<nat>, requests: map<string, nat>)

  /** The queues and the ledger agree, and the batch under construction keeps both limits. */
  ghost predicate Books(q: Queues, l: Ledger, batch: seq<Item>, tokensLeft: nat, seqsLeft: nat, limits: Limits,
                        blocks: nat, setup: Setup)
  {
    && setup.blockSize >= 1 && Ready(q, blocks, setup)
    && |l.priority| == |l.names| == |l.tenants| == |l.prompts| == |q.e.seqs|
    && Registry(l.names, l.requests, Members(q))
    && BatchOk(q.e, batch, q.ids) && Filled(q.e, batch, tokensLeft)
    && Tokens(batch) + tokensLeft == limits.maxTokens && |batch| + seqsLeft == limits.maxSeqs
  }

  class Scheduler {
    const blocks: nat
    const setup: Setup
    const limits: Limits
    const tenantFair: bool
    const queue: FairQueue.WaitQueue
    var e: Engine
    var priority: seq<int>
    var names: seq<string>
    var tenants: seq<FairQueue.Tenant>
    // How long each prompt was.
    var prompts: seq<nat>
    var requests: map<string, nat>
    var running: seq<nat>
    var preempted: seq<nat>
    // Whom the wait queue holds, in the order it would admit them.
    ghost var waiting: seq<nat>
    // The step under construction: its batch, whom it preempted, and what is left of its limits.
    var batch: seq<Item>
    var ids: set<nat>
    var preemptedNow: set<nat>
    var tokensLeft: nat
    var seqsLeft: nat

    ghost function State(): Queues
      reads `e, `running, `preempted, `waiting, `ids
    {
      Queues(e, running, preempted, waiting, ids)
    }

    ghost function Progress(): Assembly
      reads `ids, `preemptedNow, `tokensLeft, `seqsLeft
    {
      Assembly(ids, preemptedNow, tokensLeft, seqsLeft, limits.chunked)
    }

    ghost function OnFile(): Ledger
      reads `priority, `names, `tenants, `prompts, `requests
    {
      Ledger(priority, names, tenants, prompts, requests)
    }

    /** First come, first served is one queue for everybody. */
    function Key(t: FairQueue.Tenant): FairQueue.Tenant { if tenantFair then t else "" }

    /** `waiting` is the order in which the wait queue would admit, everybody under its own tenant. */
    ghost predicate Ordered()
      reads `waiting, `tenants, queue
    {
      && queue.Valid()
      && AdmissionOrder.InOrder(queue.Value(), queue.shares, waiting)
      && AdmissionOrder.Filed(queue.Value(), tenants)
      && forall k :: 0 <= k < |tenants| ==> Key(tenants[k]) == tenants[k]
    }

    ghost predicate Building()
      reads this, queue
    {
      Books(State(), OnFile(), batch, tokensLeft, seqsLeft, limits, blocks, setup) && Ordered()
    }

    /** Between steps: everything computed has been written. */
    ghost predicate Idle()
      reads this, queue
    {
      Building() && batch == []
    }

    constructor (blocks: nat, setup: Setup, limits: Limits, tenantFair: bool, shares: FairQueue.Shares)
      requires setup.blockSize >= 1
      ensures this.blocks == blocks && this.setup == setup && this.limits == limits && this.tenantFair == tenantFair
      ensures fresh(queue) && queue.shares == shares && queue.Value() == FairQueue.NOBODY
      ensures Idle() && e.seqs == [] && prompts == [] && requests == map[] && running == preempted == waiting == []
    {
      this.blocks, this.setup, this.limits, this.tenantFair := blocks, setup, limits, tenantFair;
      queue := new FairQueue.WaitQueue(shares);
      e, priority, names, tenants, prompts, requests := Begin(blocks), [], [], [], [], map[];
      running, preempted, waiting := [], [], [];
      batch, ids, preemptedNow := [], {}, {};
      tokensLeft, seqsLeft := limits.maxTokens, limits.maxSeqs;
      new;
      assert Run(Begin(blocks), [], setup) == Some(Begin(blocks));
    }

    predicate Candidate(i: nat, v: nat) reads this { v in running && v != i && v !in ids }

    /** The victim: among running sequences other than `i` and outside the batch, the one of lowest
        priority, and of those the newest; none exactly when there is no such sequence. */
    method PickVictim(i: nat) returns (r: Option<nat>)
      requires forall v :: v in running ==> v < |priority|
      ensures r.None? <==> forall v :: v in running ==> !Candidate(i, v)
      ensures r.Some? ==> Candidate(i, r.value)
      ensures r.Some? ==> forall v :: v in running && Candidate(i, v) && v != r.value ==>
                            Precedes(priority, r.value, v)
    {
      r := None;
      for k := 0 to |running|
        invariant r.None? <==> forall v :: v in running[..k] ==> !Candidate(i, v)
        invariant r.Some? ==> Candidate(i, r.value)
        invariant r.Some? ==> forall v :: v in running[..k] && Candidate(i, v) && v != r.value ==>
                                Precedes(priority, r.value, v)
      {
        var v := running[k];
        assert running[..k + 1] == running[..k] + [v];
        if Candidate(i, v) && (r.None? || Precedes(priority, v, r.value)) { r := Some(v); }
      }
      assert running[..|running|] == running;
    }

    /** Gives up a running sequence's blocks; it queues up behind those preempted before it. */
    method Preempt(i: nat)
      requires Building() && i in running && i !in ids
      modifies this`e, this`running, this`preempted, this`preemptedNow
      ensures Building() && i in preempted
      ensures running == Without(old(running), i) && preempted == old(preempted) + [i]
      ensures preemptedNow == old(preemptedNow) + {i} && Step(old(e), Retire(i), setup) == Some(e)
      ensures OnlyChanges(old(e), e, i) && SameText(old(e), e)
      ensures Offered(old(e).seqs[i], setup) ==> SameIndex(old(e).pool, e.pool)
    {
      hide Ready, Step, BatchOk, Filled, Members, Registry, SameText, Offered, Ordered;
      PreemptReady(State(), i, blocks, setup);
      BatchUntouched(e, Step(e, Retire(i), setup).value, i, batch, ids);
      FilledUntouched(e, Step(e, Retire(i), setup).value, i, batch, ids, tokensLeft);
      e := Step(e, Retire(i), setup).value;
      running := Without(running, i);
      preempted := preempted + [i];
      preemptedNow := preemptedNow + {i};
    }

    /** Preempts the least of the candidates to make room for sequence `i`, or `i` itself for want of
        any. `tail` are those preempted for it since `q`. */
    method MakeWay(i: nat, n: nat, ghost was: Queues, ghost q: Queues, ghost tail: seq<nat>) returns (v: nat)
      requires Building() && Displaced(was, State(), preemptedNow, setup)
      requires i in running && i !in ids && i < |e.seqs| && e.seqs[i].computed + n <= |e.seqs[i].tokens|
      requires !CanAppend(e.pool, e.seqs[i], n, setup.blockSize)
      requires MakingRoom(priority, q, State(), i, n, tail, setup)
      modifies this`e, this`running, this`preempted, this`preemptedNow
      ensures Building() && Displaced(was, State(), preemptedNow, setup)
      ensures MakingRoom(priority, q, State(), i, n, tail + [v], setup)
      ensures preemptedNow == old(preemptedNow) + {v} && |running| < |old(running)|
      ensures v != i ==> i in running && i < |e.seqs| && e.seqs[i] == old(e).seqs[i]
      ensures v == i ==> (ids != {} || Needed(old(e).seqs[i].computed + n, setup.blockSize) > blocks)
                         && forall w :: w in running ==> w in ids
    {
      hide Ready, BatchOk, Filled, CanAppend, Needed, Members, Registry, Displaced, Ordered, Offered, SameText, Tokens;
      hide SameIndex, MakingRoom, Precedes, Step, Without;
      ghost var before, victims := State(), preemptedNow;
      assert forall w :: w in running ==> w < |e.seqs| by { RunningKnown(State(), blocks, setup); }
      var victim := PickVictim(i);
      v := if victim.Some? then victim.value else i;
      RunsOnce(State(), v, blocks, setup);
      WithoutShorter(running, v);
      if v == i {
        assert forall w :: w in running ==> w == i || w in ids by {
          forall w | w in running ensures w == i || w in ids { assert !Candidate(i, w); }
        }
        LastOneFits(State(), i, n, blocks, setup);
      }
      Preempt(v);
      DisplacedMore(was, before, victims, v, e, setup);
      OneMore(priority, q, before, i, n, tail, v, e, setup);
    }

    /** Preempts until sequence `i` can grow by `n` tokens, which then fit the pool; `false` if it
        became the victim itself, after everybody else outside the batch. With an empty batch that
        happens exactly if they do not fit, and nobody is preempted for what has room. `tail` are the
        victims, least first; `was` is the state at the start of the step. */
    method MakeRoom(i: nat, n: nat, ghost was: Queues) returns (ok: bool, ghost tail: seq<nat>)
      requires Building() && Displaced(was, State(), preemptedNow, setup)
      requires i in running && i !in ids && i < |e.seqs| && e.seqs[i].computed + n <= |e.seqs[i].tokens|
      modifies this`e, this`running, this`preempted, this`preemptedNow
      ensures Building() && Displaced(was, State(), preemptedNow, setup)
      ensures MadeRoom(priority, old(State()), State(), i, n, tail, setup)
      ensures preemptedNow == old(preemptedNow) + Listed(tail) && (ok <==> i !in tail)
      ensures ok ==> i in running && i < |e.seqs| && e.seqs[i] == old(e).seqs[i]
                     && CanAppend(e.pool, e.seqs[i], n, setup.blockSize)
      ensures ok ==> Needed(old(e).seqs[i].computed + n, setup.blockSize) <= blocks
      ensures !ok ==> ids != {} || Needed(old(e).seqs[i].computed + n, setup.blockSize) > blocks
      ensures !ok ==> i in preemptedNow && forall v :: v in running ==> v in ids
      ensures CanAppend(old(e).pool, old(e).seqs[i], n, setup.blockSize) ==>
                ok && State() == old(State()) && preemptedNow == old(preemptedNow)
    {
      hide Ready, BatchOk, Filled, CanAppend, Needed, Members, Registry, Displaced, Ordered, Offered, SameText, Tokens;
      hide SameIndex, MakingRoom, Remaining, Step;
      ok, tail := true, [];
      NobodyYet(priority, State(), i, n, setup);
      while !CanAppend(e.pool, e.seqs[i], n, setup.blockSize)
        invariant Building() && Displaced(was, State(), preemptedNow, setup)
        invariant i in running && i < |e.seqs| && e.seqs[i] == old(e).seqs[i]
        invariant MakingRoom(priority, old(State()), State(), i, n, tail, setup)
        invariant preemptedNow == old(preemptedNow) + Listed(tail)
        invariant tail != [] ==> !CanAppend(old(e).pool, old(e).seqs[i], n, setup.blockSize)
        invariant tail == [] ==> State() == old(State())
        decreases |running|
      {
        var v := MakeWay(i, n, was, old(State()), tail);
        tail := tail + [v];
        if v == i { return false, tail; }
      }
      StillThere(priority, old(State()), State(), i, n, tail, setup);
      assert Needed(old(e).seqs[i].computed + n, setup.blockSize) <= blocks by {
        ReadyReachable(State(), blocks, setup);
        AppendWithinPool(e, i, n, blocks, setup);
      }
    }

    /** Allocates the slots for `n` tokens of sequence `i` and records it in the batch. */
    method Emit(i: nat, n: nat)
      requires Building() && i !in ids && Enabled(e, Schedule(i, n), setup)
      requires 1 <= n == NextTokens(e.seqs[i], tokensLeft) && seqsLeft >= 1
      modifies this`e, this`batch, this`ids, this`tokensLeft, this`seqsLeft
      ensures Building() && OnlyChanges(old(e), e, i) && SameText(old(e), e)
      ensures e.seqs[i].written == old(e).seqs[i].written && Step(old(e), Schedule(i, n), setup) == Some(e)
      ensures batch == old(batch) + [Item(i, n)] && ids == old(ids) + {i}
      ensures tokensLeft == old(tokensLeft) - n && seqsLeft == old(seqsLeft) - 1
      ensures Allocatable(e.pool) == Allocatable(old(e).pool) - Missing(old(e).seqs[i], n, setup.blockSize)
    {
      hide Ready, Step, BatchOk, Filled, RunsOut, Registry, Listed, Ordered, SameText, Allocatable;
      EmitReady(State(), i, n, batch, blocks, setup);
      EmitTakes(State(), Step(e, Schedule(i, n), setup).value, i, n, blocks, setup);
      SameTextAt(e, Step(e, Schedule(i, n), setup).value, i);
      FilledMore(e, Step(e, Schedule(i, n), setup).value, i, n, batch, ids, tokensLeft);
      e := Step(e, Schedule(i, n), setup).value;
      batch := batch + [Item(i, n)];
      assert batch[..|batch| - 1] == old(batch);
      ids := ids + {i};
      tokensLeft := tokensLeft - n;
      seqsLeft := seqsLeft - 1;
    }

    /** A turn of a sequence that runs and whose next `n` tokens the rest of the step can carry: room is
        made for them and, unless that took the sequence itself, they are scheduled. */
    method GiveTurn(i: nat, n: nat, ghost was: Queues)
      requires Building() && Displaced(was, State(), preemptedNow, setup)
      requires i in running && i !in ids && i < |e.seqs| && i < |was.e.seqs| && e.seqs[i] == was.e.seqs[i]
      requires n == NextTokens(e.seqs[i], tokensLeft) > 0 && (limits.chunked || n >= Uncomputed(e.seqs[i]))
      requires seqsLeft > 0
      modifies this`e, this`running, this`preempted, this`preemptedNow, this`batch, this`ids, this`tokensLeft
      modifies this`seqsLeft
      ensures Building() && Displaced(was, State(), preemptedNow, setup)
      ensures Turned(was, old(State()), old(Progress()), State(), Progress(), i, limits, blocks, setup.blockSize)
      ensures TurnTaken(priority, Turn(old(State()), old(Progress())), Turn(State(), Progress()), i, limits, setup)
    {
      hide Ready, BatchOk, Filled, CanAppend, RunsOut, Queued, Needed, Registry, Listed, SameText, OnlyChanges;
      hide Displaced, Ordered, Allocatable, Missing, ShareOf, Enabled, Tokens, Turned, MadeRoom, TurnTaken, Step;
      ghost var q, a := State(), Progress();
      if ShareOf(was.e, i, limits, setup.blockSize) <= Allocatable(e.pool) {
        ShareFits(was.e, e, i, n, limits, setup.blockSize);
      }
      var ok, tail := MakeRoom(i, n, was);
      ghost var m := State();
      if !ok {
        TurnGivenUp(priority, Turn(q, a), m, i, n, tail, limits, setup);
        NobodyLeft(running, ids);
        TurnLost(was, q, a, State(), Progress(), i, n, limits, blocks, setup.blockSize);
        return;
      }
      assert Enabled(e, Schedule(i, n), setup) by { Growable(State(), i, n, blocks, setup); }
      Emit(i, n);
      DisplacedEmit(was, m, preemptedNow, i, e, setup);
      TurnUsed(priority, Turn(q, a), m, e, i, n, tail, limits, setup);
      TurnServed(was, q, a, State(), Progress(), i, n, limits, blocks, setup.blockSize);
    }

    /** One such turn, which passes if the sequence was preempted before it or the rest of the step cannot
        carry its next tokens. */
    method ScheduleOne(i: nat, ghost was: Queues)
      requires Building() && Displaced(was, State(), preemptedNow, setup)
      requires i in was.running && i !in ids && tokensLeft > 0 && seqsLeft > 0
      modifies this`e, this`running, this`preempted, this`preemptedNow, this`batch, this`ids, this`tokensLeft
      modifies this`seqsLeft
      ensures Building() && Displaced(was, State(), preemptedNow, setup)
      ensures Turned(was, old(State()), old(Progress()), State(), Progress(), i, limits, blocks, setup.blockSize)
      ensures TurnTaken(priority, Turn(old(State()), old(Progress())), Turn(State(), Progress()), i, limits, setup)
    {
      hide Ready, BatchOk, Filled, RunsOut, Queued, Needed, Registry, Listed, SameText, OnlyChanges;
      hide Displaced, Ordered, Allocatable, Missing, ShareOf, Tokens, Turned, TurnTaken;
      ghost var q, a := State(), Progress();
      RunningBefore(was, q, preemptedNow, i, blocks, setup);
      if i !in running {
        TurnPassed(priority, Turn(q, a), i, limits, setup);
        TurnSkipped(was, q, a, i, limits, blocks, setup.blockSize);
        return;
      }
      var n := NextTokens(e.seqs[i], tokensLeft);
      if n == 0 || (!limits.chunked && n < Uncomputed(e.seqs[i])) {
        TurnPassed(priority, Turn(q, a), i, limits, setup);
        TurnSkipped(was, q, a, i, limits, blocks, setup.blockSize);
        return;
      }
      GiveTurn(i, n, was);
    }

    /** The running sequences' turns, oldest first. Nobody is passed over without a reason, and nobody
        else is scheduled; nobody is preempted while there is room for everybody's chunk. */
    method ScheduleRunning() returns (ghost course: seq<Turn>)
      requires Building() && batch == [] && ids == {} && preemptedNow == {}
      modifies this`e, this`running, this`preempted, this`preemptedNow, this`batch, this`ids, this`tokensLeft
      modifies this`seqsLeft
      ensures Building() && Displaced(old(State()), State(), preemptedNow, setup)
      ensures forall v :: v in ids ==> v in old(running)
      ensures forall v :: v in old(running) ==> Considered(old(e), v, Progress())
      ensures RunningServed(old(State()), State(), preemptedNow, limits, blocks, setup.blockSize)
      ensures Demand(old(e), old(running), limits, setup.blockSize) <= Allocatable(old(e).pool) ==> preemptedNow == {}
      ensures AllTurns(priority, old(running), Turn(old(State()), old(Progress())), course, Turn(State(), Progress()),
                       limits, setup)
    {
      hide Ready, BatchOk, Filled, Registry, Displaced, Members, Tokens, Ordered, TurnsDone, Turned, RunningServed;
      hide Demand, TurnTaken, InTurn;
      ghost var was := State();
      var snapshot := running;
      assert Displaced(was, was, {}, setup) by { DisplacedNobody(was, setup); }
      assert Tokens(batch) == 0 by { NoTokens(); }
      SnapshotDistinct(was, blocks, setup);
      TurnsBegin(was, Progress(), limits, blocks, setup.blockSize);
      ghost var turns := 0;
      course := [Turn(was, Progress())];
      CourseBegun(priority, snapshot, Turn(was, Progress()), limits, setup);
      for k := 0 to |snapshot|
        invariant Building() && Displaced(was, State(), preemptedNow, setup) && turns == k
        invariant TurnsDone(was, State(), Progress(), k, limits, blocks, setup.blockSize)
        invariant |course| == k + 1 && course[0] == Turn(was, old(Progress())) && course[k] == Turn(State(), Progress())
        invariant InTurn(priority, snapshot, course, limits, setup)
      {
        if tokensLeft == 0 || seqsLeft == 0 { break; }
        ghost var before, progress := State(), Progress();
        TurnOf(was, before, progress, k, limits, blocks, setup.blockSize);
        ScheduleOne(snapshot[k], was);
        DisplacedAll(was, State(), preemptedNow, setup);
        NextTurn(was, before, progress, State(), Progress(), k, limits, blocks, setup.blockSize);
        CourseMore(priority, snapshot, course, Turn(State(), Progress()), limits, setup);
        course := course + [Turn(State(), Progress())];
        turns := k + 1;
      }
      TurnsOver(was, State(), Progress(), turns, limits, blocks, setup.blockSize);
    }

    /** The head of the queue, `None` if nobody is queued. */
    method PeekHead() returns (next: Option<nat>)
      requires Building()
      ensures next.None? <==> preempted + waiting == []
      ensures next.Some? ==> next.value == Head(State())
    {
      hide Ready, BatchOk, Filled, Registry, Members, Tokens;
      if preempted != [] { return Some(preempted[0]); }
      next := queue.Peek();
      if next.Some? { PeekedHeads(queue.Value(), queue.shares, waiting, next.value); }
      else { NobodyQueued(queue.Value(), queue.shares, waiting); }
    }

    /** The wait queue admits whom its policy says, and charges that tenant. */
    method PopWaiting()
      requires Ordered() && waiting != []
      modifies this`waiting, queue
      ensures Ordered() && waiting == old(waiting)[1..]
      ensures FairQueue.Admits(old(queue.Value()), queue.shares, 1, queue.Value())
    {
      ghost var was := queue.Value();
      var taken := queue.Take();
      NextTaken(was, queue.shares, waiting, tenants, taken.value.0);
      FairQueue.AdmitsOne(was, queue.shares, taken.value.0);
      waiting := waiting[1..];
    }

    /** Adopts the head's cached blocks and takes it out of its queue: it runs. */
    method StartHead(i: nat)
      requires Building() && preempted + waiting != [] && i == Head(State())
      modifies this`e, this`running, this`preempted, this`waiting, queue
      ensures Building() && Step(old(e), Start(i), setup).Some? && e == Step(old(e), Start(i), setup).value
      ensures State() == Popped(old(State())).(e := e, running := old(running) + [i])
      ensures RunningKept(old(State()), e)
      ensures FairQueue.Admits(old(queue.Value()), queue.shares, |old(waiting)| - |waiting|, queue.Value())
    {
      hide Ready, Step, BatchOk, Filled, Registry, Listed, Tokens, SameText, Credit, Ordered, SameIndex;
      ghost var q := State();
      HeadAdmits(q, batch, blocks, setup);
      HeadApart(q, Step(e, Start(i), setup).value, blocks, setup);
      FilledUntouched(e, Step(e, Start(i), setup).value, i, batch, ids, tokensLeft);
      e := Step(e, Start(i), setup).value;
      running := running + [i];
      FairQueue.AdmitsNobody(queue.Value(), queue.shares);
      if preempted != [] { preempted := preempted[1..]; } else { PopWaiting(); }
      assert State() == Popped(q).(e := e, running := q.running + [i]);
    }

    /** An admission taken back, since the step cannot carry it. */
    method ReleaseHead(i: nat)
      requires Building() && preempted + waiting != [] && i == Head(State())
      modifies this`e
      ensures Building() && State() == old(State()).(e := e)
      ensures SameText(old(e), e) && SameIndex(old(e).pool, e.pool) && RunningKept(old(State()), e)
    {
      hide Ready, Step, BatchOk, Filled, Registry, Listed, Tokens, SameText, Ordered;
      HeadReleased(State(), batch, blocks, setup);
      HeadApart(State(), Step(Step(e, Start(i), setup).value, Retire(i), setup).value, blocks, setup);
      FilledUntouched(e, Step(Step(e, Start(i), setup).value, Retire(i), setup).value, i, batch, ids, tokensLeft);
      e := Step(Step(e, Start(i), setup).value, Retire(i), setup).value;
    }

    /** Starts the head, which the pool and the step can carry, and schedules its first `n` tokens. */
    method TakeHead(i: nat, n: nat)
      requires Building() && preempted + waiting != [] && i == Head(State()) && i !in preemptedNow && i < |e.seqs|
      requires CanAllocate(e.pool, e.seqs[i], setup.blockSize) && Step(e, Start(i), setup).Some? && seqsLeft > 0
      requires i < |Step(e, Start(i), setup).value.seqs|
      requires 1 <= n == NextTokens(Step(e, Start(i), setup).value.seqs[i], tokensLeft)
      requires limits.chunked || n == Uncomputed(Step(e, Start(i), setup).value.seqs[i])
      modifies this`e, this`running, this`preempted, this`waiting, this`batch, this`ids, this`tokensLeft
      modifies this`seqsLeft, queue
      ensures Building() && tokensLeft <= old(tokensLeft) && |batch| == |old(batch)| + 1
      ensures HeadTried(old(State()), State(), true, preemptedNow, old(tokensLeft), limits, setup)
      ensures FairQueue.Admits(old(queue.Value()), queue.shares, |old(waiting)| - |waiting|, queue.Value())
    {
      hide Ready, BatchOk, Filled, CanAllocate, RunsOut, Step, Registry, Listed, Tokens, SameText, Ordered, Credit;
      hide Enabled, SameIndex, OnlyChanges, RunningKept, HeadTried, FairQueue.Admits;
      ghost var q, budget := State(), tokensLeft;
      HeadAdmits(q, batch, blocks, setup);
      ghost var f := Step(e, Start(i), setup).value;
      SameTextAt(e, f, i);
      AdmittedGrows(q, n, blocks, setup);
      StartHead(i);
      Emit(i, n);
      EmittedApart(q, f, e, blocks, setup);
      SameTextMore(q.e, f, e);
      HeadTaken(q, f, State(), preemptedNow, budget, limits, setup);
    }

    /** Tries to admit the next queued sequence; `false` ends the admissions of this step. */
    method AdmitHead() returns (more: bool)
      requires Building() && tokensLeft > 0 && seqsLeft > 0
      modifies this`e, this`running, this`preempted, this`waiting, this`batch, this`ids, this`tokensLeft
      modifies this`seqsLeft, queue
      ensures Building() && tokensLeft <= old(tokensLeft)
      ensures HeadTried(old(State()), State(), more, preemptedNow, old(tokensLeft), limits, setup)
      ensures if more then |batch| == |old(batch)| + 1 else batch == old(batch) && tokensLeft == old(tokensLeft)
      ensures FairQueue.Admits(old(queue.Value()), queue.shares, |old(waiting)| - |waiting|, queue.Value())
    {
      hide Ready, BatchOk, Filled, CanAllocate, RunsOut, Step, Registry, Listed, Tokens, SameText, Ordered, Credit;
      hide Enabled, SameIndex, OnlyChanges, RunningKept, HeadTried, FairQueue.Admits;
      ghost var q, budget := State(), tokensLeft;
      FairQueue.AdmitsNobody(queue.Value(), queue.shares);
      var next := PeekHead();
      if next.None? || next.value in preemptedNow {
        HeadRefused(q, preemptedNow, budget, limits, setup);
        return false;
      }
      var i := next.value;
      HeadKnown(q, blocks, setup);
      if !CanAllocate(e.pool, e.seqs[i], setup.blockSize) {
        HeadRefused(q, preemptedNow, budget, limits, setup);
        return false;
      }
      HeadAdmits(q, batch, blocks, setup);
      var f := Step(e, Start(i), setup).value;
      SameTextAt(e, f, i);
      var n := NextTokens(f.seqs[i], tokensLeft);
      if n == 0 || (!limits.chunked && n < Uncomputed(f.seqs[i])) {
        ReleaseHead(i);
        HeadTakenBack(q, f, State(), preemptedNow, budget, limits, blocks, setup);
        return false;
      }
      TakeHead(i, n);
      more := true;
    }

    /** Resumes preempted sequences, then admits waiting ones in the wait queue's order, until a limit,
        the pool or the step says stop. Nobody is skipped, and nobody preempted in this step is
        resumed. */
    method ScheduleAdmissions()
      requires Building()
      modifies this`e, this`running, this`preempted, this`waiting, this`batch, this`ids, this`tokensLeft
      modifies this`seqsLeft, queue
      ensures Building() && SameText(old(e), e) && old(ids) <= ids
      ensures |old(batch)| <= |batch| && tokensLeft <= old(tokensLeft)
      ensures forall v :: v in ids ==> v in old(ids) || v !in preemptedNow
      ensures Drained(old(State()), State())
      ensures tokensLeft == 0 || seqsLeft == 0 || !Admissible(State(), preemptedNow, tokensLeft, limits, setup)
      ensures batch != old(batch) <==> old(tokensLeft) > 0 && old(seqsLeft) > 0
                                       && Admissible(old(State()), preemptedNow, old(tokensLeft), limits, setup)
      ensures batch == old(batch) ==> State() == old(State()).(e := e) && SameIndex(old(e).pool, e.pool)
      ensures FromScratch(old(ids), State(), setup)
      ensures FairQueue.Admits(old(queue.Value()), queue.shares, |old(waiting)| - |waiting|, queue.Value())
    {
      hide Ready, BatchOk, Filled, Tokens, Registry, Listed, SameText, Admissible, Drained, Ordered, SameIndex;
      hide FromScratch, FairQueue.Admits;
      FairQueue.AdmitsNobody(queue.Value(), queue.shares);
      ScratchSelf(State(), setup);
      ghost var was := State();
      ghost var none := true;
      SameTextSelf(e);
      KeptSelf(was);
      DrainedSelf(was);
      while tokensLeft > 0 && seqsLeft > 0
        invariant Building() && SameText(was.e, e) && was.ids <= ids && Drained(was, State())
        invariant |old(batch)| <= |batch| && tokensLeft <= old(tokensLeft)
        invariant forall v :: v in ids ==> v in was.ids || v !in preemptedNow
        invariant none ==> State() == was && batch == old(batch) && tokensLeft == old(tokensLeft)
        invariant !none ==> |batch| > |old(batch)| && old(tokensLeft) > 0 && old(seqsLeft) > 0
        invariant !none ==> Admissible(was, preemptedNow, old(tokensLeft), limits, setup)
        invariant FromScratch(was.ids, State(), setup)
        invariant FairQueue.Admits(old(queue.Value()), queue.shares, |was.waiting| - |waiting|, queue.Value())
        decreases |preempted| + |waiting|
      {
        ghost var before, budget, fair := State(), tokensLeft, queue.Value();
        var more := AdmitHead();
        ScratchMore(was.ids, before, State(), more, preemptedNow, budget, limits, blocks, setup);
        FairQueue.AdmitsMore(old(queue.Value()), queue.shares, |was.waiting| - |before.waiting|, fair,
                             |before.waiting| - |waiting|, queue.Value());
        SameTextMore(was.e, before.e, e);
        DrainedMore(was, before, State());
        if !more { return; }
        none := false;
      }
    }

    /** Publishes what the previous step completed. */
    method PublishRunning()
      requires Idle()
      modifies this`e
      ensures Idle() && e == AllPublished(old(e), running, setup)
      ensures OnlyPublished(old(e), e)
      ensures AllOffered(State(), setup)
    {
      hide Ready, Step, BatchOk, Filled, Registry, Listed, Ordered, AllOffered, AllPublished;
      assert ids == {} by { EmptyExactly(e, batch, ids); }
      ghost var was := State();
      assert running[..0] == [] && AllPublished(e, [], setup) == e by { NobodyPublished(e, setup); }
      AllPublishedKeeps(was, 0, blocks, setup);
      for k := 0 to |running|
        invariant Idle() && ids == {} && e == AllPublished(was.e, running[..k], setup)
        invariant OnlyPublished(was.e, e)
      {
        AllPublishedKeeps(was, k, blocks, setup);
        AllPublishedKeeps(was, k + 1, blocks, setup);
        BatchOfNobody(e, AllPublished(was.e, running[..k + 1], setup), batch, ids);
        e := Step(e, Offer(running[k]), setup).value;
        FilledByNobody(e, tokensLeft);
      }
      assert running[..|running|] == running;
      PublishedOffered(was, blocks, setup);
    }

    /** Fills the batch, running sequences first. */
    method Assemble() returns (ghost d: Queues, ghost course: seq<Turn>)
      requires Idle() && preemptedNow == {} && AllOffered(State(), setup)
      modifies this`e, this`running, this`preempted, this`waiting, this`preemptedNow
      modifies this`batch, this`ids, this`tokensLeft, this`seqsLeft, queue
      ensures Building() && SameText(old(e), e)
      ensures forall v :: v in old(running) ==> Considered(old(e), v, Progress())
      ensures FirstServed(old(State()), ids, limits, blocks, setup.blockSize)
      ensures ids !! preemptedNow && forall v :: v in preemptedNow ==> v in old(running)
      ensures Displaced(old(State()), d, preemptedNow, setup) && Drained(d, State())
      ensures Demand(old(e), old(running), limits, setup.blockSize) <= Allocatable(old(e).pool) ==> preemptedNow == {}
      ensures tokensLeft == 0 || seqsLeft == 0 || !Admissible(State(), preemptedNow, tokensLeft, limits, setup)
      ensures batch == [] <==> limits.maxTokens == 0 || limits.maxSeqs == 0
                               || NothingFits(old(State()), limits, blocks, setup)
      ensures batch == [] && old(running) == [] ==> State() == old(State()).(e := e) && SameIndex(old(e).pool, e.pool)
      ensures FromScratch(Listed(old(running)), State(), setup)
      ensures FairQueue.Admits(old(queue.Value()), queue.shares, |old(waiting)| - |waiting|, queue.Value())
      ensures StepTurns(priority, old(State()), d, preemptedNow, course, limits, setup)
    {
      hide Ready, BatchOk, Filled, Registry, Listed, Displaced, ChunkOutgrown, NothingFits, RunningServed;
      hide FirstServed, Ordered, Tokens, SameText, Considered, Drained, Admissible, SameIndex, Demand, AllOffered;
      hide Allocatable;
      hide FromScratch, FairQueue.Admits, AllTurns, StepTurns;
      ghost var was := State();
      EmptyExactly(e, batch, ids);
      NoTokens();
      course := ScheduleRunning();
      d := State();
      ghost var progress := Progress();
      StepTaken(priority, was, course, Turn(d, progress), limits, setup);
      EmptyExactly(e, batch, ids);
      AfterTurns(was, d, preemptedNow, limits, blocks, setup);
      DisplacedApart(was, d, preemptedNow, blocks, setup);
      ScheduleAdmissions();
      SameTextMore(was.e, d.e, e);
      StillConsidered(was.e, was.running, progress, Progress());
      StillServed(was, d, preemptedNow, ids, limits, blocks, setup);
      ScratchOf(was.running, d.ids, State(), setup);
    }

    /** One step. Whatever the queues, the priorities and the state of the pool, no allocator, cache or
        out-of-blocks exception escapes: every block-manager call made is enabled. `StepDone` says
        what comes of it. */
    method ScheduleStep()
      requires Idle()
      modifies this`e, this`running, this`preempted, this`waiting, this`preemptedNow
      modifies this`batch, this`ids, this`tokensLeft, this`seqsLeft, queue
      ensures Building() && StepDone(old(State()), State(), batch, Progress(), limits, blocks, setup)
      ensures FairQueue.Admits(old(queue.Value()), queue.shares, |old(waiting)| - |waiting|, queue.Value())
      ensures TurnsBefore(priority, old(State()), State(), preemptedNow, limits, setup)
    {
      hide FromScratch, FairQueue.Admits, StepTurns, StepDone, TurnsBefore, Members;
      hide Ready, BatchOk, Filled, Registry, Listed, FirstServed, Tokens, SameText, Considered, Drained, Displaced;
      hide Ordered, OnlyPublished, AllPublished, NothingFits, Admissible, SameIndex, Demand, AllOffered, Allocatable;
      ghost var was := State();
      preemptedNow := {};
      assert ids == {} by { EmptyExactly(e, batch, ids); }
      PublishRunning();
      ghost var published := State();
      ghost var d, course := Assemble();
      RegistryNames(names, requests, Members(was), Members(State()));
      StepCompleted(was, published, d, State(), batch, Progress(), limits, blocks, setup);
      StepInTurn(priority, was, published, d, State(), preemptedNow, course, limits, setup);
    }

    /** The forward pass over the batch writes all pending KV; the scheduler is idle again. Reports who
        samples a token. */
    method Execute() returns (sampling: seq<nat>)
      requires Building()
      modifies this`e, this`batch, this`ids, this`tokensLeft, this`seqsLeft
      ensures Idle() && ids == {} && SameProgress(old(e), e)
      ensures sampling == Samplers(old(e), old(batch), prompts)
    {
      hide Ready, Step, BatchOk, Filled, Registry, Listed, Ordered, SameProgress, Unwritten, Tokens;
      sampling := Samplers(e, batch, prompts);
      UnwrittenAll(e, batch, ids);
      SameProgressSelf(e);
      NoTokens();
      for k := 0 to |batch|
        invariant batch == old(batch)
        invariant Ready(State(), blocks, setup) && SameProgress(old(e), e) && Unwritten(batch, ids, k)
      {
        var i := batch[k].seqIndex;
        assert i < |e.seqs| by { ItemKnown(old(e), e, batch, old(ids), k); }
        ForwardReady(State(), i, blocks, setup);
        SameProgressMore(old(e), e, Step(e, Forward(i), setup).value);
        UnwrittenNext(batch, ids, k);
        e := Step(e, Forward(i), setup).value;
        ids := ids - {i};
      }
      UnwrittenNone(batch, ids);
      batch := [];
      BatchOfNone(e);
      SameLength(old(e), e);
      tokensLeft, seqsLeft := limits.maxTokens, limits.maxSeqs;
      FilledByNobody(e, tokensLeft);
    }

    /** The wait queue takes in sequence `i`, at the place its policy gives it. */
    method PushWaiting(i: nat, tenant: FairQueue.Tenant)
      requires Ordered() && i == |tenants|
      modifies this`waiting, this`tenants, queue
      ensures !tenantFair ==> waiting == old(waiting) + [i]
      ensures Ordered() && tenants == old(tenants) + [Key(tenant)] && Inserted(old(waiting), i, waiting)
      ensures queue.Value() == FairQueue.Push(old(queue.Value()), Key(tenant), i)
    {
      ghost var was := queue.Value();
      queue.Add(Key(tenant), i);
      AdmissionOrder.PushJoins(was, Key(tenant), i);
      ghost var place := AdmissionOrder.JoinedPlace(queue.Value(), was, queue.shares, waiting, Key(tenant), i);
      AdmissionOrder.PushFiled(was, Key(tenant), i, tenants);
      assert Inserted(waiting, i, waiting[..place] + [i] + waiting[place..]);
      if !tenantFair {
        AdmissionOrder.FirstCome(was, queue.shares, waiting, tenants, "");
        AdmissionOrder.FirstCome(queue.Value(), queue.shares, waiting[..place] + [i] + waiting[place..],
                                 tenants + [Key(tenant)], "");
      }
      waiting := waiting[..place] + [i] + waiting[place..];
      tenants := tenants + [Key(tenant)];
    }

    /** The wait queue lets go of sequence `i`, if it holds it. */
    method DropWaiting(i: nat)
      requires Ordered() && i < |tenants| && multiset(waiting)[i] <= 1
      modifies this`waiting, queue
      ensures Ordered() && multiset(waiting) == old(multiset(waiting)[i := 0])
      ensures queue.Value() == FairQueue.Remove(old(queue.Value()), tenants[i], i)
      ensures i !in old(waiting) ==> waiting == old(waiting)
    {
      ghost var was, before := queue.Value(), waiting;
      ghost var order := AdmissionOrder.RemovedOrder(was, queue.shares, waiting, tenants, tenants[i], i);
      var found := queue.Drop(tenants[i], i);
      AdmissionOrder.RemovedAbsent(was, queue.shares, waiting, tenants, i);
      if found { waiting := order; }
      assert i in before <==> i in multiset(before);
    }

    /** Numbers a request that the wait queue has taken in, and files it under its id. */
    method Register(id: string, lora: int, prompt: seq<Token>, rank: int, ghost q: Queues, ghost l: Ledger)
      requires Books(q, l, [], tokensLeft, seqsLeft, limits, blocks, setup) && batch == [] && Ordered()
      requires State() == q.(waiting := waiting) && Inserted(q.waiting, |e.seqs|, waiting)
      requires tenants != [] && OnFile() == l.(tenants := tenants) && tenants[..|tenants| - 1] == l.tenants
      requires prompt != [] && id !in requests
      modifies this`e, this`priority, this`names, this`prompts, this`requests
      ensures Idle() && requests == old(requests)[id := |old(e).seqs|]
      ensures e.seqs == old(e).seqs + [Waiting(lora, prompt)] && prompts == old(prompts) + [|prompt|]
      ensures priority == old(priority) + [rank] && names == old(names) + [id]
    {
      hide Step, Ordered, Inserted, Waiting, Books;
      Enqueued(q, l, tokensLeft, seqsLeft, lora, prompt, waiting, id, rank, tenants[|tenants| - 1], limits, blocks,
               setup);
      requests := requests[id := |e.seqs|];
      priority, names, prompts := priority + [rank], names + [id], prompts + [|prompt|];
      e := Step(e, Queue(lora, prompt), setup).value;
      assert tenants == l.tenants + [tenants[|tenants| - 1]];
    }

    /** Files an accepted request under its id, last in its tenant's queue. */
    method Enqueue(id: string, lora: int, prompt: seq<Token>, rank: int, tenant: FairQueue.Tenant)
      requires Idle() && id !in requests && prompt != []
      modifies this`e, this`priority, this`names, this`tenants, this`prompts, this`requests, this`waiting, queue
      ensures Idle() && requests == old(requests)[id := |old(e).seqs|]
      ensures e.seqs == old(e).seqs + [Waiting(lora, prompt)] && tenants == old(tenants) + [Key(tenant)]
      ensures prompts == old(prompts) + [|prompt|] && priority == old(priority) + [rank] && names == old(names) + [id]
      ensures Inserted(old(waiting), |old(e).seqs|, waiting)
      ensures !tenantFair ==> waiting == old(waiting) + [|old(e).seqs|]
      ensures queue.Value() == FairQueue.Push(old(queue.Value()), Key(tenant), |old(e).seqs|)
    {
      hide Step, Ordered, Inserted, FairQueue.Push, Waiting;
      ghost var q, l := State(), OnFile();
      OneEach(q, l, tokensLeft, seqsLeft, limits, blocks, setup);
      hide Books, Scheduler.Building;
      PushWaiting(|e.seqs|, tenant);
      assert tenants[..|tenants| - 1] == l.tenants;
      Register(id, lora, prompt, rank, q, l);
    }

    /** Queues a request, unless its id is in flight, its prompt is empty, or it can never be
        scheduled. */
    method AddSequence(id: string, lora: int, prompt: seq<Token>, rank: int, tenant: FairQueue.Tenant)
      returns (ok: bool)
      requires Idle()
      modifies this`e, this`priority, this`names, this`tenants, this`prompts, this`requests, this`waiting, queue
      ensures Idle()
      ensures ok <==> id !in old(requests) && prompt != [] && Needed(|prompt|, setup.blockSize) <= blocks
                      && (limits.chunked || |prompt| <= limits.maxTokens)
      ensures !ok ==> State() == old(State()) && requests == old(requests) && queue.Value() == old(queue.Value())
      ensures ok ==> requests == old(requests)[id := |old(e).seqs|]
      ensures ok ==> e.seqs == old(e).seqs + [Waiting(lora, prompt)]
      ensures tenants == if ok then old(tenants) + [Key(tenant)] else old(tenants)
      ensures prompts == if ok then old(prompts) + [|prompt|] else old(prompts)
      ensures priority == if ok then old(priority) + [rank] else old(priority)
      ensures names == if ok then old(names) + [id] else old(names)
      ensures ok ==> Inserted(old(waiting), |old(e).seqs|, waiting)
      ensures ok && !tenantFair ==> waiting == old(waiting) + [|old(e).seqs|]
      ensures ok ==> queue.Value() == FairQueue.Push(old(queue.Value()), Key(tenant), |old(e).seqs|)
    {
      hide Ready, BatchOk, Filled, Registry, Members, Tokens, Needed, Ordered, Inserted;
      if id in requests || prompt == [] || Needed(|prompt|, setup.blockSize) > blocks
         || (!limits.chunked && |prompt| > limits.maxTokens)
      {
        return false;
      }
      Enqueue(id, lora, prompt, rank, tenant);
      ok := true;
    }

    /** Records a sampled token. */
    method AppendToken(i: nat, token: Token)
      requires Idle() && i < |e.seqs|
      modifies this`e
      ensures Idle() && OnlyChanges(old(e), e, i)
      ensures e.seqs[i] == old(e).seqs[i].(tokens := old(e).seqs[i].tokens + [token])
    {
      SampleReady(State(), i, token, blocks, setup);
      hide Ready, Registry, Listed, Ordered, Filled;
      e := Step(e, Sample(i, token), setup).value;
      FilledByNobody(e, tokensLeft);
    }

    /** Takes a sequence out of whichever queue it is in. */
    method Unqueue(i: nat)
      requires setup.blockSize >= 1 && Ready(State(), blocks, setup) && Ordered() && i < |tenants|
      modifies this`running, this`preempted, this`waiting, queue
      ensures Ordered()
      ensures running == Without(old(running), i) && preempted == Without(old(preempted), i)
      ensures multiset(waiting) == old(multiset(waiting)[i := 0]) && (i !in old(waiting) ==> waiting == old(waiting))
      ensures queue.Value() == if i in old(running) || i in old(preempted) then old(queue.Value())
                               else FairQueue.Remove(old(queue.Value()), tenants[i], i)
    {
      ListedOnce(State(), i, blocks, setup);
      hide Ready, Without, Ordered, FairQueue.Remove;
      if i in running {
        running := Without(running, i);
      } else if i in preempted {
        preempted := Without(preempted, i);
      } else {
        DropWaiting(i);
      }
    }

    /** Retires a sequence, wherever it is queued, and returns its blocks. The wait queue's policy may
        order whoever is left there anew. A sequence retired before may be retired again unless its
        id has gone to a new request, which would be forgotten. */
    method Finish(i: nat)
      requires Idle() && i < |e.seqs| && (i in Members(State()) || names[i] !in requests)
      modifies this`e, this`running, this`preempted, this`waiting, this`requests, queue
      ensures Idle() && OnlyChanges(old(e), e, i) && SameText(old(e), e) && e.seqs[i].table == []
      ensures Members(State()) == old(Members(State())) - {i} && requests == old(requests) - {names[i]}
      ensures running == Without(old(running), i) && preempted == Without(old(preempted), i)
      ensures multiset(waiting) == old(multiset(waiting)[i := 0]) && (i !in old(waiting) ==> waiting == old(waiting))
      ensures queue.Value() == if i in old(running) || i in old(preempted) then old(queue.Value())
                               else FairQueue.Remove(old(queue.Value()), tenants[i], i)
    {
      hide Ready, Step, Without, Members, Ordered, SameText, OnlyChanges, FairQueue.Remove;
      ghost var q, l := State(), OnFile();
      OneEach(q, l, tokensLeft, seqsLeft, limits, blocks, setup);
      hide Books;
      Unqueue(i);
      Finished(q, l, tokensLeft, seqsLeft, i, waiting, limits, blocks, setup);
      e := Step(e, Retire(i), setup).value;
      requests := requests - {names[i]};
    }

    /** Cancels a request in flight; reports whether there was one. */
    method Abort(id: string) returns (found: bool)
      requires Idle()
      modifies this`e, this`running, this`preempted, this`waiting, this`requests, queue
      ensures Idle() && SameText(old(e), e)
      ensures found <==> id in old(requests)
      ensures !found ==> State() == old(State()) && queue.Value() == old(queue.Value())
      ensures found ==> Members(State()) == old(Members(State())) - {old(requests)[id]}
                        && e.seqs[old(requests)[id]].table == []
      ensures requests == old(requests) - {id}
    {
      if id !in requests { return false; }
      hide Ready, BatchOk, Filled, Without, Listed, Ordered;
      MembersKnown(State(), blocks, setup);
      Finish(requests[id]);
      found := true;
    }
  }

  lemma RunningBefore(was: Queues, q: Queues, victims: set<nat>, i: nat, blocks: nat, setup: Setup)
    requires setup.blockSize >= 1 && Displaced(was, q, victims, setup) && Ready(q, blocks, setup)
    requires i in was.running && i !in q.ids
    ensures i in q.running || i in victims
    ensures i in q.running ==> i < |q.e.seqs| && i < |was.e.seqs| && q.e.seqs[i] == was.e.seqs[i]
  {
    hide Ready, Displaced;
    RunningKnown(q, blocks, setup);
    DisplacedGone(was, q, victims, i, setup);
  }

  lemma ReadyReachable(q: Queues, blocks: nat, setup: Setup)
    requires Ready(q, blocks, setup)
    ensures Reachable(q.e, blocks, setup)
  {}

  lemma DisplacedAll(q: Queues, r: Queues, victims: set<nat>, setup: Setup)
    requires setup.blockSize >= 1 && Displaced(q, r, victims, setup)
    ensures forall v :: v in q.running ==> v in r.running || v in victims
  {}

  lemma DisplacedApart(q: Queues, r: Queues, victims: set<nat>, blocks: nat, setup: Setup)
    requires setup.blockSize >= 1 && Displaced(q, r, victims, setup) && Ready(r, blocks, setup)
    ensures SameText(q.e, r.e) && r.ids !! victims && forall v :: v in victims ==> v in q.running
  {
    QueuedApart(r, blocks, setup);
  }

  lemma QueuedReady(q: Queues, lora: int, prompt: seq<Token>, waiting: seq<nat>, blocks: nat, setup: Setup)
    requires Ready(q, blocks, setup) && prompt != [] && Inserted(q.waiting, |q.e.seqs|, waiting)
    ensures Step(q.e, Queue(lora, prompt), setup).Some?
    ensures var f := Step(q.e, Queue(lora, prompt), setup).value;
            var r := q.(e := f, waiting := waiting);
            && Ready(r, blocks, setup) && Members(r) == Members(q) + {|q.e.seqs|} && |q.e.seqs| !in Members(q)
            && f.seqs == q.e.seqs + [Waiting(lora, prompt)]
  {
    var k: nat :| k <= |q.waiting| && waiting == q.waiting[..k] + [|q.e.seqs|] + q.waiting[k..];
    QueueReady(q, lora, prompt, k, waiting, blocks, setup);
  }

  lemma OneEach(q: Queues, l: Ledger, tokensLeft: nat, seqsLeft: nat, limits: Limits, blocks: nat, setup: Setup)
    requires Books(q, l, [], tokensLeft, seqsLeft, limits, blocks, setup)
    ensures setup.blockSize >= 1 && Ready(q, blocks, setup)
    ensures |l.priority| == |l.names| == |l.tenants| == |l.prompts| == |q.e.seqs|
  {}

  lemma Enqueued(q: Queues, l: Ledger, tokensLeft: nat, seqsLeft: nat, lora: int, prompt: seq<Token>,
                 waiting: seq<nat>, id: string, rank: int, tenant: FairQueue.Tenant, limits: Limits, blocks: nat,
                 setup: Setup)
    requires Books(q, l, [], tokensLeft, seqsLeft, limits, blocks, setup)
    requires prompt != [] && id !in l.requests && Inserted(q.waiting, |q.e.seqs|, waiting)
    ensures setup.blockSize >= 1 && Step(q.e, Queue(lora, prompt), setup).Some?
    ensures var f := Step(q.e, Queue(lora, prompt), setup).value;
            var m := Ledger(l.priority + [rank], l.names + [id], l.tenants + [tenant], l.prompts + [|prompt|],
                            l.requests[id := |q.e.seqs|]);
            && Books(q.(e := f, waiting := waiting), m, [], tokensLeft, seqsLeft, limits, blocks, setup)
            && f.seqs == q.e.seqs + [Waiting(lora, prompt)]
  {
    hide Ready, Step, BatchOk, Filled, Registry, Members, Inserted;
    QueuedReady(q, lora, prompt, waiting, blocks, setup);
    RegistryAdd(l.names, l.requests, Members(q), id);
    BatchGrown(q.e, Step(q.e, Queue(lora, prompt), setup).value, [], q.ids);
    FilledByNobody(Step(q.e, Queue(lora, prompt), setup).value, tokensLeft);
  }

  lemma Finished(q: Queues, l: Ledger, tokensLeft: nat, seqsLeft: nat, i: nat, waiting: seq<nat>, limits: Limits,
                 blocks: nat, setup: Setup)
    requires Books(q, l, [], tokensLeft, seqsLeft, limits, blocks, setup) && i < |q.e.seqs|
    requires multiset(waiting) == multiset(q.waiting)[i := 0] && (i in Members(q) || l.names[i] !in l.requests)
    ensures setup.blockSize >= 1 && Step(q.e, Retire(i), setup).Some?
    ensures var f := Step(q.e, Retire(i), setup).value;
            var r := Queues(f, Without(q.running, i), Without(q.preempted, i), waiting, q.ids);
            && Books(r, l.(requests := l.requests - {l.names[i]}), [], tokensLeft, seqsLeft, limits, blocks, setup)
            && OnlyChanges(q.e, f, i) && SameText(q.e, f) && f.seqs[i].table == [] && Members(r) == Members(q) - {i}
  {
    hide Ready, Step, BatchOk, Filled, Registry, Members, Without, SameText;
    assert q.ids == {} by { EmptyExactly(q.e, [], q.ids); }
    FinishReady(q, i, waiting, blocks, setup);
    RegistryDrop(l.names, l.requests, Members(q), i);
    BatchUntouched(q.e, Step(q.e, Retire(i), setup).value, i, [], q.ids);
    FilledByNobody(Step(q.e, Retire(i), setup).value, tokensLeft);
  }

  /** A sequence is in one list at most, once; taking it out of the others changes nothing. */
  lemma ListedOnce(q: Queues, i: nat, blocks: nat, setup: Setup)
    requires Ready(q, blocks, setup)
    ensures multiset(q.waiting)[i] <= 1
    ensures i in q.running ==> i !in q.preempted && multiset(q.waiting)[i] == 0
    ensures i in q.preempted ==> i !in q.running && multiset(q.waiting)[i] == 0
    ensures i !in q.running ==> Without(q.running, i) == q.running
    ensures i !in q.preempted ==> Without(q.preempted, i) == q.preempted
    ensures multiset(q.waiting)[i] == 0 ==> multiset(q.waiting)[i := 0] == multiset(q.waiting)
  {
    assert Queued(q, i);
    assert i in q.running <==> i in multiset(q.running);
    assert i in q.preempted <==> i in multiset(q.preempted);
    WithoutAbsent(q.running, i);
    WithoutAbsent(q.preempted, i);
  }

  lemma {:induction false} WithoutAbsent(s: seq<nat>, x: nat)
    ensures x !in s ==> Without(s, x) == s
  {
    if s != [] { WithoutAbsent(s[1..], x); }
  }

  lemma KeptSelf(q: Queues)
    ensures RunningKept(q, q.e)
  {}

  lemma HeadApart(q: Queues, f: Engine, blocks: nat, setup: Setup)
    requires Ready(q, blocks, setup) && q.preempted + q.waiting != [] && OnlyChanges(q.e, f, Head(q))
    ensures RunningKept(q, f)
  {
    assert Queued(q, Head(q));
    assert Head(q) in multiset(q.preempted) || Head(q) in multiset(q.waiting);
    assert Head(q) in q.running <==> Head(q) in multiset(q.running);
  }

  lemma EmittedApart(q: Queues, f: Engine, g: Engine, blocks: nat, setup: Setup)
    requires Ready(q, blocks, setup) && q.preempted + q.waiting != []
    requires OnlyChanges(q.e, f, Head(q)) && OnlyChanges(f, g, Head(q))
    ensures RunningKept(q, g)
  {
    HeadApart(q, g, blocks, setup);
  }

  lemma RunsOnce(q: Queues, i: nat, blocks: nat, setup: Setup)
    requires Ready(q, blocks, setup) && i in q.running
    ensures multiset(q.running)[i] == 1
  {
    assert Queued(q, i);
    assert i in multiset(q.running);
  }

  lemma EmitTakes(q: Queues, f: Engine, i: nat, n: nat, blocks: nat, setup: Setup)
    requires Ready(q, blocks, setup) && i < |q.e.seqs| && Ready(q.(e := f, ids := q.ids + {i}), blocks, setup)
    requires OnlyChanges(q.e, f, i) && f.seqs[i].computed == q.e.seqs[i].computed + n
    requires Allocatable(f.pool) + |f.seqs[i].table| == Allocatable(q.e.pool) + |q.e.seqs[i].table|
    ensures Allocatable(f.pool) == Allocatable(q.e.pool) - Missing(q.e.seqs[i], n, setup.blockSize)
  {
    hide Reachable, Queued, Allocatable, Needed;
    assert Tight(q.e.seqs[i], setup.blockSize) && Tight(f.seqs[i], setup.blockSize);
    NeededMonotone(q.e.seqs[i].computed, f.seqs[i].computed, setup.blockSize);
  }

  lemma ShareFits(was: Engine, e: Engine, i: nat, n: nat, limits: Limits, bs: nat)
    requires bs >= 1 && i < |was.seqs| && i < |e.seqs| && e.seqs[i] == was.seqs[i]
    requires n <= NextTokens(e.seqs[i], limits.maxTokens) && e.seqs[i].computed + n <= |e.seqs[i].tokens|
    requires ShareOf(was, i, limits, bs) <= Allocatable(e.pool)
    ensures CanAppend(e.pool, e.seqs[i], n, bs) && Missing(e.seqs[i], n, bs) <= ShareOf(was, i, limits, bs)
  {
    ShareCovers(e, i, n, limits, bs);
  }

  lemma SameTextSelf(e: Engine)
    ensures SameText(e, e) && SameIndex(e.pool, e.pool)
  {}

  lemma SameTextAt(e: Engine, f: Engine, i: nat)
    requires SameText(e, f) && i < |e.seqs|
    ensures i < |f.seqs| && f.seqs[i].tokens == e.seqs[i].tokens
  {}

  lemma SameTextMore(e: Engine, f: Engine, g: Engine)
    requires SameText(e, f) && SameText(f, g)
    ensures SameText(e, g)
  {}

  lemma PeekedHeads(q: FairQueue.Fair, shares: FairQueue.Shares, s: seq<nat>, x: nat)
    requires AdmissionOrder.InOrder(q, shares, s)
    requires exists t :: FairQueue.IsNext(q, t) && t in q.queues && q.queues[t] != [] && x == q.queues[t][0]
    ensures s != [] && s[0] == x
  {
    var t :| FairQueue.IsNext(q, t) && t in q.queues && q.queues[t] != [] && x == q.queues[t][0];
    AdmissionOrder.NextHeads(q, shares, s, t);
  }

  lemma NobodyQueued(q: FairQueue.Fair, shares: FairQueue.Shares, s: seq<nat>)
    requires AdmissionOrder.InOrder(q, shares, s) && q.queues == map[]
    ensures s == []
  {}

  lemma NextTaken(q: FairQueue.Fair, shares: FairQueue.Shares, s: seq<nat>, tenants: seq<FairQueue.Tenant>,
                  t: FairQueue.Tenant)
    requires AdmissionOrder.InOrder(q, shares, s) && AdmissionOrder.Filed(q, tenants) && FairQueue.IsNext(q, t)
    ensures s != [] && AdmissionOrder.InOrder(FairQueue.Pop(q, shares, t), shares, s[1..])
    ensures AdmissionOrder.Filed(FairQueue.Pop(q, shares, t), tenants)
  {
    AdmissionOrder.NextHeads(q, shares, s, t);
    AdmissionOrder.FiledPop(q, shares, t, tenants);
  }

  lemma PublishedIsText(e: Engine, f: Engine)
    requires OnlyPublished(e, f)
    ensures SameText(e, f)
  {}

  /** Whoever still has KV to be written is in the rest of the batch. */
  ghost predicate Unwritten(batch: seq<Item>, ids: set<nat>, k: nat) {
    k <= |batch| && forall x :: x in ids ==> exists m: nat :: k <= m < |batch| && batch[m].seqIndex == x
  }

  lemma UnwrittenAll(e: Engine, batch: seq<Item>, ids: set<nat>)
    requires BatchOk(e, batch, ids)
    ensures Unwritten(batch, ids, 0)
  {}

  lemma UnwrittenNext(batch: seq<Item>, ids: set<nat>, k: nat)
    requires k < |batch| && Unwritten(batch, ids, k)
    ensures Unwritten(batch, ids - {batch[k].seqIndex}, k + 1)
  {}

  lemma UnwrittenNone(batch: seq<Item>, ids: set<nat>)
    requires Unwritten(batch, ids, |batch|)
    ensures ids == {}
  {}

  lemma ItemKnown(was: Engine, e: Engine, batch: seq<Item>, ids: set<nat>, k: nat)
    requires BatchOk(was, batch, ids) && SameProgress(was, e) && k < |batch|
    ensures batch[k].seqIndex < |e.seqs|
  {
    assert Pending(was, batch[k]);
  }

  lemma SameLength(e: Engine, f: Engine)
    requires SameProgress(e, f)
    ensures |f.seqs| == |e.seqs|
  {}

  lemma SameProgressSelf(e: Engine)
    ensures SameProgress(e, e)
  {}

  lemma SameProgressMore(e: Engine, f: Engine, g: Engine)
    requires SameProgress(e, f) && SameProgress(f, g)
    ensures SameProgress(e, g)
  {}

  lemma BatchOfNone(e: Engine)
    ensures BatchOk(e, [], {})
  {}

  lemma NobodyPublished(e: Engine, setup: Setup)
    requires setup.blockSize >= 1
    ensures AllPublished(e, [], setup) == e
  {}

  lemma BatchOfNobody(e: Engine, f: Engine, batch: seq<Item>, ids: set<nat>)
    requires BatchOk(e, batch, ids) && ids == {}
    ensures BatchOk(f, batch, ids)
  {}

  lemma NoTokens()
    ensures Tokens([]) == 0
  {}

  lemma NobodyLeft(s: seq<nat>, a: set<nat>)
    requires forall v :: v in s ==> v in a
    ensures a == {} ==> s == []
  {
    if s != [] { assert s[0] in a; }
  }
}
