/** What each action of the engine does to the sequences, the pool and the prefix index, and how much
    room that leaves (src/turboserve/engine/core/block_manager.py:141-369). */
module EngineEffects {
  import opened Prelude
  import opened KvBlocks
  import opened KvSharing
  import opened KvEngine

  /** The engine will neither refuse this action nor raise in the middle of it. */
  predicate Enabled(e: Engine, a: Action, setup: Setup)
    requires setup.blockSize >= 1
  {
    match a
    case Queue(_, _) => true
    case Start(i) => i < |e.seqs| && e.seqs[i].table == []
    case Schedule(i, n) =>
      && i < |e.seqs| && e.seqs[i].open && Settled(e.seqs[i])
      && e.seqs[i].computed + n <= |e.seqs[i].tokens|
      && !RunsOut(e.pool, e.seqs[i], n, setup.blockSize)
    case Forward(i) => i < |e.seqs|
    case Sample(i, _) => i < |e.seqs|
    case Offer(i) => i < |e.seqs| && e.seqs[i].open && Settled(e.seqs[i])
    case Retire(i) => i < |e.seqs| && Settled(e.seqs[i])
    case Draft(i, drafts) => i < |e.seqs| && Draftable(e.pool, e.seqs[i], drafts, setup.blockSize)
    case Verdict(i, accepted, fed, credited, _) => i < |e.seqs| && Resolvable(e.seqs[i], accepted, fed, credited)
  }

  // ---- what an action does to the sequences -------------------------------------------------

  /** Only sequence `i` differs. */
  ghost predicate OnlyChanges(e: Engine, f: Engine, i: nat) {
    i < |e.seqs| && |f.seqs| == |e.seqs| && f.seqs == e.seqs[i := f.seqs[i]]
  }

  /** Nobody's tokens or adapter differ. */
  ghost predicate SameText(e: Engine, f: Engine) {
    |f.seqs| == |e.seqs| && forall j: nat :: j < |e.seqs| ==>
      f.seqs[j].tokens == e.seqs[j].tokens && f.seqs[j].lora == e.seqs[j].lora
  }

  /** Nothing differs but how much has been offered to the prefix cache, and as much room is left. */
  ghost predicate OnlyPublished(e: Engine, f: Engine) {
    && |f.seqs| == |e.seqs| && Allocatable(f.pool) == Allocatable(e.pool)
    && forall j: nat :: j < |e.seqs| ==> f.seqs[j] == e.seqs[j].(published := f.seqs[j].published)
  }

  lemma {:induction false} PublishRoom(p: Pool, s: Live, bs: nat)
    requires bs >= 1 && Publish(p, s, bs).Some?
    ensures Allocatable(Publish(p, s, bs).value.0) == Allocatable(p)
    decreases |s.table| - s.published
  {
    if s.open && s.published < Full(s.computed, bs) && s.published < |s.table| {
      PublishRoom(Insert(p, s.table[s.published], BlockKey(s, s.published, bs)).value,
                  s.(published := s.published + 1), bs);
    }
  }

  /** The prefix cache knows the same blocks. */
  predicate SameIndex(p: Pool, q: Pool) { p.byHash == q.byHash && p.byBlock == q.byBlock }

  /** No more blocks than the computed tokens take. */
  predicate Tight(s: Live, bs: nat)
    requires bs >= 1
  {
    |s.table| == Needed(s.computed, bs)
  }

  /** Whole blocks completed and not offered to the cache yet: none. */
  predicate Offered(s: Live, setup: Setup)
    requires setup.blockSize >= 1
  {
    setup.caching ==> s.published >= Full(s.computed, setup.blockSize)
  }

  lemma {:induction false} AdoptIndex(p: Pool, s: Live, h: nat, bs: nat)
    requires bs >= 1 && Adopt(p, s, h, bs).Some? && s.published == |s.table|
    ensures SameIndex(p, Adopt(p, s, h, bs).value.0)
    ensures Adopt(p, s, h, bs).value.1.published == |Adopt(p, s, h, bs).value.1.table|
    decreases h - |s.table|
  {
    if |s.table| < h {
      var b := p.byHash[BlockKey(s, |s.table|, bs)];
      AdoptIndex(Share(p, b).value,
                 s.(table := s.table + [b], published := s.published + 1,
                    computed := s.computed + bs, written := s.written + bs), h, bs);
    }
  }

  lemma {:induction false} DropAllIndex(p: Pool, table: seq<nat>)
    requires DropAll(p, table).Some?
    ensures SameIndex(p, DropAll(p, table).value)
    decreases |table|
  {
    if table != [] { DropAllIndex(Drop(p, table[0]).value, table[1..]); }
  }

  lemma {:induction false} NeededOfSize(k: nat, bs: nat)
    requires bs >= 1
    ensures Needed(Size(k, bs), bs) == k && Full(Size(k, bs), bs) == k
  {
    hide Needed, Full;
    NeededFits(Size(k, bs), k, bs);
    if k > 0 { NeededFits(Size(k, bs), k - 1, bs); }
    SizeFits(k, Size(k, bs), bs);
    SizeFits(k + 1, Size(k, bs), bs);
  }

  lemma {:induction false} AdmitIndex(p: Pool, s: Live, bs: nat)
    requires bs >= 1 && Admit(p, s, bs).Some? && s.table == []
    ensures SameIndex(p, Admit(p, s, bs).value.0)
    ensures Admit(p, s, bs).value.1.published == |Admit(p, s, bs).value.1.table|
    ensures Admit(p, s, bs).value.1.lora == s.lora
  {
    var u := s.(open := true, computed := 0, written := 0, published := 0, draft := None);
    AdoptIndex(p, u, Hits(p.byHash, s, 0, HitCap(s, bs), bs), bs);
    AdoptSameSequence(p, u, Hits(p.byHash, s, 0, HitCap(s, bs), bs), bs);
  }

  /** Tokens the cache would save a sequence admitted now. */
  function Credit(p: Pool, s: Live, bs: nat): nat
    requires bs >= 1
  {
    Size(Hits(p.byHash, s, 0, HitCap(s, bs), bs), bs)
  }

  lemma {:induction false} StartEffect(e: Engine, i: nat, blocks: nat, setup: Setup)
    requires setup.blockSize >= 1 && Reachable(e, blocks, setup) && Enabled(e, Start(i), setup)
    ensures Step(e, Start(i), setup).Some?
    ensures var f := Step(e, Start(i), setup).value;
            && OnlyChanges(e, f, i) && f.seqs[i].open && Settled(f.seqs[i])
            && f.seqs[i].tokens == e.seqs[i].tokens && f.seqs[i].lora == e.seqs[i].lora
            && f.seqs[i].computed <= |f.seqs[i].tokens|
            && (e.seqs[i].tokens != [] ==> f.seqs[i].computed < |f.seqs[i].tokens|)
            && Admit(e.pool, e.seqs[i], setup.blockSize) == Some((f.pool, f.seqs[i]))
            && f.seqs[i].computed == Credit(e.pool, e.seqs[i], setup.blockSize)
            && Tight(f.seqs[i], setup.blockSize) && Offered(f.seqs[i], setup) && SameIndex(e.pool, f.pool)
  {
    var bs := setup.blockSize;
    hide Focus, Undisturbed, Sound, Reachable, Admit, RetainedHits, Others, Size, Full, Fed;
    var g := ReachableSound(e, blocks, setup);
    FocusOn(g, i, bs);
    AdmitKeeps(e.pool, g.kv, e.seqs[i], Others(e.seqs, i), bs);
    var s := e.seqs[i];
    var h := Hits(e.pool.byHash, s, 0, HitCap(s, bs), bs);
    AdmitIndex(e.pool, s, bs);
    NeededOfSize(h, bs);
    assert Size(h, bs) <= Size(HitCap(s, bs), bs) by {
      PositionOf(HitCap(s, bs), 0, bs);
      SizeFits(h, Size(HitCap(s, bs), bs), bs);
    }
  }

  lemma {:induction false} ScheduleEffect(e: Engine, i: nat, n: nat, blocks: nat, setup: Setup)
    requires setup.blockSize >= 1 && Reachable(e, blocks, setup) && Enabled(e, Schedule(i, n), setup)
    ensures Step(e, Schedule(i, n), setup).Some?
    ensures var f := Step(e, Schedule(i, n), setup).value;
            && OnlyChanges(e, f, i)
            && f.seqs[i] == e.seqs[i].(computed := e.seqs[i].computed + n, table := f.seqs[i].table)
            && Allocatable(f.pool) + |f.seqs[i].table| == Allocatable(e.pool) + |e.seqs[i].table|
            && (Tight(e.seqs[i], setup.blockSize) ==> Tight(f.seqs[i], setup.blockSize))
  {
    var bs := setup.blockSize;
    var g := ReachableSound(e, blocks, setup);
    FocusOn(g, i, bs);
    hide Focus, Undisturbed, Sound, Reachable, Grow, Needed;
    GrowKeeps(e.pool, g.kv, e.seqs[i], Needed(e.seqs[i].computed + n, bs), Others(e.seqs, i), bs);
    NeededMonotone(e.seqs[i].computed, e.seqs[i].computed + n, bs);
  }

  lemma {:induction false} OfferEffect(e: Engine, i: nat, blocks: nat, setup: Setup)
    requires setup.blockSize >= 1 && Reachable(e, blocks, setup) && Enabled(e, Offer(i), setup)
    ensures Step(e, Offer(i), setup).Some?
    ensures var f := Step(e, Offer(i), setup).value;
            && OnlyChanges(e, f, i) && f.seqs[i] == e.seqs[i].(published := f.seqs[i].published)
            && Offered(f.seqs[i], setup) && (!setup.caching ==> f == e) && OnlyPublished(e, f)
  {
    var bs := setup.blockSize;
    var g := ReachableSound(e, blocks, setup);
    FocusOn(g, i, bs);
    hide Focus, Undisturbed, Sound, Reachable, Publish;
    PublishKeeps(e.pool, g.kv, e.seqs[i], Others(e.seqs, i), bs);
    PublishRoom(e.pool, e.seqs[i], bs);
  }

  lemma {:induction false} RetireEffect(e: Engine, i: nat, blocks: nat, setup: Setup)
    requires setup.blockSize >= 1 && Reachable(e, blocks, setup) && Enabled(e, Retire(i), setup)
    ensures Step(e, Retire(i), setup).Some?
    ensures var f := Step(e, Retire(i), setup).value;
            && OnlyChanges(e, f, i)
            && f.seqs[i] == e.seqs[i].(table := [], computed := 0, written := 0, published := 0, open := false,
                                       draft := None)
            && Tight(f.seqs[i], setup.blockSize) && (Offered(e.seqs[i], setup) ==> SameIndex(e.pool, f.pool))
  {
    hide Reachable, Publish, DropAll;
    ReachableStep(e, Retire(i), blocks, setup);
    if Offered(e.seqs[i], setup) { ReleaseIndex(e.pool, e.seqs[i], setup); }
  }

  lemma {:induction false} ReleaseIndex(p: Pool, s: Live, setup: Setup)
    requires setup.blockSize >= 1 && Release(p, s, setup.blockSize, setup.caching).Some? && Offered(s, setup)
    ensures SameIndex(p, Release(p, s, setup.blockSize, setup.caching).value.0)
  {
    DropAllIndex(p, s.table);
  }

  lemma {:induction false} ForwardEffect(e: Engine, i: nat, blocks: nat, setup: Setup)
    requires setup.blockSize >= 1 && Reachable(e, blocks, setup) && Enabled(e, Forward(i), setup)
    ensures Step(e, Forward(i), setup).Some?
    ensures var f := Step(e, Forward(i), setup).value;
            OnlyChanges(e, f, i) && f.seqs[i] == e.seqs[i].(written := e.seqs[i].computed)
  {
    var bs := setup.blockSize;
    var g := ReachableSound(e, blocks, setup);
    FocusOn(g, i, bs);
    hide Focus, Undisturbed, Sound, Reachable, Write;
    WriteKeeps(e.pool, g.kv, e.seqs[i], Others(e.seqs, i), bs);
    WriteBlind(e.kv, g.kv, e.seqs[i], bs);
  }

  /** When every other sequence has given its blocks back, the whole pool but its own blocks is
      allocatable: growth fails only beyond the size of the pool. */
  lemma {:induction false} AloneFits(e: Engine, i: nat, n: nat, blocks: nat, setup: Setup)
    requires setup.blockSize >= 1 && Reachable(e, blocks, setup) && i < |e.seqs|
    requires forall j: nat :: j < |e.seqs| && j != i ==> e.seqs[j].table == []
    requires e.seqs[i].computed + n <= |e.seqs[i].tokens|
    requires Needed(e.seqs[i].computed + n, setup.blockSize) <= blocks
    ensures CanAppend(e.pool, e.seqs[i], n, setup.blockSize)
  {
    hide Reachable, Needed, Allocatable, InUse, Owned, Others;
    NothingLeaks(e, blocks, setup);
    assert Owned(e.seqs) == multiset(e.seqs[i].table) by {
      var x := e.seqs[i].(table := []);
      OwnedUpdate(e.seqs, i, x);
      NobodyOwns(e.seqs[i := x]);
      OwnedSplit(e.seqs, i);
    }
    InUseAtMost(e.pool, e.seqs[i].table);
  }

  lemma {:induction false} InUseAtMost(p: Pool, table: seq<nat>)
    ensures |InUse(p, multiset(table))| <= |table|
  {
    AtMost(InUse(p, multiset(table)), table);
  }

  lemma {:induction false} AtMost(a: set<nat>, s: seq<nat>)
    requires forall b :: b in a ==> b in s
    ensures |a| <= |s|
  {
    if a != {} {
      AtMost(a - {s[0]}, s[1..]);
    }
  }

  // ---- room, exactly ------------------------------------------------------------------------

  /** Blocks `n` more tokens would take. */
  function Missing(s: Live, n: nat, bs: nat): nat
    requires bs >= 1
  {
    var needed := Needed(s.computed + n, bs);
    if needed <= |s.table| then 0 else needed - |s.table|
  }

  /** No block is listed twice in one table. */
  lemma {:induction false} OwnTableDistinct(e: Engine, i: nat, k: nat, m: nat, blocks: nat, setup: Setup)
    requires setup.blockSize >= 1 && Reachable(e, blocks, setup) && i < |e.seqs| && k < m < |e.seqs[i].table|
    ensures e.seqs[i].table[k] != e.seqs[i].table[m]
  {
    var bs := setup.blockSize;
    var s := e.seqs[i];
    hide Reachable, Sound, SeqOk, CacheHolds, Owned, Others, Size, Fed;
    var g := ReachableSound(e, blocks, setup);
    FocusOn(g, i, bs);
    if s.table[k] !in e.pool.byBlock {
      UncachedIsExclusive(e.pool, s.table, Others(e.seqs, i), k);
    } else if s.table[m] == s.table[k] {
      hide Valid;
      CachedIsWritten(e.pool, g.kv, s, k, bs);
      CachedIsWritten(e.pool, g.kv, s, m, bs);
      SameBlockKey(s, s, k, m, bs);
    }
  }

  /** What a sequence holds and what is allocatable never exceed the pool. */
  lemma {:induction false} HeldPlusFree(e: Engine, i: nat, blocks: nat, setup: Setup)
    requires setup.blockSize >= 1 && Reachable(e, blocks, setup) && i < |e.seqs|
    ensures |e.seqs[i].table| + Allocatable(e.pool) <= blocks
  {
    hide Reachable, Allocatable, Owned;
    NothingLeaks(e, blocks, setup);
    forall b | b in e.seqs[i].table ensures b in Owned(e.seqs) { OwnedHas(e.seqs, i, b); }
    forall k, m | 0 <= k < m < |e.seqs[i].table| ensures e.seqs[i].table[k] != e.seqs[i].table[m] {
      OwnTableDistinct(e, i, k, m, blocks, setup);
    }
    OwnedInUse(e, blocks, setup);
    AtLeast(InUse(e.pool, Owned(e.seqs)), e.seqs[i].table);
  }

  lemma {:induction false} OwnedInUse(e: Engine, blocks: nat, setup: Setup)
    requires setup.blockSize >= 1 && Reachable(e, blocks, setup)
    ensures forall b :: b in Owned(e.seqs) ==> b in InUse(e.pool, Owned(e.seqs))
  {
    hide Reachable;
    var g := ReachableSound(e, blocks, setup);
    forall b | b in Owned(e.seqs) ensures b in InUse(e.pool, Owned(e.seqs)) {
      assert BlockOk(e.pool, Owned(e.seqs), b);
    }
  }

  lemma {:induction false} AtLeast(a: set<nat>, s: seq<nat>)
    requires forall b :: b in s ==> b in a
    requires forall k, m :: 0 <= k < m < |s| ==> s[k] != s[m]
    ensures |s| <= |a|
  {
    if s != [] {
      assert s[0] in a && s[0] !in s[1..];
      AtLeast(a - {s[0]}, s[1..]);
    }
  }

  /** So what passes `can_append` fits the pool. */
  lemma {:induction false} AppendWithinPool(e: Engine, i: nat, n: nat, blocks: nat, setup: Setup)
    requires setup.blockSize >= 1 && Reachable(e, blocks, setup) && i < |e.seqs|
    requires CanAppend(e.pool, e.seqs[i], n, setup.blockSize)
    ensures Needed(e.seqs[i].computed + n, setup.blockSize) <= blocks
  {
    hide Reachable, Needed, Allocatable;
    HeldPlusFree(e, i, blocks, setup);
  }

  /** With nobody holding blocks, every cached block is retained and the whole pool allocatable, so
      a sequence is admitted exactly when its length fits the pool. */
  lemma {:induction false} AloneAdmitted(e: Engine, i: nat, blocks: nat, setup: Setup)
    requires setup.blockSize >= 1 && Reachable(e, blocks, setup) && i < |e.seqs|
    requires forall j: nat :: j < |e.seqs| ==> e.seqs[j].table == []
    ensures CanAllocate(e.pool, e.seqs[i], setup.blockSize)
            <==> Needed(|e.seqs[i].tokens|, setup.blockSize) <= blocks
  {
    var bs := setup.blockSize;
    var s := e.seqs[i];
    hide Reachable, Needed;
    NothingLeaks(e, blocks, setup);
    var g := ReachableSound(e, blocks, setup);
    NobodyOwns(e.seqs);
    forall b: nat | b in e.pool.byBlock ensures b in e.pool.retained { assert BlockOk(e.pool, Owned(e.seqs), b); }
    AllHitsRetained(e.pool, s, 0, Hits(e.pool.byHash, s, 0, HitCap(s, bs), bs), bs);
  }

  lemma {:induction false} AllHitsRetained(p: Pool, s: Live, k: nat, h: nat, bs: nat)
    requires bs >= 1 && k <= h && Indexed(p) && (forall b :: b in p.byBlock ==> b in p.retained)
    requires forall j: nat :: k <= j < h ==> Cached(p.byHash, s, j, bs)
    ensures RetainedHits(p, s, k, h, bs) == h - k
    decreases h - k
  {
    if k < h {
      assert Cached(p.byHash, s, k, bs);
      AllHitsRetained(p, s, k + 1, h, bs);
    }
  }

  // ---- without a prefix cache ---------------------------------------------------------------

  predicate NoIndex(p: Pool) { p.byHash == map[] && p.byBlock == map[] }

  lemma {:induction false} NoHits(p: Pool, s: Live, bs: nat)
    requires bs >= 1 && NoIndex(p)
    ensures Credit(p, s, bs) == 0
    ensures CanAllocate(p, s, bs) <==> Needed(|s.tokens|, bs) <= Allocatable(p)
  {
    hide Needed;
    assert Hits(p.byHash, s, 0, HitCap(s, bs), bs) == 0;
  }

  lemma {:induction false} GrowNoIndex(p: Pool, s: Live, needed: nat)
    requires NoIndex(p)
    ensures NoIndex(Grow(p, s, needed).0)
    decreases needed - |s.table|
  {
    if |s.table| < needed && Take(p).Some? {
      var (b, q) := Take(p).value;
      GrowNoIndex(q, s.(table := s.table + [b]), needed);
    }
  }

  lemma {:induction false} StepNoIndex(e: Engine, a: Action, setup: Setup)
    requires setup.blockSize >= 1 && !setup.caching && NoIndex(e.pool) && Step(e, a, setup).Some?
    ensures NoIndex(Step(e, a, setup).value.pool)
  {
    var bs := setup.blockSize;
    if !a.Queue? && a.seqIndex < |e.seqs| {
      var s := e.seqs[a.seqIndex];
      match a
      case Start(_) => if s.table == [] { AdmitIndex(e.pool, s, bs); }
      case Schedule(_, n) => GrowNoIndex(e.pool, s, Needed(s.computed + n, bs));
      case Retire(_) => if Settled(s) { DropAllIndex(e.pool, s.table); }
      case Draft(_, drafts) => GrowNoIndex(e.pool, Drafted(s, drafts), Needed(s.computed + |drafts|, bs));
      case _ =>
    }
  }

  lemma {:induction false} RunNoIndex(e: Engine, actions: seq<Action>, setup: Setup)
    requires setup.blockSize >= 1 && !setup.caching && NoIndex(e.pool) && Run(e, actions, setup).Some?
    ensures NoIndex(Run(e, actions, setup).value.pool)
    decreases |actions|
  {
    hide Step;
    if actions != [] {
      StepNoIndex(e, actions[0], setup);
      RunNoIndex(Step(e, actions[0], setup).value, actions[1..], setup);
    }
  }

  /** Without a cache nothing is indexed, and every block a table lists is that table's alone: the
      room left is the pool less what all tables list. */
  lemma {:induction false} UncachedRoom(e: Engine, blocks: nat, setup: Setup)
    requires setup.blockSize >= 1 && !setup.caching && Reachable(e, blocks, setup)
    ensures NoIndex(e.pool) && Allocatable(e.pool) + |Owned(e.seqs)| == blocks
  {
    hide Run, Step, Allocatable, Owned;
    var actions :| Run(Begin(blocks), actions, setup) == Some(e);
    RunNoIndex(Begin(blocks), actions, setup);
    NothingLeaks(e, blocks, setup);
    var g := ReachableSound(e, blocks, setup);
    forall b: nat ensures Owned(e.seqs)[b] <= 1 && (b in Owned(e.seqs) ==> b < |e.pool.refs|) {
      assert BlockOk(e.pool, Owned(e.seqs), b);
    }
    OwnedInUse(e, blocks, setup);
    CountedOnce(Owned(e.seqs), InUse(e.pool, Owned(e.seqs)));
  }

  lemma {:induction false} CountedOnce(m: multiset<nat>, a: set<nat>)
    requires (forall b :: b in m <==> b in a) && forall b: nat :: m[b] <= 1
    ensures |m| == |a|
    decreases a
  {
    if a == {} {
      assert m == multiset{};
    } else {
      var b :| b in a;
      assert m == m[b := 0] + multiset{b};
      CountedOnce(m[b := 0], a - {b});
    }
  }
}
