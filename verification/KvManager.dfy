/** The block manager over its allocator and prefix cache, updated in place
    (src/turboserve/engine/core/block_manager.py, kv_cache.py, prefix_cache.py). */
module KvManager {
  import opened Prelude
  import opened KvBlocks
  import opened KvSharing
  import opened KvEngine
  import opened Retention

  /** What `append_slots` gives: slots, the out-of-blocks signal, or a refusal up front. */
  datatype Appended = Slots(slots: seq<nat>) | OutOfBlocks | Refused

  class BlockManager {
    const blockSize: nat
    const caching: bool
    var refs: seq<nat>
    var free: seq<nat>
    var retained: set<nat>
    var byHash: map<Key, nat>
    var byBlock: map<nat, Key>
    var evictable: seq<nat>

    ghost function State(): Pool reads this { Pool(refs, free, retained, byHash, byBlock, evictable) }

    constructor (blocks: nat, blockSize: nat, caching: bool)
      requires blockSize >= 1
      ensures this.blockSize == blockSize && this.caching == caching
      ensures State() == Fresh(blocks) && Valid(State(), multiset{})
    {
      this.blockSize, this.caching := blockSize, caching;
      refs, free := seq(blocks, _ => 0), seq(blocks, i => i);
      retained, byHash, byBlock, evictable := {}, map[], map[], [];
      new;
      FreshValid(blocks);
    }

    /** One block, evicting the least recently released one if none is free: whatever came before, the
        block handed out is the one idle longest outside the cache or, if there is none, in it. */
    method Allocate(ghost owned: multiset<nat>) returns (r: Option<nat>)
      requires Valid(State(), owned)
      modifies this
      ensures r.None? <==> Allocatable(old(State())) == 0
      ensures r.None? ==> State() == old(State()) && Take(old(State())).None?
      ensures r.Some? ==> Take(old(State())) == Some((r.value, State()))
      ensures r.Some? ==> forall n, log :: Replay(n, log) == Some(old(State())) ==> Allowed(n, log, Took(r.value))
      ensures Valid(State(), if r.None? then owned else owned + multiset{r.value})
    {
      hide Replay, Allowed;
      TakeValid(State(), owned);
      EvictFreesOne(State(), owned);
      ghost var p := State();
      HandedOutRightly(p);
      if free == [] && retained != {} && evictable != [] {
        var b := evictable[0];
        evictable := evictable[1..];
        if b in byBlock { byHash := byHash - {byBlock[b]}; }
        byBlock := byBlock - {b};
        if b in retained { free := free + [b]; }
        retained := retained - {b};
        assert State() == Evict(p);
      }
      if free == [] { return None; }
      var b := free[0];
      if b >= |refs| { return None; }
      free := free[1..];
      refs := refs[b := 1];
      r := Some(b);
    }

    /** Gives one reference back; `false` is the double-free exception. */
    method Decref(b: nat) returns (ok: bool)
      modifies this
      ensures ok ==> Drop(old(State()), b) == Some(State())
      ensures !ok ==> Drop(old(State()), b).None? && State() == old(State())
    {
      if b >= |refs| || refs[b] == 0 { return false; }
      refs := refs[b := refs[b] - 1];
      if refs[b] == 0 {
        if b in byBlock {
          evictable := Without(evictable, b) + [b];
          retained := retained + {b};
        } else {
          free := free + [b];
        }
      }
      ok := true;
    }

    /** A reference on a cached block: `adopt` if retained, `incref` if in use, then out of the
        eviction order; `false` where the allocator raises. */
    method Acquire(b: nat) returns (ok: bool)
      modifies this
      ensures ok ==> Share(old(State()), b) == Some(State())
      ensures !ok ==> Share(old(State()), b).None? && State() == old(State())
    {
      if b >= |refs| { return false; }
      if b in retained {
        retained := retained - {b};
        refs := refs[b := 1];
      } else if refs[b] == 0 {
        return false;
      } else {
        refs := refs[b := refs[b] + 1];
      }
      evictable := Without(evictable, b);
      ok := true;
    }

    /** The longest unbroken run of cached leading blocks. */
    method Match(s: Live) returns (h: nat)
      requires blockSize >= 1
      ensures h == Hits(byHash, s, 0, HitCap(s, blockSize), blockSize)
    {
      h := 0;
      var cap := HitCap(s, blockSize);
      while h < cap && Cached(byHash, s, h, blockSize)
        invariant h <= cap
        invariant Hits(byHash, s, h, cap, blockSize) == Hits(byHash, s, 0, cap, blockSize)
      {
        h := h + 1;
      }
    }

    /** Whether the sequence's whole KV fits, given its prefix hits. */
    method Fits(s: Live) returns (r: bool)
      requires blockSize >= 1
      ensures r == CanAllocate(State(), s, blockSize)
    {
      var h := Match(s);
      var hits, k := 0, 0;
      while k < h
        invariant k <= h
        invariant hits + RetainedHits(State(), s, k, h, blockSize) == RetainedHits(State(), s, 0, h, blockSize)
      {
        assert Cached(byHash, s, k, blockSize);
        if byHash[BlockKey(s, k, blockSize)] in retained { hits := hits + 1; }
        k := k + 1;
      }
      r := Needed(|s.tokens|, blockSize) - h <= |free| + |retained| - hits;
    }

    /** Adopts the prefix hits of a sequence that holds no blocks. */
    method AllocateFor(s: Live) returns (t: Live, ok: bool)
      requires blockSize >= 1
      modifies this
      ensures s.table != [] ==> !ok && State() == old(State()) && t == s
      ensures s.table == [] ==> Admit(old(State()), s, blockSize) == if ok then Some((State(), t)) else None
    {
      if s.table != [] { return s, false; }
      var h := Match(s);
      t := s.(open := true, computed := 0, written := 0, published := 0, draft := None);
      while |t.table| < h
        invariant Adopt(State(), t, h, blockSize) == Admit(old(State()), s, blockSize)
        decreases h - |t.table|
      {
        if !Cached(byHash, t, |t.table|, blockSize) { return t, false; }
        var b := byHash[BlockKey(t, |t.table|, blockSize)];
        ok := Acquire(b);
        if !ok { return; }
        t := t.(table := t.table + [b], published := t.published + 1,
                computed := t.computed + blockSize, written := t.written + blockSize);
      }
      ok := true;
    }

    /** Appends blocks until the table has `needed`, or the pool runs out. */
    method GrowTable(s: Live, needed: nat, ghost rest: multiset<nat>) returns (t: Live)
      requires Valid(State(), rest + multiset(s.table))
      modifies this
      ensures (State(), t) == Grow(old(State()), s, needed)
      ensures Valid(State(), rest + multiset(t.table)) && t == s.(table := t.table)
    {
      hide Valid, Take, Allocatable;
      t := s;
      while |t.table| < needed
        invariant Grow(State(), t, needed) == Grow(old(State()), s, needed)
        invariant Valid(State(), rest + multiset(t.table))
        invariant t == s.(table := t.table)
        decreases needed - |t.table|
      {
        var b := Allocate(rest + multiset(t.table));
        if b.None? { return; }
        assert rest + multiset(t.table + [b.value]) == rest + multiset(t.table) + multiset{b.value};
        t := t.(table := t.table + [b.value]);
      }
    }

    /** Extends the sequence by `n` tokens and returns their KV slots. When the blocks run out, what
        was taken so far stays in the table. */
    method AppendSlots(s: Live, n: nat, ghost rest: multiset<nat>) returns (t: Live, r: Appended)
      requires blockSize >= 1 && Valid(State(), rest + multiset(s.table))
      modifies this
      ensures r == Refused <==> !s.open || s.computed + n > |s.tokens|
      ensures r == Refused ==> t == s && State() == old(State())
      ensures r != Refused ==> (State(), t) == Extend(old(State()), s, n, blockSize)
      ensures r != Refused ==> (r == OutOfBlocks <==> RunsOut(old(State()), s, n, blockSize))
      ensures r.Slots? ==> |r.slots| == n && forall k: nat :: k < n ==> InSlot(t, s.computed + k, r.slots[k])
    {
      if !s.open || s.computed + n > |s.tokens| { return s, Refused; }
      var needed := Needed(s.computed + n, blockSize);
      t := GrowTable(s, needed, rest);
      hide Valid, Grow, Needed, Size, Full, Offset;
      if |t.table| < needed { return t, OutOfBlocks; }
      NeededFits(s.computed + n, |t.table|, blockSize);
      t := t.(computed := t.computed + n);
      var slots := SlotMapping(t, s.computed, n);
      r := Slots(slots);
    }

    /** Position `n` of `s` lives in KV slot `slot`. */
    ghost predicate InSlot(s: Live, n: nat, slot: nat)
      requires blockSize >= 1
    {
      Full(n, blockSize) < |s.table| && slot == Slot(s, n, blockSize)
    }

    /** Flat slots of positions `start` up to `start + n`. */
    method SlotMapping(s: Live, start: nat, n: nat) returns (slots: seq<nat>)
      requires blockSize >= 1 && start + n <= Size(|s.table|, blockSize)
      ensures |slots| == n
      ensures forall k: nat :: k < n ==> InSlot(s, start + k, slots[k])
    {
      slots := [];
      for k := 0 to n
        invariant |slots| == k
        invariant forall j: nat :: j < k ==> InSlot(s, start + j, slots[j])
      {
        SizeFits(|s.table|, start + k, blockSize);
        slots := slots + [Slot(s, start + k, blockSize)];
      }
    }

    /** Offers every newly completed block to the cache and counts those newly indexed; `false` is an
        exception from it. */
    method PublishComputed(s: Live) returns (t: Live, ok: bool, added: nat)
      requires blockSize >= 1
      modifies this
      ensures Publish(old(State()), s, blockSize) == if ok then Some((State(), t)) else None
      ensures |byBlock| == |old(byBlock)| + added
    {
      t, added := s, 0;
      while t.open && t.published < Full(t.computed, blockSize) && t.published < |t.table|
        invariant Publish(State(), t, blockSize) == Publish(old(State()), s, blockSize)
        invariant |byBlock| == |old(byBlock)| + added
        decreases |t.table| - t.published
      {
        if Size(t.published + 1, blockSize) > |t.tokens| { return t, false, added; }
        var b, k := t.table[t.published], BlockKey(t, t.published, blockSize);
        if b in byBlock {
          if byBlock[b] != k { return t, false, added; }
        } else if k !in byHash {
          byHash, byBlock, added := byHash[k := b], byBlock[b := k], added + 1;
        }
        t := t.(published := t.published + 1);
      }
      ok := true;
    }

    /** Publishes, then returns every block, front first, and forgets the progress. */
    method Free(s: Live) returns (t: Live, ok: bool)
      requires blockSize >= 1
      modifies this
      ensures Release(old(State()), s, blockSize, caching) == if ok then Some((State(), t)) else None
    {
      t := s;
      if caching {
        var added;
        t, ok, added := PublishComputed(s);
        if !ok { return; }
      }
      ghost var p := State();
      var k := 0;
      while k < |s.table|
        invariant k <= |s.table|
        invariant DropAll(State(), s.table[k..]) == DropAll(p, s.table)
      {
        assert s.table[k..][1..] == s.table[k + 1..];
        ok := Decref(s.table[k]);
        if !ok { return; }
        k := k + 1;
      }
      t := s.(table := [], computed := 0, written := 0, published := 0, open := false, draft := None);
      ok := true;
    }
  }
}
