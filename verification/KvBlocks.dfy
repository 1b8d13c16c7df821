/** Paged KV memory, the pool: the reference-counted allocator and the prefix cache that retains
    unreferenced blocks for it (src/turboserve/engine/core/kv_cache.py, prefix_cache.py). */
module KvBlocks {
  import opened Prelude

  type Token = int

  /** What a block hash stands for: an adapter and the whole prefix ending at the block. Digests
      are taken to be collision-free. */
  datatype Key = Key(lora: int, prefix: seq<Token>)

  /** The allocator (`refs`, `free`, `retained`) and the cache (`byHash`, `byBlock`, `evictable`,
      the latter oldest first). */
  datatype Pool = Pool(refs: seq<nat>, free: seq<nat>, retained: set<nat>,
                       byHash: map<Key, nat>, byBlock: map<nat, Key>, evictable: seq<nat>)

  /** A pool whose blocks are all on the free list. */
  function Fresh(n: nat): Pool {
    Pool(seq(n, _ => 0), seq(n, i => i), {}, map[], map[], [])
  }

  /** Free blocks and those an eviction would free. */
  function Allocatable(p: Pool): nat { |p.free| + |p.retained| }

  // ---- the three-state invariant ------------------------------------------------------------

  /** Block `b` has one reference per entry in `owned`; it is on the free list, once, exactly when
      it has none and is not retained; it is in the eviction order, once, exactly when retained;
      retained blocks are unreferenced and cached; cached blocks are referenced or retained; a
      block that is not cached is never shared. Nothing names a block outside the pool. */
  ghost predicate BlockOk(p: Pool, owned: multiset<nat>, b: nat) {
    && (b >= |p.refs| ==> owned[b] == 0 && b !in p.retained && b !in p.byBlock)
    && (b < |p.refs| ==> p.refs[b] == owned[b])
    && multiset(p.free)[b] == (if b < |p.refs| && owned[b] == 0 && b !in p.retained then 1 else 0)
    && multiset(p.evictable)[b] == (if b in p.retained then 1 else 0)
    && (b in p.retained ==> owned[b] == 0 && b in p.byBlock)
    && (b in p.byBlock ==> owned[b] > 0 || b in p.retained)
    && (b !in p.byBlock ==> owned[b] <= 1)
    && (b in p.byBlock ==> p.byBlock[b] in p.byHash && p.byHash[p.byBlock[b]] == b)
  }

  /** Hash index and block index are inverse (the other half is in `BlockOk`). */
  ghost predicate Indexed(p: Pool) {
    forall k :: k in p.byHash ==> p.byHash[k] in p.byBlock && p.byBlock[p.byHash[k]] == k
  }

  /** `owned` is the multiset of block table entries of all sequences. */
  ghost predicate Valid(p: Pool, owned: multiset<nat>) {
    && Indexed(p)
    && forall b: nat :: BlockOk(p, owned, b)
  }

  lemma {:induction false} FreshValid(n: nat)
    ensures Valid(Fresh(n), multiset{})
  {
    var p := Fresh(n);
    forall b: nat ensures BlockOk(p, multiset{}, b) {
      if b < n {
        assert p.free == p.free[..b] + [b] + p.free[b + 1..];
        assert b !in p.free[..b] && b !in p.free[b + 1..];
      } else {
        assert b !in p.free;
      }
    }
  }

  // ---- operations ---------------------------------------------------------------------------

  /** Evicts the least recently released block, if any, to the free list. */
  function Evict(p: Pool): Pool {
    if p.evictable == [] then p else
      var b := p.evictable[0];
      p.(evictable := p.evictable[1..], byBlock := p.byBlock - {b},
         byHash := if b in p.byBlock then p.byHash - {p.byBlock[b]} else p.byHash,
         retained := p.retained - {b},
         free := if b in p.retained then p.free + [b] else p.free)
  }

  /** `allocate`: the oldest free block, after one eviction when there is none. */
  function Take(p: Pool): Option<(nat, Pool)> {
    var q := if p.free == [] && p.retained != {} then Evict(p) else p;
    if q.free == [] || q.free[0] >= |q.refs| then None
    else Some((q.free[0], q.(free := q.free[1..], refs := q.refs[q.free[0] := 1])))
  }

  function Without(s: seq<nat>, b: nat): seq<nat> {
    if s == [] then [] else if s[0] == b then Without(s[1..], b) else [s[0]] + Without(s[1..], b)
  }

  /** A prefix hit: `adopt` for a retained block, `incref` for one in use, then `acquire`. `None`
      where the allocator raises. */
  function Share(p: Pool, b: nat): Option<Pool> {
    if b >= |p.refs| then None
    else if b in p.retained then
      Some(p.(retained := p.retained - {b}, refs := p.refs[b := 1], evictable := Without(p.evictable, b)))
    else if p.refs[b] == 0 then None
    else Some(p.(refs := p.refs[b := p.refs[b] + 1], evictable := Without(p.evictable, b)))
  }

  /** `decref`: at zero the block is retained if cached, else freed. `None` on a double free. */
  function Drop(p: Pool, b: nat): Option<Pool> {
    if b >= |p.refs| || p.refs[b] == 0 then None
    else
      var q := p.(refs := p.refs[b := p.refs[b] - 1]);
      if q.refs[b] > 0 then Some(q)
      else if b in q.byBlock then Some(q.(retained := q.retained + {b}, evictable := Without(q.evictable, b) + [b]))
      else Some(q.(free := q.free + [b]))
  }

  /** `insert`: indexes a block unless an equal prefix is cached already. `None` where the block
      is cached under another hash, which the cache refuses with an exception. */
  function Insert(p: Pool, b: nat, k: Key): Option<Pool> {
    if b in p.byBlock then (if p.byBlock[b] == k then Some(p) else None)
    else if k in p.byHash then Some(p)
    else Some(p.(byHash := p.byHash[k := b], byBlock := p.byBlock[b := k]))
  }

  // ---- what each operation keeps ------------------------------------------------------------

  lemma {:induction false} WithoutCounts(s: seq<nat>, b: nat)
    ensures multiset(Without(s, b)) == multiset(s)[b := 0]
    ensures forall x :: x in Without(s, b) ==> x in s
  {
    if s != [] {
      WithoutCounts(s[1..], b);
      assert s == [s[0]] + s[1..];
      assert multiset(s) == multiset{s[0]} + multiset(s[1..]);
    }
  }

  lemma HeadCounts(s: seq<nat>)
    requires s != []
    ensures multiset(s) == multiset(s[1..]) + multiset{s[0]}
  {
    assert s == [s[0]] + s[1..];
  }

  /** Every cached block of `q` is cached in `p`, under the same prefix. */
  ghost predicate CachedWithin(q: Pool, p: Pool) {
    forall b :: b in q.byBlock ==> b in p.byBlock && q.byBlock[b] == p.byBlock[b]
  }

  lemma {:induction false} EvictValid(p: Pool, owned: multiset<nat>)
    requires Valid(p, owned)
    ensures Valid(Evict(p), owned)
    ensures CachedWithin(Evict(p), p)
  {
    if p.evictable != [] {
      var q := Evict(p);
      HeadCounts(p.evictable);
      assert BlockOk(p, owned, p.evictable[0]);
      forall b: nat ensures BlockOk(q, owned, b) {
        assert BlockOk(p, owned, b);
      }
    }
  }

  lemma {:induction false} EvictFreesOne(p: Pool, owned: multiset<nat>)
    requires Valid(p, owned)
    ensures Allocatable(Evict(p)) == Allocatable(p)
    ensures p.retained != {} ==> Evict(p).free != []
  {
    assert p.evictable == [] ==> p.retained == {} by {
      forall b | b in p.retained ensures p.evictable != [] { assert BlockOk(p, owned, b); }
    }
    if p.evictable != [] {
      HeadCounts(p.evictable);
      assert BlockOk(p, owned, p.evictable[0]);
      assert Evict(p).retained + {p.evictable[0]} == p.retained;
    }
  }

  /** `allocate` fails exactly when nothing is free or retained; otherwise the block it hands out
      was unreferenced, is cached no more, and is the only thing that changes owner. */
  lemma {:induction false} TakeValid(p: Pool, owned: multiset<nat>)
    requires Valid(p, owned)
    ensures Take(p).None? <==> Allocatable(p) == 0
    ensures Take(p).Some? ==>
              var (b, q) := Take(p).value;
              && Valid(q, owned + multiset{b}) && CachedWithin(q, p)
              && Allocatable(q) == Allocatable(p) - 1
              && b !in q.byBlock && b !in owned && |q.refs| == |p.refs|
  {
    var m := if p.free == [] && p.retained != {} then Evict(p) else p;
    EvictValid(p, owned);
    EvictFreesOne(p, owned);
    if m.free != [] {
      var b := m.free[0];
      HeadCounts(m.free);
      assert BlockOk(m, owned, b);
      TakeFreeValid(m, owned);
    }
  }

  /** The part of `allocate` after any eviction. */
  lemma {:induction false} TakeFreeValid(p: Pool, owned: multiset<nat>)
    requires Valid(p, owned) && p.free != [] && p.free[0] < |p.refs|
    ensures var b := p.free[0];
            Valid(p.(free := p.free[1..], refs := p.refs[b := 1]), owned + multiset{b})
  {
    var f := p.free[0];
    var q := p.(free := p.free[1..], refs := p.refs[f := 1]);
    HeadCounts(p.free);
    assert BlockOk(p, owned, f);
    forall b: nat ensures BlockOk(q, owned + multiset{f}, b) {
      assert BlockOk(p, owned, b);
    }
  }

  /** A cached block can always be taken over: no allocator exception on a prefix hit. */
  lemma {:induction false} ShareValid(p: Pool, owned: multiset<nat>, b: nat)
    requires Valid(p, owned) && b in p.byBlock
    ensures Share(p, b).Some?
    ensures var q := Share(p, b).value;
            && Valid(q, owned + multiset{b}) && q.byBlock == p.byBlock && q.byHash == p.byHash
            && |q.refs| == |p.refs|
            && Allocatable(q) == Allocatable(p) - (if b in p.retained then 1 else 0)
            && q.retained == p.retained - {b} && q.free == p.free
  {
    assert BlockOk(p, owned, b);
    var q := Share(p, b).value;
    WithoutCounts(p.evictable, b);
    forall c: nat ensures BlockOk(q, owned + multiset{b}, c) {
      assert BlockOk(p, owned, c);
    }
    if b in p.retained { assert q.retained + {b} == p.retained; }
  }

  /** No double free: a block some table still lists can always be given back. */
  lemma {:induction false} DropValid(p: Pool, owned: multiset<nat>, b: nat)
    requires Valid(p, owned) && b in owned
    ensures Drop(p, b).Some?
    ensures var q := Drop(p, b).value;
            && Valid(q, owned - multiset{b}) && q.byBlock == p.byBlock && |q.refs| == |p.refs|
  {
    assert BlockOk(p, owned, b);
    var q := Drop(p, b).value;
    WithoutCounts(p.evictable, b);
    forall c: nat ensures BlockOk(q, owned - multiset{b}, c) {
      assert BlockOk(p, owned, c);
    }
  }

  /** Indexing a block in use keeps the invariant, and caches `b` under `k` or nothing new. */
  lemma {:induction false} InsertValid(p: Pool, owned: multiset<nat>, b: nat, k: Key)
    requires Valid(p, owned) && b in owned
    requires b in p.byBlock ==> p.byBlock[b] == k
    ensures Insert(p, b, k).Some?
    ensures var q := Insert(p, b, k).value;
            && Valid(q, owned) && |q.refs| == |p.refs|
            && (q.byBlock == p.byBlock || q.byBlock == p.byBlock[b := k])
            && k in q.byHash
  {
    assert BlockOk(p, owned, b);
    var q := Insert(p, b, k).value;
    forall c: nat ensures BlockOk(q, owned, c) {
      assert BlockOk(p, owned, c);
    }
  }

  // ---- conservation -------------------------------------------------------------------------

  lemma {:induction false} DistinctCount(s: seq<nat>, members: set<nat>)
    requires forall b: nat :: multiset(s)[b] == (if b in members then 1 else 0)
    ensures |s| == |members|
  {
    assert members == set b | b in s by {
      forall b: nat ensures b in members <==> b in s { assert b in s <==> multiset(s)[b] > 0; }
    }
    if s != [] {
      HeadCounts(s);
      assert multiset(s)[s[0]] == 1;
      DistinctCount(s[1..], members - {s[0]});
    }
  }

  function Blocks(n: nat): (r: set<nat>)
    ensures |r| == n && forall b: nat :: b in r <==> b < n
  {
    if n == 0 then {} else Blocks(n - 1) + {n - 1}
  }

  ghost function InUse(p: Pool, owned: multiset<nat>): set<nat> {
    set b | b in Blocks(|p.refs|) && b in owned
  }

  /** Every block is in exactly one of the three states: free, retained, or in use. */
  lemma {:induction false} PoolConserved(p: Pool, owned: multiset<nat>)
    requires Valid(p, owned)
    ensures Allocatable(p) + |InUse(p, owned)| == |p.refs|
  {
    var all, used := Blocks(|p.refs|), InUse(p, owned);
    var idle := all - used - p.retained;
    forall b: nat ensures multiset(p.free)[b] == (if b in idle then 1 else 0) {
      assert BlockOk(p, owned, b);
    }
    DistinctCount(p.free, idle);
    assert p.retained <= all - used by {
      forall b | b in p.retained ensures b in all - used { assert BlockOk(p, owned, b); }
    }
    SetSplit(all, used, p.retained);
  }

  lemma SetSplit(all: set<nat>, used: set<nat>, kept: set<nat>)
    requires used <= all && kept <= all - used
    ensures |all| == |used| + |kept| + |all - used - kept|
  {}
}
