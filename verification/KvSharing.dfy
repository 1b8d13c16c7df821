/** Paged KV memory, the sequences: adoption of cached prefixes, growth, the forward pass's writes,
    publication and release (src/turboserve/engine/core/block_manager.py), for any number of
    sequences and any order of operations. */
module KvSharing {
  import opened Prelude
  import opened KvBlocks

  datatype Setup = Setup(blockSize: nat, caching: bool)

  /** One sequence. `computed` counts tokens whose KV is in memory or scheduled in the batch being
      built, `written` those whose KV is in memory, `published` the blocks offered to the cache.
      `open` says whether the block manager knows the sequence, `draft` where a draft being verified
      has gone. */
  datatype Live = Live(lora: int, tokens: seq<Token>, table: seq<nat>, computed: nat, written: nat,
                       published: nat, open: bool, draft: Option<Placement>)

  /** A draft is appended to a text of `length` tokens and given the slots from position `base` on,
      the first not computed. The two differ when the text has uncomputed tokens left. */
  datatype Placement = Placement(base: nat, length: nat)

  /** A request as it is queued. */
  function Waiting(lora: int, tokens: seq<Token>): Live { Live(lora, tokens, [], 0, 0, 0, false, None) }

  /** One position of KV memory: slot `block * blockSize + offset`. */
  datatype Cell = Cell(block: nat, offset: nat)

  /** `kv` says which adapter and prefix the KV in a cell was computed from. */
  datatype Engine = Engine(pool: Pool, kv: map<Cell, Key>, seqs: seq<Live>)

  // ---- block arithmetic ---------------------------------------------------------------------

  /** Whole blocks in `n` tokens: `n / bs`, by repeated subtraction. Also the index of the block
      holding position `n`. */
  function Full(n: nat, bs: nat): nat
    requires bs >= 1
  {
    if n < bs then 0 else Full(n - bs, bs) + 1
  }

  /** Position `n` within its block: `n % bs`. */
  function Offset(n: nat, bs: nat): nat
    requires bs >= 1
  {
    if n < bs then n else Offset(n - bs, bs)
  }

  /** Blocks needed for `n` tokens. */
  function Needed(n: nat, bs: nat): nat
    requires bs >= 1
  {
    Full(n + bs - 1, bs)
  }

  /** Tokens in `k` whole blocks: `k * bs`, by repeated addition. */
  function Size(k: nat, bs: nat): nat {
    if k == 0 then 0 else Size(k - 1, bs) + bs
  }

  /** These are the quotient, remainder and product. */
  lemma {:induction false} BlockArithmetic(n: nat, k: nat, bs: nat)
    requires bs >= 1
    ensures Full(n, bs) == n / bs && Offset(n, bs) == n % bs && Size(k, bs) == k * bs
  {
    hide Full, Offset, Size;
    Position(n, bs);
    ProductOf(Full(n, bs), bs);
    ProductOf(k, bs);
    QuotientUnique(n, Full(n, bs), Offset(n, bs), bs);
  }

  lemma {:induction false} QuotientUnique(n: nat, q: nat, r: nat, bs: nat)
    requires r < bs && n == q * bs + r
    ensures n / bs == q && n % bs == r
  {
    var d := n / bs - q;
    assert d >= 1 ==> (d - 1) * bs >= 0;
    assert d <= -1 ==> (-1 - d) * bs >= 0;
    assert d * bs == r - n % bs;
  }

  lemma {:induction false} ProductOf(k: nat, bs: nat)
    ensures Size(k, bs) == k * bs
  {
    if k > 0 {
      ProductOf(k - 1, bs);
      assert k * bs == (k - 1) * bs + bs;
    }
  }

  lemma {:induction false} SizeFits(k: nat, n: nat, bs: nat)
    requires bs >= 1
    ensures Size(k, bs) <= n <==> k <= Full(n, bs)
  {
    if k > 0 && n >= bs { SizeFits(k - 1, n - bs, bs); }
  }

  lemma {:induction false} SizeNext(k: nat, bs: nat)
    ensures Size(k + 1, bs) == Size(k, bs) + bs
  {}

  lemma {:induction false} NeededFits(n: nat, k: nat, bs: nat)
    requires bs >= 1
    ensures n <= Size(k, bs) <==> Needed(n, bs) <= k
  {
    SizeFits(k + 1, n + bs - 1, bs);
    SizeNext(k, bs);
  }

  lemma {:induction false} NeededMonotone(m: nat, n: nat, bs: nat)
    requires bs >= 1 && m <= n
    ensures Needed(m, bs) <= Needed(n, bs)
  {
    FullMonotone(m + bs - 1, n + bs - 1, bs);
  }

  /** A position is its block's start plus its offset. */
  lemma {:induction false} Position(n: nat, bs: nat)
    requires bs >= 1
    ensures n == Size(Full(n, bs), bs) + Offset(n, bs) && Offset(n, bs) < bs
  {
    if n >= bs { Position(n - bs, bs); }
  }

  lemma {:induction false} PositionOf(k: nat, off: nat, bs: nat)
    requires off < bs
    ensures Full(Size(k, bs) + off, bs) == k && Offset(Size(k, bs) + off, bs) == off
  {
    if k > 0 { PositionOf(k - 1, off, bs); }
  }

  /** Different cells have different slots. */
  lemma {:induction false} SlotsApart(b: nat, off: nat, c: nat, off': nat, bs: nat)
    requires off < bs && off' < bs && Size(b, bs) + off == Size(c, bs) + off'
    ensures b == c && off == off'
  {
    PositionOf(b, off, bs);
    PositionOf(c, off', bs);
  }

  // ---- the invariant ------------------------------------------------------------------------

  /** What the model is fed from the first position on: the text, except that a pending draft
      replaces what is in its way. */
  function Fed(s: Live): (r: seq<Token>)
    ensures |r| <= |s.tokens| && (s.draft.None? ==> r == s.tokens)
  {
    if s.draft.Some? && s.draft.value.base <= s.draft.value.length <= |s.tokens|
    then s.tokens[..s.draft.value.base] + s.tokens[s.draft.value.length..]
    else s.tokens
  }

  /** Every entry of every block table. */
  function Owned(seqs: seq<Live>): multiset<nat> {
    if seqs == [] then multiset{} else multiset(seqs[0].table) + Owned(seqs[1..])
  }

  /** The prefix ending at position `n`. */
  function KeyAt(s: Live, n: nat): Key
    requires n < |Fed(s)|
  {
    Key(s.lora, Fed(s)[..n + 1])
  }

  /** The chained hash of block `k`: the prefix ending at its last position. */
  function BlockKey(s: Live, k: nat, bs: nat): Key
    requires bs >= 1 && Size(k + 1, bs) <= |s.tokens|
  {
    Key(s.lora, s.tokens[..Size(k + 1, bs)])
  }

  /** Attention reading position `n` of `s` finds KV computed from `s`'s own prefix and adapter. */
  ghost predicate ReadsOwn(kv: map<Cell, Key>, s: Live, n: nat, bs: nat)
    requires bs >= 1 && n < |Fed(s)|
  {
    && Full(n, bs) < |s.table|
    && Cell(s.table[Full(n, bs)], Offset(n, bs)) in kv
    && kv[Cell(s.table[Full(n, bs)], Offset(n, bs))] == KeyAt(s, n)
  }

  /** A cached block holds the KV of the last block of the prefix it is cached under. */
  ghost predicate Holds(kv: map<Cell, Key>, b: nat, k: Key, bs: nat) {
    && bs <= |k.prefix|
    && forall off: nat :: off < bs ==>
         && Cell(b, off) in kv
         && kv[Cell(b, off)] == Key(k.lora, k.prefix[..|k.prefix| - bs + off + 1])
  }

  ghost predicate CacheHolds(byBlock: map<nat, Key>, kv: map<Cell, Key>, bs: nat) {
    forall b :: b in byBlock ==> Holds(kv, b, byBlock[b], bs)
  }

  /** Progress is ordered and covered by the table; every written position reads its own prefix;
      blocks not offered to the cache are not cached, and a draft is never offered. */
  ghost predicate SeqOk(byBlock: map<nat, Key>, kv: map<Cell, Key>, s: Live, bs: nat)
    requires bs >= 1
  {
    && s.written <= s.computed <= |Fed(s)|
    && s.computed <= Size(|s.table|, bs)
    && s.published <= Full(s.written, bs)
    && (forall n: nat :: n < s.written ==> ReadsOwn(kv, s, n, bs))
    && (forall k: nat :: s.published <= k < |s.table| ==> s.table[k] !in byBlock)
    && (!s.open ==> s.table == [])
    && (s.draft.Some? ==> s.published <= Full(s.draft.value.base, bs) && DraftOk(s))
  }

  /** A draft is past what was computed, and past the text. */
  predicate DraftOk(s: Live)
    requires s.draft.Some?
  {
    s.draft.value.base <= s.computed && s.draft.value.base <= s.draft.value.length <= |s.tokens|
  }

  ghost predicate Sound(e: Engine, bs: nat)
    requires bs >= 1
  {
    && Valid(e.pool, Owned(e.seqs))
    && CacheHolds(e.pool.byBlock, e.kv, bs)
    && forall i: nat :: i < |e.seqs| ==> SeqOk(e.pool.byBlock, e.kv, e.seqs[i], bs)
  }

  /** What the sequences other than `i` own. */
  ghost function Others(seqs: seq<Live>, i: nat): multiset<nat>
    requires i < |seqs|
  {
    if i == 0 then Owned(seqs[1..]) else multiset(seqs[0].table) + Others(seqs[1..], i - 1)
  }

  lemma {:induction false} OwnedSplit(seqs: seq<Live>, i: nat)
    requires i < |seqs|
    ensures Owned(seqs) == Others(seqs, i) + multiset(seqs[i].table)
  {
    if i > 0 { OwnedSplit(seqs[1..], i - 1); }
  }

  lemma {:induction false} OthersUnchanged(seqs: seq<Live>, i: nat, x: Live)
    requires i < |seqs|
    ensures Others(seqs[i := x], i) == Others(seqs, i)
  {
    if i == 0 {
      assert seqs[i := x][1..] == seqs[1..];
    } else {
      assert seqs[i := x][1..] == seqs[1..][i - 1 := x];
      OthersUnchanged(seqs[1..], i - 1, x);
    }
  }

  lemma {:induction false} OwnedUpdate(seqs: seq<Live>, i: nat, x: Live)
    requires i < |seqs|
    ensures Owned(seqs[i := x]) == Others(seqs, i) + multiset(x.table)
  {
    hide Owned, Others;
    OthersUnchanged(seqs, i, x);
    OwnedSplit(seqs[i := x], i);
  }

  lemma {:induction false} OwnedHas(seqs: seq<Live>, j: nat, b: nat)
    requires j < |seqs| && b in seqs[j].table
    ensures b in Owned(seqs)
  {
    if j > 0 { OwnedHas(seqs[1..], j - 1, b); }
  }

  lemma {:induction false} OthersHas(seqs: seq<Live>, i: nat, j: nat, b: nat)
    requires i < |seqs| && j < |seqs| && i != j && b in seqs[j].table
    ensures b in Others(seqs, i)
  {
    if i == 0 {
      OwnedHas(seqs[1..], j - 1, b);
    } else if j > 0 {
      OthersHas(seqs[1..], i - 1, j - 1, b);
    }
  }

  // ---- operations on one sequence -----------------------------------------------------------

  predicate Cached(byHash: map<Key, nat>, s: Live, k: nat, bs: nat)
    requires bs >= 1
  {
    Size(k + 1, bs) <= |s.tokens| && BlockKey(s, k, bs) in byHash
  }

  /** `match`: the end of the longest unbroken run of cached blocks from block `k` on, within
      `cap` blocks. */
  function Hits(byHash: map<Key, nat>, s: Live, k: nat, cap: nat, bs: nat): (h: nat)
    requires bs >= 1 && k <= cap && Size(cap, bs) <= |s.tokens|
    ensures k <= h <= cap
    ensures forall j: nat :: k <= j < h ==> Cached(byHash, s, j, bs)
    ensures h < cap ==> !Cached(byHash, s, h, bs)
    decreases cap - k
  {
    if k == cap || !Cached(byHash, s, k, bs) then k else Hits(byHash, s, k + 1, cap, bs)
  }

  /** The cap on hits: the last token is always computed afresh. */
  function HitCap(s: Live, bs: nat): (cap: nat)
    requires bs >= 1
    ensures Size(cap, bs) <= |s.tokens|
    ensures |s.tokens| > 0 ==> Size(cap, bs) < |s.tokens| <= Size(cap + 1, bs)
  {
    if s.tokens == [] then 0
    else
      SizeFits(Full(|s.tokens| - 1, bs), |s.tokens| - 1, bs);
      SizeFits(Full(|s.tokens| - 1, bs) + 1, |s.tokens| - 1, bs);
      Full(|s.tokens| - 1, bs)
  }

  /** Takes references on the cached blocks up to block `h`, from where the table ends. */
  function Adopt(p: Pool, s: Live, h: nat, bs: nat): Option<(Pool, Live)>
    requires bs >= 1
    decreases h - |s.table|
  {
    if |s.table| >= h then Some((p, s))
    else if !Cached(p.byHash, s, |s.table|, bs) then None
    else
      var b := p.byHash[BlockKey(s, |s.table|, bs)];
      var q := Share(p, b);
      if q.None? then None
      else Adopt(q.value,
                 s.(table := s.table + [b], published := s.published + 1,
                    computed := s.computed + bs, written := s.written + bs), h, bs)
  }

  /** `allocate`: the sequence's prefix hits become its first blocks, credited as computed. */
  function Admit(p: Pool, s: Live, bs: nat): Option<(Pool, Live)>
    requires bs >= 1
  {
    Adopt(p, s.(open := true, computed := 0, written := 0, published := 0, draft := None),
          Hits(p.byHash, s, 0, HitCap(s, bs), bs), bs)
  }

  /** The growth loop of `append_slots`; it stops short when the pool is exhausted. */
  function Grow(p: Pool, s: Live, needed: nat): (Pool, Live)
    decreases needed - |s.table|
  {
    if |s.table| >= needed || Take(p).None? then (p, s)
    else
      var (b, q) := Take(p).value;
      Grow(q, s.(table := s.table + [b]), needed)
  }

  /** `append_slots` and, when it does not raise, `advance_computed`. */
  function Extend(p: Pool, s: Live, n: nat, bs: nat): (Pool, Live)
    requires bs >= 1
  {
    var needed := Needed(s.computed + n, bs);
    var (q, t) := Grow(p, s, needed);
    if |t.table| < needed then (q, t) else (q, t.(computed := t.computed + n))
  }

  function Drafted(s: Live, drafts: seq<Token>): Live {
    s.(tokens := s.tokens + drafts, draft := Some(Placement(s.computed, |s.tokens|)))
  }

  /** A draft is appended provisionally and given slots. */
  function Speculate(p: Pool, s: Live, drafts: seq<Token>, bs: nat): (Pool, Live)
    requires bs >= 1
  {
    Extend(p, Drafted(s, drafts), |drafts|, bs)
  }

  /** The draft is undone and the outcome fed back: the first `accepted` drafted tokens and then
      `bonus`, of which `fed` get appended before a stop condition, if any; `credited` of the
      accepted ones count as computed again. */
  function Resolve(s: Live, accepted: nat, fed: nat, credited: nat, bonus: Token): Live
    requires s.draft.Some? && s.draft.value.length + accepted <= |s.tokens| && fed <= accepted + 1
  {
    var Placement(base, length) := s.draft.value;
    var outcome := s.tokens[length..length + accepted] + [bonus];
    s.(tokens := s.tokens[..length] + outcome[..fed], computed := base + credited, written := base + credited,
       draft := None)
  }

  /** A draft's way through a step: whatever blocks it took and however far it was written, what is left of it
      in the text is the first `fed` of the accepted tokens and the bonus token. */
  lemma ResolvedText(s: Live, u: Live, drafts: seq<Token>, accepted: nat, fed: nat, credited: nat, bonus: Token)
    requires u.tokens == s.tokens + drafts && u.draft == Drafted(s, drafts).draft
    requires accepted <= |drafts| && fed <= accepted + 1
    ensures var t := Resolve(u, accepted, fed, credited, bonus);
            && t.tokens == s.tokens + (drafts[..accepted] + [bonus])[..fed] && t.draft.None? && t.lora == u.lora
            && t.table == u.table && t.computed == t.written == s.computed + credited
  {
    assert u.tokens[|s.tokens|..|s.tokens| + accepted] == drafts[..accepted];
    assert u.tokens[..|s.tokens|] == s.tokens;
  }

  /** The forward pass over the draft is done; no more is credited than was accepted, and than the
      text is long. */
  predicate Resolvable(s: Live, accepted: nat, fed: nat, credited: nat) {
    && s.draft.Some? && DraftOk(s)
    && var Placement(base, length) := s.draft.value;
    && s.written == s.computed == base + |s.tokens| - length
    && length + accepted <= |s.tokens| && fed <= accepted + 1
    && credited <= accepted && base + credited <= length + fed
  }

  /** The draft tokens credited are those of the text at the positions they are credited for. */
  predicate CreditsText(s: Live, accepted: nat, fed: nat, credited: nat, bonus: Token)
    requires Resolvable(s, accepted, fed, credited)
  {
    var Placement(base, length) := s.draft.value;
    Resolve(s, accepted, fed, credited, bonus).tokens[base..base + credited] == s.tokens[length..length + credited]
  }

  /** The forward pass writes the KV of the scheduled positions into their slots. */
  function Write(kv: map<Cell, Key>, s: Live, bs: nat): (map<Cell, Key>, Live)
    requires bs >= 1
    decreases s.computed - s.written
  {
    if s.written >= s.computed || Full(s.written, bs) >= |s.table| || s.written >= |Fed(s)| then (kv, s)
    else
      var cell := Cell(s.table[Full(s.written, bs)], Offset(s.written, bs));
      Write(kv[cell := KeyAt(s, s.written)], s.(written := s.written + 1), bs)
  }

  /** `publish_computed_blocks`: offers every newly completed block to the cache. */
  function Publish(p: Pool, s: Live, bs: nat): Option<(Pool, Live)>
    requires bs >= 1
    decreases |s.table| - s.published
  {
    if !s.open || s.published >= Full(s.computed, bs) || s.published >= |s.table| then Some((p, s))
    else if Size(s.published + 1, bs) > |s.tokens| then None
    else
      var q := Insert(p, s.table[s.published], BlockKey(s, s.published, bs));
      if q.None? then None else Publish(q.value, s.(published := s.published + 1), bs)
  }

  /** `decref_many`, front first. */
  function DropAll(p: Pool, table: seq<nat>): Option<Pool>
    decreases |table|
  {
    if table == [] then Some(p)
    else
      var q := Drop(p, table[0]);
      if q.None? then None else DropAll(q.value, table[1..])
  }

  /** `free` after publication, and the progress reset of `release` and `preempt`. */
  function Release(p: Pool, s: Live, bs: nat, caching: bool): Option<(Pool, Live)>
    requires bs >= 1
  {
    var r := if caching then Publish(p, s, bs) else Some((p, s));
    if r.None? then None
    else
      var q := DropAll(r.value.0, s.table);
      if q.None? then None
      else
        var t := s.(table := [], computed := 0, written := 0, published := 0, open := false, draft := None);
        Some((q.value, t))
  }

  // ---- what each operation keeps ------------------------------------------------------------

  /** The invariant seen from one sequence; `rest` is what the others own. */
  ghost predicate Focus(p: Pool, kv: map<Cell, Key>, s: Live, rest: multiset<nat>, bs: nat)
    requires bs >= 1
  {
    && Valid(p, rest + multiset(s.table))
    && CacheHolds(p.byBlock, kv, bs)
    && SeqOk(p.byBlock, kv, s, bs)
  }

  /** Block `k` of the table, holding the sequence's own prefix, serves every position in it. */
  lemma {:induction false} HeldIsRead(kv: map<Cell, Key>, s: Live, k: nat, n: nat, bs: nat)
    requires bs >= 1 && k < |s.table| && Size(k + 1, bs) <= |s.tokens| && s.draft.None?
    requires Holds(kv, s.table[k], BlockKey(s, k, bs), bs)
    requires Size(k, bs) <= n < Size(k + 1, bs)
    ensures ReadsOwn(kv, s, n, bs)
  {
    SizeFits(k, n, bs);
    SizeFits(k + 1, n, bs);
    Position(n, bs);
    SizeNext(k, bs);
    var prefix := BlockKey(s, k, bs).prefix;
    assert prefix[..|prefix| - bs + Offset(n, bs) + 1] == s.tokens[..n + 1];
  }

  /** Conversely, a block all of whose positions are written holds the sequence's own prefix. */
  lemma {:induction false} ReadIsHeld(kv: map<Cell, Key>, s: Live, k: nat, bs: nat)
    requires bs >= 1 && Size(k + 1, bs) <= |s.tokens| && k < |s.table| && s.draft.None?
    requires forall n: nat :: n < Size(k + 1, bs) ==> ReadsOwn(kv, s, n, bs)
    ensures Holds(kv, s.table[k], BlockKey(s, k, bs), bs)
  {
    SizeNext(k, bs);
    var key := BlockKey(s, k, bs);
    forall off: nat | off < bs
      ensures Cell(s.table[k], off) in kv
      ensures kv[Cell(s.table[k], off)] == Key(key.lora, key.prefix[..|key.prefix| - bs + off + 1])
    {
      var n := Size(k, bs) + off;
      PositionOf(k, off, bs);
      assert ReadsOwn(kv, s, n, bs);
      assert key.prefix[..|key.prefix| - bs + off + 1] == s.tokens[..n + 1];
    }
  }

  /** A full block of a sequence is cached under the sequence's own prefix, if at all: `insert`
      never finds it under another hash. */
  lemma {:induction false} CachedUnderOwnKey(p: Pool, kv: map<Cell, Key>, s: Live, k: nat, bs: nat)
    requires bs >= 1 && CacheHolds(p.byBlock, kv, bs) && SeqOk(p.byBlock, kv, s, bs)
    requires k < Full(s.written, bs)
    ensures Size(k + 1, bs) <= s.written && k < |s.table|
    ensures s.table[k] in p.byBlock ==> p.byBlock[s.table[k]] == BlockKey(s, k, bs)
  {
    SizeFits(k + 1, s.written, bs);
    SizeNext(k, bs);
    var n := Size(k, bs) + bs - 1;
    PositionOf(k, bs - 1, bs);
    assert ReadsOwn(kv, s, n, bs);
    if s.table[k] in p.byBlock {
      var key := p.byBlock[s.table[k]];
      assert Holds(kv, s.table[k], key, bs);
      assert Cell(s.table[k], bs - 1) in kv;
      assert key.prefix[..|key.prefix|] == key.prefix;
      if s.draft.Some? { SizeFits(k + 1, s.draft.value.base, bs); }
      assert Fed(s)[..Size(k + 1, bs)] == s.tokens[..Size(k + 1, bs)];
    }
  }

  /** Only such blocks of a table are cached. */
  lemma {:induction false} CachedIsWritten(p: Pool, kv: map<Cell, Key>, s: Live, k: nat, bs: nat)
    requires bs >= 1 && CacheHolds(p.byBlock, kv, bs) && SeqOk(p.byBlock, kv, s, bs)
    requires k < |s.table| && s.table[k] in p.byBlock
    ensures Size(k + 1, bs) <= s.written <= |s.tokens| && p.byBlock[s.table[k]] == BlockKey(s, k, bs)
  {
    hide CacheHolds, ReadsOwn, BlockKey, Full;
    CachedUnderOwnKey(p, kv, s, k, bs);
  }

  lemma {:induction false} AppendedTable(kv: map<Cell, Key>, s: Live, b: nat, n: nat, bs: nat)
    requires bs >= 1 && n < |Fed(s)| && ReadsOwn(kv, s, n, bs)
    ensures ReadsOwn(kv, s.(table := s.table + [b]), n, bs)
  {}

  /** One prefix hit: the next block is shared and its positions count as written. */
  lemma {:induction false} AdoptOne(p: Pool, kv: map<Cell, Key>, s: Live, rest: multiset<nat>, bs: nat)
    requires bs >= 1 && Focus(p, kv, s, rest, bs) && s.open && s.draft.None?
    requires s.written == s.computed == Size(|s.table|, bs) && s.published == |s.table|
    requires Cached(p.byHash, s, |s.table|, bs)
    ensures var b := p.byHash[BlockKey(s, |s.table|, bs)];
            var t := s.(table := s.table + [b], published := s.published + 1,
                        computed := s.computed + bs, written := s.written + bs);
            && Share(p, b).Some?
            && Focus(Share(p, b).value, kv, t, rest, bs)
            && t.written == t.computed == Size(|t.table|, bs)
            && Share(p, b).value.byHash == p.byHash && Share(p, b).value.byBlock == p.byBlock
            && |Share(p, b).value.refs| == |p.refs|
            && Share(p, b).value.retained == p.retained - {b}
            && Allocatable(Share(p, b).value) == Allocatable(p) - (if b in p.retained then 1 else 0)
  {
    var k := |s.table|;
    var key := BlockKey(s, k, bs);
    var b := p.byHash[key];
    var t := s.(table := s.table + [b], published := s.published + 1,
                computed := s.computed + bs, written := s.written + bs);
    var owned := rest + multiset(s.table);
    assert b in p.byBlock && p.byBlock[b] == key;
    ShareValid(p, owned, b);
    var q := Share(p, b).value;
    assert multiset(t.table) == multiset(s.table) + multiset{b};
    assert owned + multiset{b} == rest + multiset(t.table);
    SizeNext(k, bs);
    SizeFits(k + 1, t.written, bs);
    SizeFits(k + 2, t.written, bs);
    SizeNext(k + 1, bs);
    assert BlockKey(t, k, bs) == key;
    hide Valid;
    forall n: nat | n < t.written ensures ReadsOwn(kv, t, n, bs) {
      if n < s.written {
        AppendedTable(kv, s, b, n, bs);
      } else {
        HeldIsRead(kv, t, k, n, bs);
      }
    }
  }

  /** The pool keeps its size, and nothing changes for a sequence that owns part of `rest`: none of
      its blocks becomes cached, none of its cells is overwritten. */
  ghost predicate Undisturbed(p: Pool, kv: map<Cell, Key>, q: Pool, kv': map<Cell, Key>, rest: multiset<nat>) {
    && |q.refs| == |p.refs|
    && (forall b :: b in rest && b in q.byBlock ==> b in p.byBlock)
    && (forall c: Cell :: c.block in rest && c in kv ==> c in kv' && kv'[c] == kv[c])
  }

  lemma {:induction false} OtherKept(p: Pool, kv: map<Cell, Key>, q: Pool, kv': map<Cell, Key>,
                                     rest: multiset<nat>, t: Live, bs: nat)
    requires bs >= 1 && Undisturbed(p, kv, q, kv', rest) && SeqOk(p.byBlock, kv, t, bs)
    requires forall b :: b in t.table ==> b in rest
    ensures SeqOk(q.byBlock, kv', t, bs)
  {
    forall n: nat | n < t.written ensures ReadsOwn(kv', t, n, bs) {
      assert ReadsOwn(kv, t, n, bs);
    }
  }

  /** A block that is not cached is in one table only, once. */
  lemma {:induction false} UncachedIsExclusive(p: Pool, table: seq<nat>, rest: multiset<nat>, k: nat)
    requires Valid(p, rest + multiset(table)) && k < |table| && table[k] !in p.byBlock
    ensures table[k] !in rest
    ensures forall j: nat :: j < |table| && j != k ==> table[j] != table[k]
  {
    var b := table[k];
    assert BlockOk(p, rest + multiset(table), b);
    hide Valid;
    assert table == table[..k] + [b] + table[k + 1..];
    assert multiset(table)[b] == multiset(table[..k])[b] + 1 + multiset(table[k + 1..])[b];
    assert b !in table[..k] && b !in table[k + 1..];
    forall j: nat | j < |table| && j != k ensures table[j] != b {
      assert if j < k then table[j] in table[..k] else table[j] in table[k + 1..];
    }
  }

  lemma {:induction false} AdoptKeeps(p: Pool, kv: map<Cell, Key>, s: Live, h: nat, rest: multiset<nat>, bs: nat)
    requires bs >= 1 && Focus(p, kv, s, rest, bs) && s.open && s.draft.None?
    requires s.written == s.computed == Size(|s.table|, bs) && s.published == |s.table|
    requires forall k: nat :: |s.table| <= k < h ==> Cached(p.byHash, s, k, bs)
    ensures Adopt(p, s, h, bs).Some?
    ensures var (q, t) := Adopt(p, s, h, bs).value;
            && Focus(q, kv, t, rest, bs) && Undisturbed(p, kv, q, kv, rest)
            && t.written == t.computed == Size(|t.table|, bs)
            && |t.table| == (if |s.table| >= h then |s.table| else h)
    decreases h - |s.table|
  {
    hide Focus, Share, Size;
    if |s.table| < h {
      assert Cached(p.byHash, s, |s.table|, bs);
      var b := p.byHash[BlockKey(s, |s.table|, bs)];
      var t := s.(table := s.table + [b], published := s.published + 1,
                  computed := s.computed + bs, written := s.written + bs);
      AdoptOne(p, kv, s, rest, bs);
      var q := Share(p, b).value;
      forall k: nat | |t.table| <= k < h ensures Cached(q.byHash, t, k, bs) {
        assert Cached(p.byHash, s, k, bs);
        assert BlockKey(t, k, bs) == BlockKey(s, k, bs);
      }
      AdoptKeeps(q, kv, t, h, rest, bs);
    }
  }

  lemma {:induction false} GrowKeeps(p: Pool, kv: map<Cell, Key>, s: Live, needed: nat, rest: multiset<nat>, bs: nat)
    requires bs >= 1 && Focus(p, kv, s, rest, bs) && s.open
    ensures var (q, t) := Grow(p, s, needed);
            && Focus(q, kv, t, rest, bs) && Undisturbed(p, kv, q, kv, rest)
            && t == s.(table := t.table) && s.table <= t.table
            && (|t.table| >= needed <==> needed <= |s.table| + Allocatable(p))
            && (|t.table| < needed ==> Allocatable(q) == 0)
            && (|t.table| <= needed || t.table == s.table)
            && Allocatable(q) == Allocatable(p) - (|t.table| - |s.table|)
    decreases needed - |s.table|
  {
    if |s.table| < needed {
      TakeValid(p, rest + multiset(s.table));
      if Take(p).Some? {
        var (b, q) := Take(p).value;
        GrowOne(p, kv, s, q, b, rest, bs);
        GrowKeeps(q, kv, s.(table := s.table + [b]), needed, rest, bs);
      }
    }
  }

  lemma {:induction false} GrowOne(p: Pool, kv: map<Cell, Key>, s: Live, q: Pool, b: nat, rest: multiset<nat>, bs: nat)
    requires bs >= 1 && Focus(p, kv, s, rest, bs) && s.open
    requires Valid(q, rest + multiset(s.table) + multiset{b}) && CachedWithin(q, p) && b !in q.byBlock
    ensures Focus(q, kv, s.(table := s.table + [b]), rest, bs)
  {
    var t := s.(table := s.table + [b]);
    assert multiset(t.table) == multiset(s.table) + multiset{b};
    assert rest + multiset(s.table) + multiset{b} == rest + multiset(t.table);
    SizeNext(|s.table|, bs);
    hide Valid;
    forall n: nat | n < t.written ensures ReadsOwn(kv, t, n, bs) {
      AppendedTable(kv, s, b, n, bs);
    }
  }

  /** One position of the forward pass: its block is in no other table and not cached, so no other
      cell is read through it. */
  lemma {:induction false} WriteOne(p: Pool, kv: map<Cell, Key>, s: Live, rest: multiset<nat>, bs: nat)
    requires bs >= 1 && Focus(p, kv, s, rest, bs) && s.written < s.computed
    ensures Full(s.written, bs) < |s.table|
    ensures var kv' := kv[Cell(s.table[Full(s.written, bs)], Offset(s.written, bs)) := KeyAt(s, s.written)];
            && Focus(p, kv', s.(written := s.written + 1), rest, bs)
            && Undisturbed(p, kv, p, kv', rest)
  {
    var k, off := Full(s.written, bs), Offset(s.written, bs);
    SizeFits(|s.table|, s.written, bs);
    var b := s.table[k];
    var kv' := kv[Cell(b, off) := KeyAt(s, s.written)];
    var t := s.(written := s.written + 1);
    UncachedIsExclusive(p, s.table, rest, k);
    hide Valid;
    FullMonotone(s.written, t.written, bs);
    forall n: nat | n < t.written ensures ReadsOwn(kv', t, n, bs) {
      if n < s.written {
        assert ReadsOwn(kv, s, n, bs);
        Position(n, bs);
        Position(s.written, bs);
        assert KeyAt(t, n) == KeyAt(s, n);
      }
    }
    forall c | c in p.byBlock ensures Holds(kv', c, p.byBlock[c], bs) {
      assert Holds(kv, c, p.byBlock[c], bs);
    }
  }

  lemma {:induction false} FullMonotone(m: nat, n: nat, bs: nat)
    requires bs >= 1 && m <= n
    ensures Full(m, bs) <= Full(n, bs)
  {
    SizeFits(Full(m, bs), m, bs);
    SizeFits(Full(m, bs), n, bs);
  }

  lemma {:induction false} WriteKeeps(p: Pool, kv: map<Cell, Key>, s: Live, rest: multiset<nat>, bs: nat)
    requires bs >= 1 && Focus(p, kv, s, rest, bs)
    ensures var (kv', t) := Write(kv, s, bs);
            && t == s.(written := s.computed)
            && Focus(p, kv', t, rest, bs)
            && Undisturbed(p, kv, p, kv', rest)
    decreases s.computed - s.written
  {
    if s.written < s.computed {
      WriteOne(p, kv, s, rest, bs);
      var kv' := kv[Cell(s.table[Full(s.written, bs)], Offset(s.written, bs)) := KeyAt(s, s.written)];
      WriteKeeps(p, kv', s.(written := s.written + 1), rest, bs);
    }
  }

  /** Publishing one full, written block: the cache accepts it and then holds its prefix. */
  lemma {:induction false} PublishOne(p: Pool, kv: map<Cell, Key>, s: Live, rest: multiset<nat>, bs: nat)
    requires bs >= 1 && Focus(p, kv, s, rest, bs) && s.draft.None?
    requires s.published < Full(s.written, bs)
    ensures Size(s.published + 1, bs) <= |s.tokens| && s.published < |s.table|
    ensures var q := Insert(p, s.table[s.published], BlockKey(s, s.published, bs));
            && q.Some? && Focus(q.value, kv, s.(published := s.published + 1), rest, bs)
            && Undisturbed(p, kv, q.value, kv, rest)
            && BlockKey(s, s.published, bs) in q.value.byHash
  {
    var k := s.published;
    CachedUnderOwnKey(p, kv, s, k, bs);
    var b, key := s.table[k], BlockKey(s, k, bs);
    var owned := rest + multiset(s.table);
    assert b in multiset(s.table);
    InsertValid(p, owned, b, key);
    if b !in p.byBlock { UncachedIsExclusive(p, s.table, rest, k); }
    var q := Insert(p, b, key).value;
    hide Valid, Insert;
    ReadIsHeld(kv, s, k, bs);
    forall c | c in q.byBlock ensures Holds(kv, c, q.byBlock[c], bs) {
      assert c in p.byBlock ==> Holds(kv, c, p.byBlock[c], bs);
    }
    var t := s.(published := k + 1);
    forall n: nat | n < t.written ensures ReadsOwn(kv, t, n, bs) {
      assert ReadsOwn(kv, s, n, bs);
      assert KeyAt(t, n) == KeyAt(s, n);
    }
  }

  lemma {:induction false} PublishKeeps(p: Pool, kv: map<Cell, Key>, s: Live, rest: multiset<nat>, bs: nat)
    requires bs >= 1 && Focus(p, kv, s, rest, bs) && s.written == s.computed && s.draft.None?
    ensures Publish(p, s, bs).Some?
    ensures var (q, t) := Publish(p, s, bs).value;
            && t == s.(published := Full(s.written, bs))
            && Focus(q, kv, t, rest, bs) && Undisturbed(p, kv, q, kv, rest)
    decreases Full(s.written, bs) - s.published
  {
    hide Insert, Valid, CacheHolds, Full;
    assert s.published < Full(s.written, bs) ==> s.open by {
      SizeFits(s.published + 1, s.written, bs);
      SizeNext(s.published, bs);
    }
    if s.published < Full(s.written, bs) {
      PublishOne(p, kv, s, rest, bs);
      var q := Insert(p, s.table[s.published], BlockKey(s, s.published, bs)).value;
      PublishKeeps(q, kv, s.(published := s.published + 1), rest, bs);
    }
  }

  lemma {:induction false} DropAllKeeps(p: Pool, table: seq<nat>, rest: multiset<nat>)
    requires Valid(p, rest + multiset(table))
    ensures DropAll(p, table).Some?
    ensures Valid(DropAll(p, table).value, rest)
    ensures DropAll(p, table).value.byBlock == p.byBlock && |DropAll(p, table).value.refs| == |p.refs|
    decreases |table|
  {
    if table == [] {
      assert rest + multiset(table) == rest;
    } else {
      var b := table[0];
      HeadCounts(table);
      DropValid(p, rest + multiset(table), b);
      assert rest + multiset(table) - multiset{b} == rest + multiset(table[1..]);
      DropAllKeeps(Drop(p, b).value, table[1..], rest);
    }
  }

  // ---- room ---------------------------------------------------------------------------------

  /** How many of the cached blocks `k` up to `h` are retained, so that adopting them uses up
      allocatable blocks. */
  function RetainedHits(p: Pool, s: Live, k: nat, h: nat, bs: nat): nat
    requires bs >= 1
    decreases h - k
  {
    if k >= h || !Cached(p.byHash, s, k, bs) then 0
    else (if p.byHash[BlockKey(s, k, bs)] in p.retained then 1 else 0) + RetainedHits(p, s, k + 1, h, bs)
  }

  /** `can_allocate`. */
  predicate CanAllocate(p: Pool, s: Live, bs: nat)
    requires bs >= 1
  {
    var h := Hits(p.byHash, s, 0, HitCap(s, bs), bs);
    Needed(|s.tokens|, bs) - h <= Allocatable(p) - RetainedHits(p, s, 0, h, bs)
  }

  /** `can_append`. */
  predicate CanAppend(p: Pool, s: Live, n: nat, bs: nat)
    requires bs >= 1
  {
    && s.computed + n <= |s.tokens|
    && Needed(s.computed + n, bs) - |s.table| <= Allocatable(p)
  }

  /** `append_slots` raises `OutOfBlocksError`. */
  predicate RunsOut(p: Pool, s: Live, n: nat, bs: nat)
    requires bs >= 1
  {
    |Grow(p, s, Needed(s.computed + n, bs)).1.table| < Needed(s.computed + n, bs)
  }

  /** Distinct prefixes are cached in distinct blocks, so sharing one leaves the other hits as
      they were. */
  lemma {:induction false} RetainedHitsAfter(p: Pool, q: Pool, s: Live, t: Live, b: nat, k: nat, h: nat, bs: nat)
    requires bs >= 1 && t.tokens == s.tokens && t.lora == s.lora
    requires q.byHash == p.byHash && q.retained == p.retained - {b}
    requires forall j: nat :: k <= j < h ==> Cached(p.byHash, s, j, bs) && p.byHash[BlockKey(s, j, bs)] != b
    ensures RetainedHits(q, t, k, h, bs) == RetainedHits(p, s, k, h, bs)
    decreases h - k
  {
    if k < h {
      assert Cached(p.byHash, s, k, bs);
      RetainedHitsAfter(p, q, s, t, b, k + 1, h, bs);
    }
  }

  /** Adoption uses up exactly the retained hits. */
  lemma {:induction false} AdoptCost(p: Pool, kv: map<Cell, Key>, s: Live, h: nat, rest: multiset<nat>, bs: nat)
    requires bs >= 1 && Focus(p, kv, s, rest, bs) && s.open && s.draft.None?
    requires s.written == s.computed == Size(|s.table|, bs) && s.published == |s.table|
    requires forall k: nat :: |s.table| <= k < h ==> Cached(p.byHash, s, k, bs)
    ensures Adopt(p, s, h, bs).Some?
    ensures Allocatable(Adopt(p, s, h, bs).value.0) == Allocatable(p) - RetainedHits(p, s, |s.table|, h, bs)
    decreases h - |s.table|
  {
    hide Share, Size, Allocatable;
    if |s.table| < h {
      assert Cached(p.byHash, s, |s.table|, bs);
      var b := p.byHash[BlockKey(s, |s.table|, bs)];
      var t := s.(table := s.table + [b], published := s.published + 1,
                  computed := s.computed + bs, written := s.written + bs);
      AdoptOne(p, kv, s, rest, bs);
      var q := Share(p, b).value;
      forall k: nat | |t.table| <= k < h
        ensures Cached(q.byHash, t, k, bs) && Cached(p.byHash, s, k, bs) && p.byHash[BlockKey(s, k, bs)] != b
      {
        assert Cached(p.byHash, s, k, bs);
        if p.byHash[BlockKey(s, k, bs)] == b { OneKeyPerBlock(p, s, |s.table|, k, bs); }
      }
      hide Focus;
      RetainedHitsAfter(p, q, s, t, b, |t.table|, h, bs);
      AdoptCost(q, kv, t, h, rest, bs);
    }
  }

  lemma {:induction false} OneKeyPerBlock(p: Pool, s: Live, k: nat, m: nat, bs: nat)
    requires bs >= 1 && Indexed(p) && Cached(p.byHash, s, k, bs) && Cached(p.byHash, s, m, bs)
    requires p.byHash[BlockKey(s, k, bs)] == p.byHash[BlockKey(s, m, bs)]
    ensures k == m
  {
    SameBlockKey(s, s, k, m, bs);
  }

  /** Admission adopts exactly the leading cached blocks and uses up the retained ones of them. */
  lemma {:induction false} AdmitKeeps(p: Pool, kv: map<Cell, Key>, s: Live, rest: multiset<nat>, bs: nat)
    requires bs >= 1 && Focus(p, kv, s, rest, bs) && s.table == []
    ensures Admit(p, s, bs).Some?
    ensures var (q, t) := Admit(p, s, bs).value;
            var h := Hits(p.byHash, s, 0, HitCap(s, bs), bs);
            && Focus(q, kv, t, rest, bs) && Undisturbed(p, kv, q, kv, rest)
            && t.open && t.draft.None? && t.tokens == s.tokens && |t.table| == h
            && t.written == t.computed == Size(h, bs)
            && Allocatable(q) == Allocatable(p) - RetainedHits(p, s, 0, h, bs)
  {
    var u := s.(open := true, computed := 0, written := 0, published := 0, draft := None);
    var h := Hits(p.byHash, s, 0, HitCap(s, bs), bs);
    forall k: nat | k < h ensures Cached(p.byHash, u, k, bs) {
      assert Cached(p.byHash, s, k, bs);
    }
    assert Focus(p, kv, u, rest, bs);
    hide Valid, CacheHolds, SeqOk, Undisturbed;
    AdoptKeeps(p, kv, u, h, rest, bs);
    AdoptCost(p, kv, u, h, rest, bs);
    SameRetainedHits(p, s, u, 0, h, bs);
    AdoptSameSequence(p, u, h, bs);
  }

  lemma {:induction false} AdoptSameSequence(p: Pool, s: Live, h: nat, bs: nat)
    requires bs >= 1 && Adopt(p, s, h, bs).Some?
    ensures var t := Adopt(p, s, h, bs).value.1; 
            && t.open == s.open && t.draft == s.draft && t.tokens == s.tokens && t.lora == s.lora
    decreases h - |s.table|
  {
    if |s.table| < h {
      var b := p.byHash[BlockKey(s, |s.table|, bs)];
      AdoptSameSequence(Share(p, b).value,
                        s.(table := s.table + [b], published := s.published + 1,
                           computed := s.computed + bs, written := s.written + bs), h, bs);
    }
  }

  lemma {:induction false} SameRetainedHits(p: Pool, s: Live, t: Live, k: nat, h: nat, bs: nat)
    requires bs >= 1 && t.tokens == s.tokens && t.lora == s.lora
    ensures RetainedHits(p, t, k, h, bs) == RetainedHits(p, s, k, h, bs)
    decreases h - k
  {
    if k < h && Cached(p.byHash, s, k, bs) { SameRetainedHits(p, s, t, k + 1, h, bs); }
  }

  /** Growth runs out exactly when the missing blocks outnumber the allocatable ones. */
  lemma {:induction false} RunsOutWhen(p: Pool, kv: map<Cell, Key>, s: Live, n: nat, rest: multiset<nat>, bs: nat)
    requires bs >= 1 && Focus(p, kv, s, rest, bs) && s.open
    ensures RunsOut(p, s, n, bs) <==> Needed(s.computed + n, bs) > |s.table| + Allocatable(p)
  {
    hide Focus, Undisturbed;
    GrowKeeps(p, kv, s, Needed(s.computed + n, bs), rest, bs);
  }

  lemma {:induction false} SameBlockKey(s: Live, t: Live, k: nat, m: nat, bs: nat)
    requires bs >= 1 && Size(k + 1, bs) <= |s.tokens| && Size(m + 1, bs) <= |t.tokens|
    requires BlockKey(s, k, bs) == BlockKey(t, m, bs)
    ensures k == m
  {
    assert |BlockKey(s, k, bs).prefix| == Size(k + 1, bs);
    assert |BlockKey(t, m, bs).prefix| == Size(m + 1, bs);
    PositionOf(k + 1, 0, bs);
    PositionOf(m + 1, 0, bs);
  }

  /** `can_allocate` against what then happens: it holds if and only if, with the hits adopted, all
      remaining tokens can be grown into; and then so can any `n` of them. */
  lemma {:induction false} AdmissionExact(p: Pool, kv: map<Cell, Key>, s: Live, n: nat, rest: multiset<nat>, bs: nat)
    requires bs >= 1 && Focus(p, kv, s, rest, bs) && s.table == []
    ensures Admit(p, s, bs).Some?
    ensures var (q, t) := Admit(p, s, bs).value;
            && (t.computed + n == |s.tokens| ==> (CanAllocate(p, s, bs) <==> !RunsOut(q, t, n, bs)))
            && (t.computed + n <= |s.tokens| && CanAllocate(p, s, bs) ==> !RunsOut(q, t, n, bs))
  {
    hide Focus, Undisturbed, RunsOut, Admit, Needed, Hits, HitCap, RetainedHits;
    AdmitKeeps(p, kv, s, rest, bs);
    var (q, t) := Admit(p, s, bs).value;
    RunsOutWhen(q, kv, t, n, rest, bs);
    if t.computed + n <= |s.tokens| { NeededMonotone(t.computed + n, |s.tokens|, bs); }
  }

  // ---- drafts -------------------------------------------------------------------------------

  lemma {:induction false} AdvanceKeeps(p: Pool, kv: map<Cell, Key>, s: Live, n: nat, rest: multiset<nat>, bs: nat)
    requires bs >= 1 && Focus(p, kv, s, rest, bs)
    requires s.computed + n <= |Fed(s)| && s.computed + n <= Size(|s.table|, bs)
    ensures Focus(p, kv, s.(computed := s.computed + n), rest, bs)
  {
    hide Valid, CacheHolds;
    var t := s.(computed := s.computed + n);
    forall m: nat | m < t.written ensures ReadsOwn(kv, t, m, bs) {
      assert ReadsOwn(kv, s, m, bs);
    }
  }

  lemma {:induction false} DraftedOk(p: Pool, kv: map<Cell, Key>, s: Live, drafts: seq<Token>,
                                     rest: multiset<nat>, bs: nat)
    requires bs >= 1 && Focus(p, kv, s, rest, bs) && s.draft.None?
    ensures Focus(p, kv, Drafted(s, drafts), rest, bs)
    ensures Fed(Drafted(s, drafts)) == s.tokens[..s.computed] + drafts
  {
    hide Valid, CacheHolds, Full;
    var u := Drafted(s, drafts);
    FullMonotone(s.written, s.computed, bs);
    forall n: nat | n < u.written ensures ReadsOwn(kv, u, n, bs) {
      assert ReadsOwn(kv, s, n, bs);
      assert s.draft.None? ==> Fed(u)[..n + 1] == s.tokens[..n + 1];
    }
  }

  /** `append_slots` disturbs nobody, and advances the sequence exactly if `can_append` found room. */
  lemma {:induction false} ExtendKeeps(p: Pool, kv: map<Cell, Key>, s: Live, n: nat, rest: multiset<nat>, bs: nat)
    requires bs >= 1 && Focus(p, kv, s, rest, bs) && s.open && s.computed + n <= |Fed(s)|
    ensures var (q, t) := Extend(p, s, n, bs);
            && Focus(q, kv, t, rest, bs) && Undisturbed(p, kv, q, kv, rest) && s.table <= t.table
            && t == s.(table := t.table, computed := if CanAppend(p, s, n, bs) then s.computed + n else s.computed)
  {
    hide Focus, Undisturbed, Needed, Size, Grow, Allocatable;
    var needed := Needed(s.computed + n, bs);
    GrowKeeps(p, kv, s, needed, rest, bs);
    var (q, t) := Grow(p, s, needed);
    if |t.table| >= needed {
      NeededFits(s.computed + n, |t.table|, bs);
      AdvanceKeeps(q, kv, t, n, rest, bs);
    }
  }

  /** A draft that `can_append` found room for is appended to the text, and given the slots from the
      first uncomputed position on. */
  lemma {:induction false} DraftKeeps(p: Pool, kv: map<Cell, Key>, s: Live, drafts: seq<Token>,
                                      rest: multiset<nat>, bs: nat)
    requires bs >= 1 && Focus(p, kv, s, rest, bs) && s.open && s.draft.None?
    requires CanAppend(p, s.(tokens := s.tokens + drafts), |drafts|, bs)
    ensures var (q, t) := Speculate(p, s, drafts, bs);
            && Focus(q, kv, t, rest, bs) && Undisturbed(p, kv, q, kv, rest)
            && s.table <= t.table
            && t == s.(tokens := s.tokens + drafts, draft := Some(Placement(s.computed, |s.tokens|)), table := t.table,
                       computed := s.computed + |drafts|)
            && Fed(t) == s.tokens[..s.computed] + drafts
  {
    DraftedOk(p, kv, s, drafts, rest, bs);
    hide Focus, Undisturbed, Needed, Extend, Allocatable;
    ExtendKeeps(p, kv, Drafted(s, drafts), |drafts|, rest, bs);
  }

  /** Undoing a draft and crediting what was accepted of it, as far as bookkeeping goes: had the
      credited positions been computed from the text, all would be well. */
  lemma {:induction false} RolledBackKeeps(p: Pool, kv: map<Cell, Key>, s: Live, accepted: nat, fed: nat,
                                           credited: nat, bonus: Token, rest: multiset<nat>, bs: nat)
    requires bs >= 1 && Focus(p, kv, s, rest, bs) && Resolvable(s, accepted, fed, credited)
    ensures Focus(p, kv, Resolve(s, accepted, fed, credited, bonus).(written := s.draft.value.base), rest, bs)
  {
    hide Valid, CacheHolds;
    var base := s.draft.value.base;
    var t := Resolve(s, accepted, fed, credited, bonus).(written := base);
    forall n: nat | n < base ensures ReadsOwn(kv, t, n, bs) {
      assert ReadsOwn(kv, s, n, bs);
      assert t.tokens[..n + 1] == s.tokens[..n + 1] == Fed(s)[..n + 1];
    }
  }

  lemma {:induction false} SplitEqual(a: seq<Token>, b: seq<Token>, k: nat)
    requires k <= |a| == |b| && a[..k] == b[..k]
    ensures a == b <==> a[k..] == b[k..]
  {
    assert a == a[..k] + a[k..] && b == b[..k] + b[k..];
  }

  /** The credited tokens are those of the text exactly if the credited prefix was the one fed. */
  lemma {:induction false} CreditedPrefix(s: Live, accepted: nat, fed: nat, credited: nat, bonus: Token)
    requires Resolvable(s, accepted, fed, credited)
    ensures var t := Resolve(s, accepted, fed, credited, bonus);
            && t.written <= |t.tokens| && t.written <= |Fed(s)|
            && (CreditsText(s, accepted, fed, credited, bonus) <==> t.tokens[..t.written] == Fed(s)[..t.written])
  {
    var Placement(base, length) := s.draft.value;
    var outcome := s.tokens[length..length + accepted] + [bonus];
    var t := Resolve(s, accepted, fed, credited, bonus);
    var end := base + credited;
    assert t.tokens[..base] == s.tokens[..base];
    hide Resolve;
    var a, b := t.tokens[..end], Fed(s)[..end];
    assert a[..base] == s.tokens[..base] && b[..base] == s.tokens[..base];
    assert a[base..] == t.tokens[base..end] && b[base..] == s.tokens[length..length + credited];
    SplitEqual(a, b, base);
  }

  lemma {:induction false} TakenOutcome(drafts: seq<Token>, accepted: nat, fed: nat, credited: nat, bonus: Token)
    requires accepted <= |drafts| && credited <= fed <= accepted + 1 && credited <= accepted
    ensures (drafts[..accepted] + [bonus])[..fed][..credited] == drafts[..credited]
  {}

  /** They are when the draft was given the slots of its own positions. */
  lemma {:induction false} InPlaceCredits(s: Live, accepted: nat, fed: nat, credited: nat, bonus: Token)
    requires Resolvable(s, accepted, fed, credited) && s.draft.value.base == s.draft.value.length
    ensures CreditsText(s, accepted, fed, credited, bonus)
  {
    var n := s.draft.value.length;
    var drafts := s.tokens[n..];
    var outcome := drafts[..accepted] + [bonus];
    assert drafts[..accepted] == s.tokens[n..n + accepted] && drafts[..credited] == s.tokens[n..n + credited];
    TakenOutcome(drafts, accepted, fed, credited, bonus);
    assert (s.tokens[..n] + outcome[..fed])[n..n + credited] == outcome[..fed][..credited];
  }

  /** Undoing a draft and crediting what was accepted of it: every position that counts as written
      reads its own prefix if and only if the credited tokens are those of the text there. */
  lemma {:induction false} ResolveKeeps(p: Pool, kv: map<Cell, Key>, s: Live, accepted: nat, fed: nat,
                                        credited: nat, bonus: Token, rest: multiset<nat>, bs: nat)
    requires bs >= 1 && Focus(p, kv, s, rest, bs) && Resolvable(s, accepted, fed, credited)
    ensures Focus(p, kv, Resolve(s, accepted, fed, credited, bonus), rest, bs)
            <==> CreditsText(s, accepted, fed, credited, bonus)
  {
    hide Valid, CacheHolds;
    var t := Resolve(s, accepted, fed, credited, bonus);
    CreditedPrefix(s, accepted, fed, credited, bonus);
    RolledBackKeeps(p, kv, s, accepted, fed, credited, bonus, rest, bs);
    FullMonotone(s.draft.value.base, t.written, bs);
    hide CreditsText;
    if t.tokens[..t.written] == Fed(s)[..t.written] {
      forall n: nat | n < t.written ensures ReadsOwn(kv, t, n, bs) {
        assert ReadsOwn(kv, s, n, bs);
        assert t.tokens[..t.written][..n + 1] == t.tokens[..n + 1];
        assert Fed(s)[..t.written][..n + 1] == Fed(s)[..n + 1];
      }
    } else {
      CreditedElsewhere(p, kv, s, accepted, fed, credited, bonus, rest, bs);
    }
  }

  /** And if they are not, it is the last credited position that reads foreign KV. */
  lemma {:induction false} CreditedElsewhere(p: Pool, kv: map<Cell, Key>, s: Live, accepted: nat, fed: nat,
                                             credited: nat, bonus: Token, rest: multiset<nat>, bs: nat)
    requires bs >= 1 && Focus(p, kv, s, rest, bs) && Resolvable(s, accepted, fed, credited)
    requires !CreditsText(s, accepted, fed, credited, bonus)
    ensures var t := Resolve(s, accepted, fed, credited, bonus);
            0 < t.written <= |t.tokens| && !ReadsOwn(kv, t, t.written - 1, bs)
  {
    hide Valid, CacheHolds;
    CreditedPrefix(s, accepted, fed, credited, bonus);
    var t := Resolve(s, accepted, fed, credited, bonus);
    assert t.tokens[..0] == Fed(s)[..0];
    hide CreditsText;
    assert ReadsOwn(kv, s, t.written - 1, bs);
  }

  /** A draft rejected altogether leaves an ordinary decode step behind: the same tokens and
      progress, and at most some more blocks. */
  lemma {:induction false} RejectedDraftLeavesDecode(p: Pool, kv: map<Cell, Key>, s: Live, drafts: seq<Token>,
                                                     bonus: Token, rest: multiset<nat>, bs: nat)
    requires bs >= 1 && Focus(p, kv, s, rest, bs) && s.open && s.draft.None?
    requires CanAppend(p, s.(tokens := s.tokens + drafts), |drafts|, bs)
    ensures var (q, t) := Speculate(p, s, drafts, bs);
            var u := Write(kv, t, bs).1;
            && Resolvable(u, 0, 1, 0)
            && var v := Resolve(u, 0, 1, 0, bonus);
            && v == s.(tokens := s.tokens + [bonus], written := s.computed, table := v.table)
            && s.table <= v.table
  {
    DraftKeeps(p, kv, s, drafts, rest, bs);
    var (q, t) := Speculate(p, s, drafts, bs);
    hide Undisturbed, Speculate, Write, Valid, CacheHolds, ReadsOwn;
    WriteKeeps(q, kv, t, rest, bs);
    var u := Write(kv, t, bs).1;
    assert u.tokens[..|s.tokens|] == s.tokens;
    assert (u.tokens[|s.tokens|..|s.tokens|] + [bonus])[..1] == [bonus];
  }
}
