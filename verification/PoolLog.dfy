/** What the block manager asks of the allocator and the cache, call by call, and that every engine
    state is one such log's (src/turboserve/engine/core/block_manager.py:209-487). */
module PoolLog {
  import opened Prelude
  import opened KvBlocks
  import opened KvSharing
  import opened KvEngine
  import opened Retention

  function Takes(blocks: seq<nat>): seq<Entry> { seq(|blocks|, j requires 0 <= j < |blocks| => Took(blocks[j])) }

  function Shares(blocks: seq<nat>): seq<Entry> { seq(|blocks|, j requires 0 <= j < |blocks| => Shared(blocks[j])) }

  function Drops(blocks: seq<nat>): seq<Entry> { seq(|blocks|, j requires 0 <= j < |blocks| => Dropped(blocks[j])) }

  /** Blocks `k` up to `m` of a sequence, each offered under its own prefix. */
  function Offers(s: Live, k: nat, m: nat, bs: nat): seq<Entry>
    requires bs >= 1 && k <= m <= |s.table| && Size(m, bs) <= |s.tokens|
    decreases m - k
  {
    if k == m then [] else
      assert Size(k + 1, bs) <= |s.tokens| by { SizeUpTo(k + 1, m, bs); }
      [Indexed(s.table[k], BlockKey(s, k, bs))] + Offers(s, k + 1, m, bs)
  }

  lemma {:induction false} SizeUpTo(k: nat, m: nat, bs: nat)
    requires k <= m
    ensures Size(k, bs) <= Size(m, bs)
  {
    if k < m { SizeUpTo(k, m - 1, bs); }
  }

  lemma ReplayMore(n: nat, log: seq<Entry>, x: Entry)
    requires Replay(n, log).Some?
    ensures Replay(n, log + [x]) == Next(Replay(n, log).value, x)
  {
    assert (log + [x])[..|log|] == log;
  }

  /** A table grows by whatever the allocator hands out, in that order. */
  lemma {:induction false} GrowLogged(n: nat, log: seq<Entry>, p: Pool, s: Live, needed: nat)
    requires Replay(n, log) == Some(p)
    ensures var (q, t) := Grow(p, s, needed);
            && s.table <= t.table && t == s.(table := t.table)
            && Replay(n, log + Takes(t.table[|s.table|..])) == Some(q)
    decreases needed - |s.table|
  {
    hide Take, Replay;
    var (q, t) := Grow(p, s, needed);
    if |s.table| >= needed || Take(p).None? {
      assert s.table[|s.table|..] == [] && log + Takes([]) == log;
    } else {
      var (b, r) := Take(p).value;
      ReplayMore(n, log, Took(b));
      var u := s.(table := s.table + [b]);
      GrowLogged(n, log + [Took(b)], r, u, needed);
      assert t.table[|s.table|..] == [b] + t.table[|u.table|..];
      assert log + Takes(t.table[|s.table|..]) == log + [Took(b)] + Takes(t.table[|u.table|..]);
    }
  }

  /** Prefix hits are adopted front first. */
  lemma {:induction false} AdoptLogged(n: nat, log: seq<Entry>, p: Pool, s: Live, h: nat, bs: nat)
    requires bs >= 1 && Replay(n, log) == Some(p) && Adopt(p, s, h, bs).Some?
    ensures var (q, t) := Adopt(p, s, h, bs).value;
            && s.table <= t.table && Replay(n, log + Shares(t.table[|s.table|..])) == Some(q)
    decreases h - |s.table|
  {
    hide Share, Replay;
    var (q, t) := Adopt(p, s, h, bs).value;
    if |s.table| >= h {
      assert s.table[|s.table|..] == [] && log + Shares([]) == log;
    } else {
      var b := p.byHash[BlockKey(s, |s.table|, bs)];
      ReplayMore(n, log, Shared(b));
      var u := s.(table := s.table + [b], published := s.published + 1, computed := s.computed + bs,
                  written := s.written + bs);
      AdoptLogged(n, log + [Shared(b)], Share(p, b).value, u, h, bs);
      assert t.table[|s.table|..] == [b] + t.table[|u.table|..];
      assert log + Shares(t.table[|s.table|..]) == log + [Shared(b)] + Shares(t.table[|u.table|..]);
    }
  }

  /** A table is given back front first. */
  lemma {:induction false} DropsLogged(n: nat, log: seq<Entry>, p: Pool, table: seq<nat>)
    requires Replay(n, log) == Some(p) && DropAll(p, table).Some?
    ensures Replay(n, log + Drops(table)) == DropAll(p, table)
    decreases |table|
  {
    hide Drop, Replay;
    if table == [] {
      assert log + Drops(table) == log;
    } else {
      ReplayMore(n, log, Dropped(table[0]));
      DropsLogged(n, log + [Dropped(table[0])], Drop(p, table[0]).value, table[1..]);
      assert log + Drops(table) == log + [Dropped(table[0])] + Drops(table[1..]);
    }
  }

  /** The blocks completed since the last time are offered, front first. */
  lemma {:induction false} OffersLogged(n: nat, log: seq<Entry>, p: Pool, s: Live, bs: nat)
    requires bs >= 1 && Replay(n, log) == Some(p) && Publish(p, s, bs).Some?
    requires forall b :: b in s.table ==> b < |p.refs| && p.refs[b] > 0
    ensures var (q, t) := Publish(p, s, bs).value;
            && t == s.(published := t.published) && s.published <= t.published
            && t.published == (if !s.open || s.published >= Full(s.computed, bs) || s.published >= |s.table|
                               then s.published
                               else if Full(s.computed, bs) < |s.table| then Full(s.computed, bs) else |s.table|)
            && (s.published < t.published ==> t.published <= |s.table| && Size(t.published, bs) <= |s.tokens|)
            && Replay(n, log + if s.published < t.published then Offers(s, s.published, t.published, bs) else [])
               == Some(q)
    decreases |s.table| - s.published
  {
    hide Insert, Replay, Full, Size, BlockKey;
    var (q, t) := Publish(p, s, bs).value;
    if !s.open || s.published >= Full(s.computed, bs) || s.published >= |s.table| {
      assert log + [] == log;
    } else {
      var x := Indexed(s.table[s.published], BlockKey(s, s.published, bs));
      assert s.table[s.published] in s.table;
      ReplayMore(n, log, x);
      var u := s.(published := s.published + 1);
      var r := Insert(p, s.table[s.published], BlockKey(s, s.published, bs)).value;
      InsertRefs(p, s.table[s.published], BlockKey(s, s.published, bs));
      OffersLogged(n, log + [x], r, u, bs);
      if u.published < t.published {
        SameOffers(s, u, u.published, t.published, bs);
        assert log + Offers(s, s.published, t.published, bs) == log + [x] + Offers(u, u.published, t.published, bs);
      } else {
        assert Offers(s, s.published, t.published, bs) == [x];
        assert log + [x] + [] == log + [x];
      }
    }
  }

  lemma InsertRefs(p: Pool, b: nat, k: Key)
    requires Insert(p, b, k).Some?
    ensures Insert(p, b, k).value.refs == p.refs
  {}

  lemma {:induction false} SameOffers(s: Live, u: Live, k: nat, m: nat, bs: nat)
    requires bs >= 1 && k <= m <= |s.table| && Size(m, bs) <= |s.tokens|
    requires u.table == s.table && u.tokens == s.tokens && u.lora == s.lora
    ensures Offers(u, k, m, bs) == Offers(s, k, m, bs)
    decreases m - k
  {
    if k < m {
      SizeUpTo(k + 1, m, bs);
      SameOffers(s, u, k + 1, m, bs);
    }
  }

  // ---- whole runs ---------------------------------------------------------------------------

  /** The blocks of an admitted sequence that were completed since the last time. */
  ghost function OffersDue(s: Live, bs: nat): seq<Entry>
    requires bs >= 1
  {
    var full := Full(s.computed, bs);
    var m := if full < |s.table| then full else |s.table|;
    if s.open && s.published < m && Size(m, bs) <= |s.tokens| then Offers(s, s.published, m, bs) else []
  }

  /** Publishing offers exactly those. */
  lemma PublishLogged(n: nat, log: seq<Entry>, p: Pool, s: Live, bs: nat)
    requires bs >= 1 && Replay(n, log) == Some(p) && Publish(p, s, bs).Some?
    requires forall b :: b in s.table ==> b < |p.refs| && p.refs[b] > 0
    ensures Replay(n, log + OffersDue(s, bs)) == Some(Publish(p, s, bs).value.0)
  {
    hide Replay, Publish, Full, Size, BlockKey;
    OffersLogged(n, log, p, s, bs);
  }

  lemma InUseWhileListed(e: Engine, i: nat, bs: nat)
    requires bs >= 1 && Booked(e, bs) && i < |e.seqs|
    ensures forall b :: b in e.seqs[i].table ==> b < |e.pool.refs| && e.pool.refs[b] > 0
  {
    hide SeqOk, CacheHolds, Owned;
    forall b | b in e.seqs[i].table ensures b < |e.pool.refs| && e.pool.refs[b] > 0 {
      OwnedHas(e.seqs, i, b);
      assert BlockOk(e.pool, Owned(e.seqs), b);
    }
  }

  /** Admission shares the cached leading blocks, front first. */
  lemma AdmitLogged(n: nat, log: seq<Entry>, p: Pool, s: Live, bs: nat)
    requires bs >= 1 && Replay(n, log) == Some(p) && s.table == [] && Admit(p, s, bs).Some?
    ensures var (q, t) := Admit(p, s, bs).value; Replay(n, log + Shares(t.table)) == Some(q)
  {
    hide Replay, Adopt, Hits;
    var u := s.(open := true, computed := 0, written := 0, published := 0, draft := None);
    AdoptLogged(n, log, p, u, Hits(p.byHash, s, 0, HitCap(s, bs), bs), bs);
    var t := Admit(p, s, bs).value.1;
    assert t.table[0..] == t.table;
  }

  /** New tokens take the missing blocks one by one. */
  lemma ExtendLogged(n: nat, log: seq<Entry>, p: Pool, s: Live, count: nat, bs: nat)
    requires bs >= 1 && Replay(n, log) == Some(p)
    ensures var (q, t) := Extend(p, s, count, bs);
            s.table <= t.table && Replay(n, log + Takes(t.table[|s.table|..])) == Some(q)
  {
    hide Replay, Grow, Needed;
    GrowLogged(n, log, p, s, Needed(s.computed + count, bs));
  }

  /** What releasing a table asks for, in order. */
  ghost function Giving(s: Live, bs: nat, caching: bool): seq<Entry>
    requires bs >= 1
  {
    (if caching then OffersDue(s, bs) else []) + Drops(s.table)
  }

  /** With a cache a release offers what was completed; then it gives the table back, front first. */
  lemma ReleaseLogged(n: nat, log: seq<Entry>, p: Pool, s: Live, bs: nat, caching: bool)
    requires bs >= 1 && Replay(n, log) == Some(p) && Release(p, s, bs, caching).Some?
    requires forall b :: b in s.table ==> b < |p.refs| && p.refs[b] > 0
    ensures Replay(n, log + Giving(s, bs, caching)) == Some(Release(p, s, bs, caching).value.0)
  {
    hide Replay, Publish, DropAll, OffersDue;
    var offers := if caching then OffersDue(s, bs) else [];
    if caching { PublishLogged(n, log, p, s, bs); }
    var r := if caching then Publish(p, s, bs).value.0 else p;
    assert log + [] == log;
    DropsLogged(n, log + offers, r, s.table);
    assert log + offers + Drops(s.table) == log + Giving(s, bs, caching);
  }

  /** An action asks nothing, or admits, extends, publishes or releases one sequence. */
  lemma {:induction false} StepLogged(n: nat, log: seq<Entry>, e: Engine, a: Action, setup: Setup)
    returns (more: seq<Entry>)
    requires setup.blockSize >= 1 && Replay(n, log) == Some(e.pool)
    requires Booked(e, setup.blockSize) && Step(e, a, setup).Some?
    ensures Replay(n, log + more) == Some(Step(e, a, setup).value.pool)
  {
    hide Replay, Publish, Release, Admit, Extend, Resolve, Write, Resolvable, Draftable, Booked, OffersDue, Giving;
    var bs := setup.blockSize;
    more := [];
    assert log + [] == log;
    if !a.Queue? && a.seqIndex < |e.seqs| {
      var s := e.seqs[a.seqIndex];
      InUseWhileListed(e, a.seqIndex, bs);
      match a
      case Start(_) =>
        if s.table == [] {
          AdmitLogged(n, log, e.pool, s, bs);
          more := Shares(Admit(e.pool, s, bs).value.1.table);
        }
      case Schedule(_, count) =>
        if s.open && Settled(s) && s.computed + count <= |s.tokens| {
          ExtendLogged(n, log, e.pool, s, count, bs);
          more := Takes(Extend(e.pool, s, count, bs).1.table[|s.table|..]);
        }
      case Draft(_, drafts) =>
        if Draftable(e.pool, s, drafts, bs) {
          var u := Drafted(s, drafts);
          ExtendLogged(n, log, e.pool, u, |drafts|, bs);
          more := Takes(Extend(e.pool, u, |drafts|, bs).1.table[|u.table|..]);
        }
      case Offer(_) =>
        if setup.caching && s.open && Settled(s) {
          PublishLogged(n, log, e.pool, s, bs);
          more := OffersDue(s, bs);
        }
      case Retire(_) =>
        if Settled(s) {
          ReleaseLogged(n, log, e.pool, s, bs, setup.caching);
          more := Giving(s, bs, setup.caching);
        }
      case Forward(_) =>
      case Sample(_, _) =>
      case Verdict(_, _, _, _, _) =>
    }
  }

  /** The pool of every engine state is what some log makes of a new one; by `LongestIdleFirst` each
      block in it was then the one idle longest when it was handed out. */
  lemma {:induction false} RunLogged(e: Engine, actions: seq<Action>, setup: Setup, n: nat, log: seq<Entry>)
    returns (more: seq<Entry>)
    requires setup.blockSize >= 1 && Replay(n, log) == Some(e.pool) && Booked(e, setup.blockSize)
    requires Run(e, actions, setup).Some?
    ensures Replay(n, log + more) == Some(Run(e, actions, setup).value.pool) && Legal(n, log + more)
    decreases |actions|
  {
    hide Replay, Step, Booked, Legal;
    if actions == [] {
      more := [];
      assert log + [] == log;
      LongestIdleFirst(n, log);
    } else {
      StepBooked(e, actions[0], setup);
      var first := StepLogged(n, log, e, actions[0], setup);
      var rest := RunLogged(Step(e, actions[0], setup).value, actions[1..], setup, n, log + first);
      more := first + rest;
      assert log + more == log + first + rest;
    }
  }
}
