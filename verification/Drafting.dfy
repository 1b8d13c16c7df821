/** Funding the drafts of one speculative step (src/turboserve/engine/spec/spec_engine.py:352-425):
    each draft in turn is cut to what the pool is thought to hold, and then appended. */
module Drafting {
  import opened Prelude
  import opened KvBlocks
  import opened KvSharing
  import opened KvEngine
  import opened EngineEffects

  /** The longest non-empty prefix of a draft of `n` tokens whose blocks are within the allowance,
      and 0 if there is none. */
  function Fundable(s: Live, n: nat, allowance: int, bs: nat): (m: nat)
    requires bs >= 1
    ensures m <= n && (m > 0 ==> Missing(s, m, bs) <= allowance)
    ensures forall k: nat :: m < k <= n ==> Missing(s, k, bs) > allowance
  {
    if n == 0 || Missing(s, n, bs) <= allowance then n else Fundable(s, n - 1, allowance, bs)
  }

  /** The draft cut to what is allocatable, less what earlier sequences of the step reserved. */
  method Fund(s: Live, draft: seq<Token>, allocatable: nat, reserved: nat, bs: nat)
    returns (kept: seq<Token>, reserved': nat)
    requires bs >= 1
    ensures kept == draft[..Fundable(s, |draft|, allocatable - reserved, bs)]
    ensures reserved' == reserved + (if kept == [] then 0 else Missing(s, |kept|, bs))
  {
    hide Needed;
    var allowed: nat := |draft|;
    while allowed > 0
      invariant allowed <= |draft|
      invariant Fundable(s, |draft|, allocatable - reserved, bs) == Fundable(s, allowed, allocatable - reserved, bs)
    {
      if Missing(s, allowed, bs) <= allocatable - reserved {
        return draft[..allowed], reserved + Missing(s, allowed, bs);
      }
      allowed := allowed - 1;
    }
    return [], reserved;
  }

  /** What reserving blocks on top costs a draft, exactly: it is cut shorter than what is allocatable
      would bear if and only if its fair share and the reservation together exceed that. */
  lemma {:induction false} CutExactly(s: Live, n: nat, allocatable: nat, reserved: nat, bs: nat)
    requires bs >= 1
    ensures var fair := Fundable(s, n, allocatable, bs);
            var got := Fundable(s, n, allocatable - reserved, bs);
            got <= fair && (got < fair <==> fair > 0 && Missing(s, fair, bs) + reserved > allocatable)
  {
    hide Missing;
    hide Fundable;
  }

  /** A funded draft never runs the pool out, and takes exactly its missing blocks. */
  lemma {:induction false} FundedDraftFits(p: Pool, kv: map<Cell, Key>, s: Live, kept: seq<Token>,
                                           rest: multiset<nat>, bs: nat)
    requires bs >= 1 && Focus(p, kv, s, rest, bs) && s.open && s.draft.None?
    requires Missing(s, |kept|, bs) <= Allocatable(p)
    ensures CanAppend(p, s.(tokens := s.tokens + kept), |kept|, bs)
    ensures Allocatable(Speculate(p, s, kept, bs).0) == Allocatable(p) - Missing(s, |kept|, bs)
  {
    var u := Drafted(s, kept);
    DraftedOk(p, kv, s, kept, rest, bs);
    hide Focus, Undisturbed, Needed, Size;
    GrowKeeps(p, kv, u, Needed(u.computed + |kept|, bs), rest, bs);
  }

  // ---- a whole step -------------------------------------------------------------------------

  /** The engine with the drafts appended, what was kept of each, and the blocks reserved. */
  datatype Funding = Funding(e: Engine, kept: seq<seq<Token>>, reserved: nat)

  ghost predicate Listed(e: Engine, items: seq<nat>, drafts: seq<seq<Token>>) {
    |items| == |drafts| && forall k :: 0 <= k < |items| ==> items[k] < |e.seqs|
  }

  /** One more sequence is funded and extended. */
  function FundNext(f: Funding, i: nat, draft: seq<Token>, bs: nat): (g: Funding)
    requires bs >= 1 && i < |f.e.seqs|
    ensures |g.e.seqs| == |f.e.seqs| && g.e.seqs == f.e.seqs[i := g.e.seqs[i]]
    ensures g.kept == f.kept + [draft[..Fundable(f.e.seqs[i], |draft|, Allocatable(f.e.pool) - f.reserved, bs)]]
  {
    var s := f.e.seqs[i];
    var kept := draft[..Fundable(s, |draft|, Allocatable(f.e.pool) - f.reserved, bs)];
    if kept == [] then f.(kept := f.kept + [kept])
    else
      Funding(Replace(f.e, i, Some(Speculate(f.e.pool, s, kept, bs))).value, f.kept + [kept],
              f.reserved + Missing(s, |kept|, bs))
  }

  function FundAll(e: Engine, items: seq<nat>, drafts: seq<seq<Token>>, bs: nat): (f: Funding)
    requires bs >= 1 && Listed(e, items, drafts)
    ensures |f.e.seqs| == |e.seqs| && |f.kept| == |items|
  {
    if items == [] then Funding(e, [], 0)
    else
      var last := |items| - 1;
      FundNext(FundAll(e, items[..last], drafts[..last], bs), items[last], drafts[last], bs)
  }

  /** The loop over the sequences that decode. */
  method FundStep(e: Engine, items: seq<nat>, drafts: seq<seq<Token>>, bs: nat) returns (f: Funding)
    requires bs >= 1 && Listed(e, items, drafts)
    ensures f == FundAll(e, items, drafts, bs)
  {
    hide Speculate, Missing, Fundable;
    f := Funding(e, [], 0);
    for k := 0 to |items|
      invariant |f.e.seqs| == |e.seqs| && f == FundAll(e, items[..k], drafts[..k], bs)
    {
      assert items[..k + 1][..k] == items[..k] && drafts[..k + 1][..k] == drafts[..k];
      var i := items[k];
      var kept, reserved := Fund(f.e.seqs[i], drafts[k], Allocatable(f.e.pool), f.reserved, bs);
      if kept == [] {
        f := f.(kept := f.kept + [kept]);
      } else {
        var extended := Replace(f.e, i, Some(Speculate(f.e.pool, f.e.seqs[i], kept, bs))).value;
        f := Funding(extended, f.kept + [kept], reserved);
      }
    }
    assert items[..|items|] == items && drafts[..|items|] == drafts;
  }

  /** Every listed sequence, once, is known to the block manager and has no draft pending. */
  ghost predicate Decoding(e: Engine, items: seq<nat>) {
    && (forall k :: 0 <= k < |items| ==>
          items[k] < |e.seqs| && e.seqs[items[k]].open && e.seqs[items[k]].draft.None?)
    && (forall j, k :: 0 <= j < k < |items| ==> items[j] != items[k])
  }

  /** Over a whole step the reservation is exactly what the drafts have taken from the pool; every
      draft kept fits, and nobody else is touched. */
  lemma {:induction false} ReservedIsTaken(e: Engine, items: seq<nat>, drafts: seq<seq<Token>>, bs: nat)
    requires bs >= 1 && Listed(e, items, drafts) && Sound(e, bs) && Decoding(e, items)
    ensures var f := FundAll(e, items, drafts, bs);
            && Sound(f.e, bs) && Allocatable(f.e.pool) + f.reserved == Allocatable(e.pool)
            && forall i: nat :: i < |e.seqs| && i !in items ==> f.e.seqs[i] == e.seqs[i]
  {
    if items != [] {
      var last := |items| - 1;
      ReservedIsTaken(e, items[..last], drafts[..last], bs);
      var f := FundAll(e, items[..last], drafts[..last], bs);
      var i := items[last];
      assert f.e.seqs[i] == e.seqs[i] by { assert i !in items[..last]; }
      hide Sound, FundNext, Missing, Fundable;
      FundNextKeeps(f, i, drafts[last], bs);
      forall j: nat | j < |e.seqs| && j !in items ensures FundNext(f, i, drafts[last], bs).e.seqs[j] == e.seqs[j] {
        assert j !in items[..last] && j != i;
      }
    }
  }

  lemma {:induction false} FundNextKeeps(f: Funding, i: nat, draft: seq<Token>, bs: nat)
    requires bs >= 1 && Sound(f.e, bs) && i < |f.e.seqs|
    requires f.e.seqs[i].open && f.e.seqs[i].draft.None?
    ensures var g := FundNext(f, i, draft, bs);
            Sound(g.e, bs) && Allocatable(g.e.pool) + g.reserved == Allocatable(f.e.pool) + f.reserved
  {
    var s := f.e.seqs[i];
    var n := Fundable(s, |draft|, Allocatable(f.e.pool) - f.reserved, bs);
    if n > 0 {
      FocusOn(f.e, i, bs);
      hide Sound, Focus, Missing, Speculate, CanAppend;
      FundedDraftFits(f.e.pool, f.e.kv, s, draft[..n], Others(f.e.seqs, i), bs);
      DraftSound(f.e, i, draft[..n], bs);
    }
  }

  lemma {:induction false} KeptAt(e: Engine, items: seq<nat>, drafts: seq<seq<Token>>, k: nat, bs: nat)
    requires bs >= 1 && Listed(e, items, drafts) && k < |items|
    ensures FundAll(e, items, drafts, bs).kept[k]
            == FundNext(FundAll(e, items[..k], drafts[..k], bs), items[k], drafts[k], bs).kept[k]
  {
    hide FundNext, Missing, Fundable;
    var last := |items| - 1;
    if k < last {
      KeptAt(e, items[..last], drafts[..last], k, bs);
      assert items[..last][..k] == items[..k] && drafts[..last][..k] == drafts[..k];
    }
  }

  /** So the blocks of a step's earlier drafts count twice: they are gone from the pool, and are
      subtracted again. Exactly when that costs draft `k` tokens that would fit. */
  lemma {:induction false} EarlierDraftsCountTwice(e: Engine, items: seq<nat>, drafts: seq<seq<Token>>, k: nat, bs: nat)
    requires bs >= 1 && Listed(e, items, drafts) && Sound(e, bs) && Decoding(e, items) && k < |items|
    ensures var before := FundAll(e, items[..k], drafts[..k], bs);
            var taken, s := before.reserved, e.seqs[items[k]];
            var fair := Fundable(s, |drafts[k]|, Allocatable(e.pool) - taken, bs);
            var kept := FundAll(e, items, drafts, bs).kept[k];
            && Allocatable(before.e.pool) == Allocatable(e.pool) - taken && before.e.seqs[items[k]] == s
            && kept == drafts[k][..Fundable(s, |drafts[k]|, Allocatable(e.pool) - 2 * taken, bs)]
            && |kept| <= fair
            && (|kept| < fair <==> fair > 0 && Missing(s, fair, bs) > Allocatable(e.pool) - 2 * taken)
  {
    hide FundAll, FundNext, Sound, Missing, Fundable;
    var before := FundAll(e, items[..k], drafts[..k], bs);
    assert before.e.seqs[items[k]] == e.seqs[items[k]]
           && Allocatable(before.e.pool) + before.reserved == Allocatable(e.pool) by {
      assert items[k] !in items[..k];
      ReservedIsTaken(e, items[..k], drafts[..k], bs);
    }
    KeptAt(e, items, drafts, k, bs);
    CutExactly(e.seqs[items[k]], |drafts[k]|, Allocatable(before.e.pool), before.reserved, bs);
  }

  // ---- a draft cut for nothing --------------------------------------------------------------

  /** In a pool of three blocks of two tokens, one sequence fills a block and another half of one. */
  function OneBlockLeft(): Engine {
    Engine(Pool([1, 1, 0], [2], {}, map[], map[], []), map[],
           [Live(0, [7, 7], [0], 2, 0, 0, true, None), Live(0, [7], [1], 1, 0, 0, true, None)])
  }

  lemma {:induction false} Admitted(p: Pool, s: Live)
    requires p.byHash == map[] && s.table == []
    ensures var t := s.(open := true, computed := 0, written := 0, published := 0, draft := None);
            Admit(p, s, 2) == Some((p, t))
  {
    assert Hits(p.byHash, s, 0, HitCap(s, 2), 2) == 0;
  }

  lemma {:induction false} OneBlockTaken(p: Pool, s: Live)
    requires p.free != [] && p.free[0] < |p.refs| && s.table == [] && s.computed == 0
    ensures forall n: nat :: 1 <= n <= 2 ==>
              Extend(p, s, n, 2) == (p.(free := p.free[1..], refs := p.refs[p.free[0] := 1]),
                                     s.(table := [p.free[0]], computed := n))
  {
    var (b, q) := Take(p).value;
    var t := s.(table := [b]);
    assert s.table + [b] == [b];
    assert Grow(q, t, 1) == (q, t);
    assert Grow(p, s, 1) == (q, t);
    assert Needed(1, 2) == 1 && Needed(2, 2) == 1;
  }

  lemma {:induction false} OneBlockLeftReached()
    ensures Reachable(OneBlockLeft(), 3, Setup(2, true))
  {
    hide Admit, Extend;
    var setup := Setup(2, true);
    var p := Fresh(3);
    assert p == Pool([0, 0, 0], [0, 1, 2], {}, map[], map[], []);
    var a, b := Waiting(0, [7, 7]), Waiting(0, [7]);
    var e := Engine(p, map[], []);
    assert Run(Begin(3), [], setup) == Some(e);
    assert Reachable(Engine(p, map[], [a, b]), 3, setup) by {
      assert [] + [a] == [a] && [a] + [b] == [a, b];
      ReachableStep(e, Queue(0, [7, 7]), 3, setup);
      ReachableStep(e.(seqs := [a]), Queue(0, [7]), 3, setup);
    }
    var a1, b1 := a.(open := true), b.(open := true);
    assert Reachable(Engine(p, map[], [a1, b1]), 3, setup) by {
      Admitted(p, a);
      Admitted(p, b);
      assert [a, b][0 := a1] == [a1, b] && [a1, b][1 := b1] == [a1, b1];
      ReachableStep(Engine(p, map[], [a, b]), Start(0), 3, setup);
      ReachableStep(Engine(p, map[], [a1, b]), Start(1), 3, setup);
    }
    var a2, b2 := a1.(table := [0], computed := 2), b1.(table := [1], computed := 1);
    var q := p.(free := [1, 2], refs := [1, 0, 0]);
    assert Reachable(Engine(q, map[], [a2, b1]), 3, setup) by {
      OneBlockTaken(p, a1);
      ReachableStep(Engine(p, map[], [a1, b1]), Schedule(0, 2), 3, setup);
      assert p.free[1..] == [1, 2] && p.refs[0 := 1] == [1, 0, 0] && [a1, b1][0 := a2] == [a2, b1];
    }
    OneBlockTaken(q, b1);
    ReachableStep(Engine(q, map[], [a2, b1]), Schedule(1, 1), 3, setup);
    assert q.free[1..] == [2] && q.refs[1 := 1] == [1, 1, 0] && [a2, b1][1 := b2] == [a2, b2];
  }

  lemma {:induction false} FirstDraftKept(e: Engine)
    requires e == OneBlockLeft()
    ensures var f := FundNext(Funding(e, [], 0), 0, [8], 2);
            f.kept == [[8]] && f.reserved == 1 && f.e.seqs[1] == e.seqs[1] && Allocatable(f.e.pool) == 0
  {
    hide Speculate, Sound, Reachable;
    var s := e.seqs[0];
    assert [8][..1] == [8];
    assert Missing(s, 1, 2) == 1 by { assert Needed(3, 2) == 2; }
    hide Missing;
    OneBlockLeftReached();
    var h := ReachableSound(e, 3, Setup(2, true));
    FundNextKeeps(Funding(h, [], 0), 0, [8], 2);
  }

  lemma {:induction false} FundTwo(e: Engine, f: Funding, g: Funding)
    requires |e.seqs| == |f.e.seqs| == 2
    requires f == FundNext(Funding(e, [], 0), 0, [8], 2) && g == FundNext(f, 1, [8], 2)
    ensures FundAll(e, [0, 1], [[8], [8]], 2) == g
  {
    hide FundNext;
    assert [0, 1][..1] == [0] && [[8], [8]][..1] == [[8]];
    assert [0][..0] == [] && [[8]][..0] == [];
    assert FundAll(e, [], [], 2) == Funding(e, [], 0);
    assert FundAll(e, [0], [[8]], 2) == f;
  }

  /** The first draft takes the last block. The second would need none, but is cut to nothing. */
  lemma {:induction false} SecondDraftCut()
    ensures var e := OneBlockLeft();
            && Reachable(e, 3, Setup(2, true)) && Decoding(e, [0, 1])
            && Missing(e.seqs[1], 1, 2) == 0 && FundAll(e, [0, 1], [[8], [8]], 2).kept == [[8], []]
  {
    OneBlockLeftReached();
    hide FundAll, FundNext, Fundable, Reachable;
    var e := OneBlockLeft();
    assert Missing(e.seqs[1], 1, 2) == 0 by { assert Needed(2, 2) == 1; }
    var f := FundNext(Funding(e, [], 0), 0, [8], 2);
    FirstDraftKept(e);
    var g := FundNext(f, 1, [8], 2);
    NothingBelowZero(e.seqs[1], 1, 2);
    assert [8][..0] == [];
    FundTwo(e, f, g);
  }

  lemma NothingBelowZero(s: Live, n: nat, bs: nat)
    requires bs >= 1
    ensures Fundable(s, n, -1, bs) == 0
  {}
}
