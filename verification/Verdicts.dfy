/** Verifying the drafts of a speculative step and rolling them back
    (src/turboserve/engine/spec/spec_engine.py:325-592): when that leaves every sequence reading its
    own KV, and a run in which it does not. */
module Verdicts {
  import opened Prelude
  import opened KvBlocks
  import opened KvSharing
  import opened KvEngine
  import opened EngineEffects
  import opened SchedulerState
  import opened Drafting

  // ---- drafts in place ----------------------------------------------------------------------

  /** Every pending draft has the slots of the positions it takes in the text. */
  ghost predicate InPlace(e: Engine) {
    forall i: nat :: i < |e.seqs| && e.seqs[i].draft.Some? ==>
      e.seqs[i].draft.value.base == e.seqs[i].draft.value.length
  }

  /** If this action drafts, the sequence has nothing left to compute. */
  predicate DraftsAtEnd(e: Engine, a: Action) {
    a.Draft? && a.seqIndex < |e.seqs| ==> e.seqs[a.seqIndex].computed == |e.seqs[a.seqIndex].tokens|
  }

  /** Every draft of the run extends a sequence with nothing left to compute. */
  ghost predicate AlwaysDraftsAtEnd(e: Engine, actions: seq<Action>, setup: Setup)
    requires setup.blockSize >= 1
    decreases |actions|
  {
    actions != [] ==>
      && DraftsAtEnd(e, actions[0])
      && (Step(e, actions[0], setup).Some? ==> AlwaysDraftsAtEnd(Step(e, actions[0], setup).value, actions[1..], setup))
  }

  lemma {:induction false} GrowDraft(p: Pool, s: Live, needed: nat)
    ensures Grow(p, s, needed).1 == s.(table := Grow(p, s, needed).1.table)
    decreases needed - |s.table|
  {
    if |s.table| < needed && Take(p).Some? {
      var (b, q) := Take(p).value;
      GrowDraft(q, s.(table := s.table + [b]), needed);
    }
  }

  lemma {:induction false} PublishDraft(p: Pool, s: Live, bs: nat)
    requires bs >= 1 && Publish(p, s, bs).Some?
    ensures Publish(p, s, bs).value.1.draft == s.draft
    decreases |s.table| - s.published
  {
    if s.open && s.published < Full(s.computed, bs) && s.published < |s.table| {
      PublishDraft(Insert(p, s.table[s.published], BlockKey(s, s.published, bs)).value,
                   s.(published := s.published + 1), bs);
    }
  }

  lemma {:induction false} WriteDraft(kv: map<Cell, Key>, s: Live, bs: nat)
    requires bs >= 1
    ensures Write(kv, s, bs).1 == s.(written := Write(kv, s, bs).1.written)
    decreases s.computed - s.written
  {
    hide Fed;
    if !(s.written >= s.computed || Full(s.written, bs) >= |s.table| || s.written >= |Fed(s)|) {
      var cell := Cell(s.table[Full(s.written, bs)], Offset(s.written, bs));
      WriteDraft(kv[cell := KeyAt(s, s.written)], s.(written := s.written + 1), bs);
    }
  }

  lemma {:induction false} StepInPlace(e: Engine, a: Action, setup: Setup)
    requires setup.blockSize >= 1 && InPlace(e) && DraftsAtEnd(e, a)
    ensures Credits(e, a) && (Step(e, a, setup).Some? ==> InPlace(Step(e, a, setup).value))
  {
    var bs := setup.blockSize;
    hide Write, Publish, Grow, Adopt, DropAll, CreditsText, CanAppend, Hits;
    if a.Queue? {
    } else if a.seqIndex < |e.seqs| {
      var s := e.seqs[a.seqIndex];
      match a
      case Start(_) =>
        if s.table == [] && Admit(e.pool, s, bs).Some? { AdmitClears(e.pool, s, bs); }
      case Schedule(_, n) => GrowDraft(e.pool, s, Needed(s.computed + n, bs));
      case Forward(_) => WriteDraft(e.kv, s, bs);
      case Offer(_) => if Publish(e.pool, s, bs).Some? { PublishDraft(e.pool, s, bs); }
      case Draft(_, drafts) => GrowDraft(e.pool, Drafted(s, drafts), Needed(s.computed + |drafts|, bs));
      case Verdict(_, accepted, fed, credited, bonus) =>
        if Resolvable(s, accepted, fed, credited) { InPlaceCredits(s, accepted, fed, credited, bonus); }
      case _ =>
    }
  }

  lemma {:induction false} AdmitClears(p: Pool, s: Live, bs: nat)
    requires bs >= 1 && Admit(p, s, bs).Some?
    ensures Admit(p, s, bs).value.1.draft.None?
  {
    var u := s.(open := true, computed := 0, written := 0, published := 0, draft := None);
    AdoptSameSequence(p, u, Hits(p.byHash, s, 0, HitCap(s, bs), bs), bs);
  }

  /** If every draft of a run extends a sequence with nothing left to compute, attention always reads
      KV of the sequence's own prefix. */
  lemma {:induction false} DraftsAtEndReadOwn(blocks: nat, actions: seq<Action>, setup: Setup)
    requires setup.blockSize >= 1 && AlwaysDraftsAtEnd(Begin(blocks), actions, setup)
    ensures AlwaysReadsOwn(Begin(blocks), actions, setup)
  {
    AtEndCredits(Begin(blocks), actions, setup);
    BeginSound(blocks, setup.blockSize);
    ReadsAreOwn(Begin(blocks), actions, setup);
  }

  lemma {:induction false} AtEndCredits(e: Engine, actions: seq<Action>, setup: Setup)
    requires setup.blockSize >= 1 && InPlace(e) && AlwaysDraftsAtEnd(e, actions, setup)
    ensures AlwaysCredits(e, actions, setup)
    decreases |actions|
  {
    hide Step, Credits, InPlace, DraftsAtEnd;
    if actions != [] {
      StepInPlace(e, actions[0], setup);
      if Step(e, actions[0], setup).Some? { AtEndCredits(Step(e, actions[0], setup).value, actions[1..], setup); }
    }
  }

  // ---- one speculative step -----------------------------------------------------------------

  /** What the verifier makes of one draft, and how much of that is fed back before a stop. */
  datatype Outcome = Outcome(accepted: nat, fed: nat, credited: nat, bonus: Token)

  /** The verifier takes one row of logits for each draft token and one more; an item has one for each
      token of its chunk and of its draft. */
  predicate RowsFit(x: Item, kept: seq<Token>) { x.count + |kept| == |kept| + 1 }

  /** The outcome is fed back; a sequence without a draft samples a token as ever. */
  function Judge(e: Engine, i: nat, o: Outcome, setup: Setup): (f: Engine)
    requires setup.blockSize >= 1 && i < |e.seqs|
    ensures |f.seqs| == |e.seqs|
  {
    if e.seqs[i].draft.Some? then Step(e, Verdict(i, o.accepted, o.fed, o.credited, o.bonus), setup).value
    else if o.fed >= 1 then Step(e, Sample(i, o.bonus), setup).value
    else e
  }

  /** A decoding sequence without a draft gets the token sampled for it, unless nothing is fed back; nobody
      else's text changes. */
  lemma JudgedText(e: Engine, i: nat, o: Outcome, setup: Setup)
    requires setup.blockSize >= 1 && i < |e.seqs|
    ensures var f := Judge(e, i, o, setup);
            && (forall j: nat :: j < |e.seqs| && j != i ==> f.seqs[j] == e.seqs[j]) && f.pool == e.pool
            && (e.seqs[i].draft.None? ==>
                  f.seqs[i] == e.seqs[i].(tokens := e.seqs[i].tokens + if o.fed == 0 then [] else [o.bonus]))
  {
    assert e.seqs[i].tokens + [] == e.seqs[i].tokens;
  }

  ghost predicate Known(e: Engine, items: seq<Item>) {
    forall k :: 0 <= k < |items| ==> items[k].seqIndex < |e.seqs|
  }

  /** Verification of all decoding sequences; `None` is the exception of a block of the wrong shape. */
  function VerifyAll(e: Engine, items: seq<Item>, kept: seq<seq<Token>>, outcomes: seq<Outcome>, setup: Setup):
      (r: Option<Engine>)
    requires setup.blockSize >= 1 && Known(e, items) && |items| == |kept| == |outcomes|
    ensures r.Some? ==> |r.value.seqs| == |e.seqs|
    decreases |items|
  {
    if items == [] then Some(e)
    else if !RowsFit(items[0], kept[0]) then None
    else VerifyAll(Judge(e, items[0].seqIndex, outcomes[0], setup), items[1..], kept[1..], outcomes[1..], setup)
  }

  /** The loop over the decoding sequences; on an exception those not reached keep their drafts. */
  method VerifyDecodes(e: Engine, items: seq<Item>, kept: seq<seq<Token>>, outcomes: seq<Outcome>, setup: Setup)
    returns (f: Engine, ok: bool)
    requires setup.blockSize >= 1 && Known(e, items) && |items| == |kept| == |outcomes|
    ensures VerifyAll(e, items, kept, outcomes, setup) == if ok then Some(f) else None
  {
    hide Judge;
    f := e;
    for k := 0 to |items|
      invariant |f.seqs| == |e.seqs|
      invariant VerifyAll(f, items[k..], kept[k..], outcomes[k..], setup) == VerifyAll(e, items, kept, outcomes, setup)
    {
      assert items[k..][1..] == items[k + 1..] && kept[k..][1..] == kept[k + 1..];
      assert outcomes[k..][1..] == outcomes[k + 1..];
      if !RowsFit(items[k], kept[k]) { return f, false; }
      f := Judge(f, items[k].seqIndex, outcomes[k], setup);
    }
    ok := true;
  }

  /** Verification raises exactly if some decoding sequence has a chunk of more than one token, or of
      none. */
  lemma {:induction false} VerificationRaises(e: Engine, items: seq<Item>, kept: seq<seq<Token>>,
                                              outcomes: seq<Outcome>, setup: Setup)
    requires setup.blockSize >= 1 && Known(e, items) && |items| == |kept| == |outcomes|
    ensures VerifyAll(e, items, kept, outcomes, setup).None? <==> exists x :: x in items && x.count != 1
    decreases |items|
  {
    hide Judge;
    if items != [] {
      assert items == [items[0]] + items[1..];
      if RowsFit(items[0], kept[0]) {
        VerificationRaises(Judge(e, items[0].seqIndex, outcomes[0], setup), items[1..], kept[1..], outcomes[1..],
                           setup);
      }
    }
  }

  function ForwardAll(e: Engine, items: seq<Item>, setup: Setup): (f: Engine)
    requires setup.blockSize >= 1
    ensures |f.seqs| == |e.seqs|
    decreases |items|
  {
    if items == [] then e
    else ForwardAll(Step(e, Forward(items[0].seqIndex), setup).value, items[1..], setup)
  }

  function Indices(items: seq<Item>): seq<nat> { seq(|items|, k requires 0 <= k < |items| => items[k].seqIndex) }

  /** The decoding half of a speculative step: drafts are funded and appended, the forward pass runs, the
      outcomes are fed back. */
  function SpeculativeStep(e: Engine, items: seq<Item>, drafts: seq<seq<Token>>, outcomes: seq<Outcome>,
                           setup: Setup): Option<Engine>
    requires setup.blockSize >= 1 && Known(e, items) && |items| == |drafts| == |outcomes|
  {
    var f := FundAll(e, Indices(items), drafts, setup.blockSize);
    VerifyAll(ForwardAll(f.e, items, setup), items, f.kept, outcomes, setup)
  }

  /** Before this chunk was scheduled the sequence had exactly one token uncomputed. */
  predicate OneWasUncomputed(s: Live, count: nat) {
    1 <= count <= s.computed && |s.tokens| - (s.computed - count) == 1
  }

  /** If every decoding sequence had exactly one uncomputed token when the step was scheduled, the step
      raises nothing and leaves everybody reading KV of their own prefix. */
  lemma {:induction false} OneEachReadsOwn(e: Engine, items: seq<Item>, drafts: seq<seq<Token>>,
                                           outcomes: seq<Outcome>, setup: Setup)
    requires setup.blockSize >= 1 && Known(e, items) && |items| == |drafts| == |outcomes|
    requires Sound(e, setup.blockSize) && InPlace(e) && Decoding(e, Indices(items))
    requires forall x :: x in items ==> OneWasUncomputed(e.seqs[x.seqIndex], x.count)
    ensures SpeculativeStep(e, items, drafts, outcomes, setup).Some?
    ensures var f := SpeculativeStep(e, items, drafts, outcomes, setup).value;
            Sound(f, setup.blockSize) && AllReadOwn(f, setup.blockSize)
  {
    var bs := setup.blockSize;
    hide Sound, FundAll, ForwardAll, VerifyAll, InPlace, OneWasUncomputed, AllReadOwn;
    forall x | x in items ensures e.seqs[x.seqIndex].computed == |e.seqs[x.seqIndex].tokens| && x.count == 1 {
      OneEach(e, x.seqIndex, x.count, bs);
    }
    forall k | 0 <= k < |items| ensures e.seqs[Indices(items)[k]].computed == |e.seqs[Indices(items)[k]].tokens| {
      assert items[k] in items;
    }
    ReservedIsTaken(e, Indices(items), drafts, bs);
    FundedInPlace(e, Indices(items), drafts, setup);
    var f := FundAll(e, Indices(items), drafts, bs);
    ForwardedInPlace(f.e, items, setup);
    var g := ForwardAll(f.e, items, setup);
    VerificationRaises(g, items, f.kept, outcomes, setup);
    VerifiedInPlace(g, items, f.kept, outcomes, setup);
    SoundReadsOwn(VerifyAll(g, items, f.kept, outcomes, setup).value, bs);
  }

  lemma {:induction false} OneEach(e: Engine, i: nat, count: nat, bs: nat)
    requires bs >= 1 && Sound(e, bs) && i < |e.seqs| && OneWasUncomputed(e.seqs[i], count)
    ensures e.seqs[i].computed == |e.seqs[i].tokens| && count == 1
  {
    assert SeqOk(e.pool.byBlock, e.kv, e.seqs[i], bs);
  }

  lemma {:induction false} FundedInPlace(e: Engine, items: seq<nat>, drafts: seq<seq<Token>>, setup: Setup)
    requires setup.blockSize >= 1 && Drafting.Listed(e, items, drafts) && Decoding(e, items)
    requires Sound(e, setup.blockSize) && InPlace(e)
    requires forall k :: 0 <= k < |items| ==> e.seqs[items[k]].computed == |e.seqs[items[k]].tokens|
    ensures InPlace(FundAll(e, items, drafts, setup.blockSize).e)
  {
    var bs := setup.blockSize;
    if items != [] {
      var last := |items| - 1;
      FundedInPlace(e, items[..last], drafts[..last], setup);
      ReservedIsTaken(e, items[..last], drafts[..last], bs);
      var f := FundAll(e, items[..last], drafts[..last], bs);
      var i := items[last];
      assert f.e.seqs[i] == e.seqs[i] by { assert i !in items[..last]; }
      hide Sound, FundNext, InPlace;
      FundNextInPlace(f, i, drafts[last], setup);
    }
  }

  lemma {:induction false} FundNextInPlace(f: Funding, i: nat, draft: seq<Token>, setup: Setup)
    requires setup.blockSize >= 1 && Sound(f.e, setup.blockSize) && i < |f.e.seqs| && InPlace(f.e)
    requires f.e.seqs[i].open && f.e.seqs[i].draft.None? && f.e.seqs[i].computed == |f.e.seqs[i].tokens|
    ensures InPlace(FundNext(f, i, draft, setup.blockSize).e)
  {
    var bs := setup.blockSize;
    var s := f.e.seqs[i];
    var n := Fundable(s, |draft|, Allocatable(f.e.pool) - f.reserved, bs);
    if n > 0 {
      FocusOn(f.e, i, bs);
      hide Sound, Focus, Missing, Speculate, CanAppend, InPlace;
      FundedDraftFits(f.e.pool, f.e.kv, s, draft[..n], Others(f.e.seqs, i), bs);
      StepInPlace(f.e, Draft(i, draft[..n]), setup);
    }
  }

  lemma {:induction false} ForwardedInPlace(e: Engine, items: seq<Item>, setup: Setup)
    requires setup.blockSize >= 1 && Sound(e, setup.blockSize) && InPlace(e)
    ensures Sound(ForwardAll(e, items, setup), setup.blockSize) && InPlace(ForwardAll(e, items, setup))
    decreases |items|
  {
    hide Sound, InPlace, Step;
    if items != [] {
      var a := Forward(items[0].seqIndex);
      StepInPlace(e, a, setup);
      StepSound(e, a, setup);
      ForwardedInPlace(Step(e, a, setup).value, items[1..], setup);
    }
  }

  lemma {:induction false} VerifiedInPlace(e: Engine, items: seq<Item>, kept: seq<seq<Token>>,
                                           outcomes: seq<Outcome>, setup: Setup)
    requires setup.blockSize >= 1 && Known(e, items) && |items| == |kept| == |outcomes|
    requires Sound(e, setup.blockSize) && InPlace(e)
    ensures var r := VerifyAll(e, items, kept, outcomes, setup); r.Some? ==> Sound(r.value, setup.blockSize)
    decreases |items|
  {
    hide Sound, InPlace, Step;
    if items != [] && RowsFit(items[0], kept[0]) {
      var i, o := items[0].seqIndex, outcomes[0];
      var a := if e.seqs[i].draft.Some? then Verdict(i, o.accepted, o.fed, o.credited, o.bonus) else Sample(i, o.bonus);
      StepInPlace(e, a, setup);
      StepSound(e, a, setup);
      VerifiedInPlace(Judge(e, i, o, setup), items[1..], kept[1..], outcomes[1..], setup);
    }
  }

  // ---- a draft in the way of uncomputed tokens ----------------------------------------------

  /** Two blocks of three tokens, with a prefix cache. */
  const THREE := Setup(3, true)

  /** One sequence and whatever KV memory there is. */
  function Alone(p: Pool, kv: map<Cell, Key>, s: Live): Engine { Engine(p, kv, [s]) }

  /** Reachable, and so far everybody reads KV of their own prefix. */
  ghost predicate SoundSoFar(e: Engine) { Reachable(e, 2, THREE) && Sound(e, 3) }

  lemma {:induction false} Onward(e: Engine, a: Action)
    requires SoundSoFar(e) && !a.Verdict?
    ensures Step(e, a, THREE).Some? && SoundSoFar(Step(e, a, THREE).value)
  {
    hide Step, Sound, Reachable;
    StepSound(e, a, THREE);
    ReachableStep(e, a, 2, THREE);
  }

  lemma {:induction false} Started(p: Pool, kv: map<Cell, Key>, s: Live)
    requires SoundSoFar(Alone(p, kv, s)) && NoIndex(p) && s.table == []
    ensures SoundSoFar(Alone(p, kv, s.(open := true, computed := 0, written := 0, published := 0, draft := None)))
  {
    Onward(Alone(p, kv, s), Start(0));
    assert Hits(p.byHash, s, 0, HitCap(s, 3), 3) == 0;
    hide SoundSoFar;
    var t := s.(open := true, computed := 0, written := 0, published := 0, draft := None);
    assert Admit(p, s, 3) == Some((p, t));
    assert [s][0 := t] == [t];
  }

  lemma {:induction false} Forwarded(p: Pool, kv: map<Cell, Key>, s: Live)
    requires SoundSoFar(Alone(p, kv, s))
    ensures Write(kv, s, 3).1 == s.(written := s.computed)
  {
    hide Focus, Sound, Reachable, Write;
    FocusOn(Alone(p, kv, s), 0, 3);
    WriteKeeps(p, kv, s, Others([s], 0), 3);
  }

  lemma {:induction false} ForwardedAll(p: Pool, kv: map<Cell, Key>, u: Live, v: Live)
    requires SoundSoFar(Alone(p, kv, u)) && v == u.(written := u.computed)
    ensures Step(Alone(p, kv, u), Forward(0), THREE) == Some(Alone(p, Write(kv, u, 3).0, v))
  {
    Forwarded(p, kv, u);
    hide SoundSoFar, Write;
    assert [u][0 := v] == [v];
  }

  /** One token scheduled, computed and followed by a sampled one. */
  lemma {:induction false} Decoded(p: Pool, kv: map<Cell, Key>, s: Live, q: Pool, b: nat, x: Token)
    returns (kv': map<Cell, Key>)
    requires SoundSoFar(Alone(p, kv, s)) && s.open && Settled(s) && s.computed < |s.tokens| && s.computed < 2
    requires if s.table == [] then p.free != [] && b == p.free[0] < |p.refs| && s.computed == 0
                                   && q == p.(free := p.free[1..], refs := p.refs[b := 1])
             else s.table == [b] && q == p
    ensures var t := s.(table := [b], computed := s.computed + 1, written := s.computed + 1);
            && SoundSoFar(Alone(q, kv', t))
            && SoundSoFar(Alone(q, kv', t.(tokens := t.tokens + [x])))
  {
    var n := s.computed;
    var t := s.(table := [b], computed := n + 1);
    var u := t.(written := n + 1);
    hide SoundSoFar, Extend, Fed, Write;
    assert Step(Alone(p, kv, s), Schedule(0, 1), THREE) == Some(Alone(q, kv, t)) by {
      Grown(p, s, q, b);
      assert [s][0 := t] == [t];
    }
    assert Step(Alone(q, Write(kv, t, 3).0, u), Sample(0, x), THREE)
           == Some(Alone(q, Write(kv, t, 3).0, u.(tokens := u.tokens + [x]))) by {
      assert [u][0 := u.(tokens := u.tokens + [x])] == [u.(tokens := u.tokens + [x])];
    }
    hide Step, Alone;
    Onward(Alone(p, kv, s), Schedule(0, 1));
    ForwardedAll(q, kv, t, u);
    Onward(Alone(q, kv, t), Forward(0));
    kv' := Write(kv, t, 3).0;
    Onward(Alone(q, kv', u), Sample(0, x));
  }

  lemma {:induction false} Grown(p: Pool, s: Live, q: Pool, b: nat)
    requires s.computed < 2
    requires if s.table == [] then p.free != [] && b == p.free[0] < |p.refs| && s.computed == 0
                                   && q == p.(free := p.free[1..], refs := p.refs[b := 1])
             else s.table == [b] && q == p
    ensures Extend(p, s, 1, 3) == (q, s.(table := [b], computed := s.computed + 1))
  {
    assert Needed(1, 3) == 1 && Needed(2, 3) == 1;
    var t := s.(table := [b]);
    assert Grow(q, t, 1) == (q, t);
    if s.table == [] {
      assert Take(p) == Some((b, q));
      assert s.table + [b] == [b];
      assert Grow(p, s, 1) == (q, t);
    }
  }

  lemma {:induction false} SampledOne() returns (kv: map<Cell, Key>)
    ensures SoundSoFar(Alone(Pool([1, 0], [1], {}, map[], map[], []), kv, Live(0, [1, 2], [0], 1, 1, 0, true, None)))
  {
    var p, s := Pool([0, 0], [0, 1], {}, map[], map[], []), Waiting(0, [1]);
    FirstQueued(p, s);
    hide SoundSoFar, Alone, Fed;
    Started(p, map[], s);
    var q := Pool([1, 0], [1], {}, map[], map[], []);
    assert p.free[1..] == q.free && p.refs[0 := 1] == q.refs;
    kv := Decoded(p, map[], Live(0, [1], [], 0, 0, 0, true, None), q, 0, 2);
    assert [1] + [2] == [1, 2];
  }

  lemma {:induction false} SampledTwo() returns (kv: map<Cell, Key>)
    ensures SoundSoFar(Alone(Pool([1, 0], [1], {}, map[], map[], []), kv, Live(0, [1, 2, 3], [0], 2, 2, 0, true, None)))
  {
    hide SoundSoFar, Alone, Fed;
    kv := SampledOne();
    var p := Pool([1, 0], [1], {}, map[], map[], []);
    kv := Decoded(p, kv, Live(0, [1, 2], [0], 1, 1, 0, true, None), p, 0, 3);
    assert [1, 2] + [3] == [1, 2, 3];
  }

  lemma {:induction false} FirstQueued(p: Pool, s: Live)
    requires p == Pool([0, 0], [0, 1], {}, map[], map[], []) && s == Waiting(0, [1])
    ensures SoundSoFar(Alone(p, map[], s))
  {
    assert p == Fresh(2);
    BeginSound(2, 3);
    assert Run(Begin(2), [], THREE) == Some(Begin(2));
    Onward(Begin(2), Queue(0, [1]));
    assert [] + [s] == [s];
  }

  /** A request of one token samples two more, is preempted before the last is computed, resumes, and
      has computed its prompt again. */
  lemma {:induction false} Resumed() returns (kv: map<Cell, Key>)
    ensures SoundSoFar(Alone(Pool([0, 1], [0], {}, map[], map[], []), kv, Live(0, [1, 2, 3], [1], 1, 1, 0, true, None)))
  {
    hide SoundSoFar, Alone;
    kv := SampledTwo();
    Preempted(kv);
    var p := Pool([0, 0], [1, 0], {}, map[], map[], []);
    Started(p, kv, Waiting(0, [1, 2, 3]));
    var s := Live(0, [1, 2, 3], [], 0, 0, 0, true, None);
    var q := Pool([0, 1], [0], {}, map[], map[], []);
    assert p.free[1..] == q.free && p.refs[1 := 1] == q.refs;
    kv := Decoded(p, kv, s, q, 1, 0);
  }

  lemma {:induction false} Preempted(kv: map<Cell, Key>)
    requires SoundSoFar(Alone(Pool([1, 0], [1], {}, map[], map[], []), kv,
                              Live(0, [1, 2, 3], [0], 2, 2, 0, true, None)))
    ensures SoundSoFar(Alone(Pool([0, 0], [1, 0], {}, map[], map[], []), kv, Waiting(0, [1, 2, 3])))
  {
    var p, s := Pool([1, 0], [1], {}, map[], map[], []), Live(0, [1, 2, 3], [0], 2, 2, 0, true, None);
    var q := Pool([0, 0], [1, 0], {}, map[], map[], []);
    Onward(Alone(p, kv, s), Retire(0));
    assert Release(p, s, 3, true) == Some((q, Waiting(0, [1, 2, 3]))) by {
      assert Full(2, 3) == 0;
      assert Publish(p, s, 3) == Some((p, s));
      assert p.refs[0 := 0] == q.refs && p.free + [0] == q.free;
      assert Drop(p, 0) == Some(q);
      assert [0][1..] == [] && DropAll(q, []) == Some(q);
    }
    hide SoundSoFar, Release;
    assert [s][0 := Waiting(0, [1, 2, 3])] == [Waiting(0, [1, 2, 3])];
  }

  /** Its next token is scheduled alone, and a draft is verified behind it: the drafted token goes to
      the end of the text, its KV to the position of the token not computed yet. */
  lemma {:induction false} DraftedInTheWay() returns (kv: map<Cell, Key>)
    ensures SoundSoFar(Alone(Pool([0, 1], [0], {}, map[], map[], []), kv,
                            Live(0, [1, 2, 3, 9], [1], 3, 3, 0, true, Some(Placement(2, 3)))))
  {
    var p := Pool([0, 1], [0], {}, map[], map[], []);
    kv := Resumed();
    var s := Live(0, [1, 2, 3], [1], 1, 1, 0, true, None);
    var t := s.(computed := 2);
    var u := Live(0, [1, 2, 3, 9], [1], 3, 1, 0, true, Some(Placement(2, 3)));
    var v := u.(written := 3);
    hide SoundSoFar, Step, Alone, Fed;
    ScheduledAlone(p, kv, s, t);
    Onward(Alone(p, kv, s), Schedule(0, 1));
    DraftedBehind(p, kv, t, u);
    Onward(Alone(p, kv, t), Draft(0, [9]));
    ForwardedAll(p, kv, u, v);
    Onward(Alone(p, kv, u), Forward(0));
    kv := Write(kv, u, 3).0;
  }

  lemma {:induction false} ScheduledAlone(p: Pool, kv: map<Cell, Key>, s: Live, t: Live)
    requires s == Live(0, [1, 2, 3], [1], 1, 1, 0, true, None) && t == s.(computed := 2)
    ensures Step(Alone(p, kv, s), Schedule(0, 1), THREE) == Some(Alone(p, kv, t))
  {
    assert Needed(2, 3) == 1;
    assert Grow(p, s, 1) == (p, s);
    assert Extend(p, s, 1, 3) == (p, t);
    assert [s][0 := t] == [t];
  }

  lemma {:induction false} DraftedBehind(p: Pool, kv: map<Cell, Key>, t: Live, u: Live)
    requires t == Live(0, [1, 2, 3], [1], 2, 1, 0, true, None)
    requires u == Live(0, [1, 2, 3, 9], [1], 3, 1, 0, true, Some(Placement(2, 3)))
    ensures Step(Alone(p, kv, t), Draft(0, [9]), THREE) == Some(Alone(p, kv, u))
  {
    assert Needed(3, 3) == 1;
    assert [1, 2, 3] + [9] == [1, 2, 3, 9];
    var d := Drafted(t, [9]);
    assert d == u.(computed := 2);
    assert Grow(p, d, 1) == (p, d);
    assert Speculate(p, t, [9], 3) == (p, u);
    assert [t][0 := u] == [u];
  }

  lemma {:induction false} WrongVerdict(p: Pool, kv: map<Cell, Key>, s: Live, v: Live)
    requires s == Live(0, [1, 2, 3, 9], [1], 3, 3, 0, true, Some(Placement(2, 3)))
    requires v == Live(0, [1, 2, 3, 9, 5], [1], 3, 3, 0, true, None) && SoundSoFar(Alone(p, kv, s))
    ensures Reachable(Alone(p, kv, v), 2, THREE) && !ReadsOwn(kv, v, 2, 3)
  {
    assert s.tokens[..3] + ([9] + [5]) == v.tokens && s.tokens[3..4] == [9] && ([9] + [5])[..2] == [9] + [5];
    assert Resolve(s, 1, 2, 1, 5) == v;
    assert v.tokens[2..3] == [3];
    assert !CreditsText(s, 1, 2, 1, 5);
    ReachableStep(Alone(p, kv, s), Verdict(0, 1, 2, 1, 5), 2, THREE);
    assert [s][0 := v] == [v];
    FocusOn(Alone(p, kv, s), 0, 3);
    hide SoundSoFar, Focus, ReadsOwn, CreditsText, Resolve;
    CreditedElsewhere(p, kv, s, 1, 2, 1, 5, Others([s], 0), 3);
  }

  lemma {:induction false} CachedThen(p: Pool, kv: map<Cell, Key>, v: Live, q: Pool, key: Key)
    requires p == Pool([0, 1], [0], {}, map[], map[], []) && key == Key(0, [1, 2, 3])
    requires v == Live(0, [1, 2, 3, 9, 5], [1], 3, 3, 0, true, None) && Reachable(Alone(p, kv, v), 2, THREE)
    requires q == p.(byHash := map[key := 1], byBlock := map[1 := key])
    ensures Reachable(Alone(q, kv, v.(published := 1)), 2, THREE)
  {
    hide Reachable;
    ReachableStep(Alone(p, kv, v), Offer(0), 2, THREE);
    var t := v.(published := 1);
    assert Full(3, 3) == 1 && Size(1, 3) == 3 && v.tokens[..3] == [1, 2, 3];
    assert BlockKey(v, 0, 3) == key;
    assert Insert(p, 1, key) == Some(q);
    assert Publish(q, t, 3) == Some((q, t));
    assert Publish(p, v, 3) == Some((q, t));
    assert [v][0 := t] == [t];
  }

  lemma {:induction false} AdoptedThen(q: Pool, kv: map<Cell, Key>, v: Live, key: Key) returns (f: Engine)
    requires key == Key(0, [1, 2, 3]) && q == Pool([0, 1], [0], {}, map[key := 1], map[1 := key], [])
    requires v == Live(0, [1, 2, 3, 9, 5], [1], 3, 3, 1, true, None)
    requires Reachable(Alone(q, kv, v), 2, THREE) && !ReadsOwn(kv, v, 2, 3)
    ensures Reachable(f, 2, THREE) && |f.seqs| == 2 && f.seqs[1].tokens == Fed(f.seqs[1]) == [1, 2, 3, 4]
    ensures f.seqs[1].written == 3 && !ReadsOwn(f.kv, f.seqs[1], 2, 3)
  {
    hide Reachable;
    var w := Waiting(0, [1, 2, 3, 4]);
    var t := Live(0, [1, 2, 3, 4], [1], 3, 3, 1, true, None);
    var r := q.(refs := [0, 2]);
    Adopted(q, w, t, r, key);
    hide Admit;
    ReachableStep(Alone(q, kv, v), Queue(0, [1, 2, 3, 4]), 2, THREE);
    assert [v] + [w] == [v, w];
    ReachableStep(Engine(q, kv, [v, w]), Start(1), 2, THREE);
    f := Engine(r, kv, [v, t]);
    assert [v, w][1 := t] == [v, t];
    assert KeyAt(v, 2) == KeyAt(t, 2) by { assert v.tokens[..3] == t.tokens[..3]; }
  }

  lemma {:induction false} Adopted(q: Pool, w: Live, t: Live, r: Pool, key: Key)
    requires key == Key(0, [1, 2, 3]) && q == Pool([0, 1], [0], {}, map[key := 1], map[1 := key], [])
    requires w == Waiting(0, [1, 2, 3, 4]) && t == Live(0, [1, 2, 3, 4], [1], 3, 3, 1, true, None)
    requires r == q.(refs := [0, 2])
    ensures Admit(q, w, 3) == Some((r, t))
  {
    var u := w.(open := true);
    assert Size(1, 3) == 3 && w.tokens[..3] == [1, 2, 3];
    assert BlockKey(w, 0, 3) == key && BlockKey(u, 0, 3) == key;
    assert Full(3, 3) == 1 && HitCap(w, 3) == 1;
    assert Cached(q.byHash, w, 0, 3) && Cached(q.byHash, u, 0, 3);
    assert Hits(q.byHash, w, 1, 1, 3) == 1;
    assert Hits(q.byHash, w, 0, 1, 3) == 1;
    assert q.refs[1 := 2] == r.refs && Without([], 1) == [];
    assert Share(q, 1) == Some(r);
    assert Adopt(r, t, 1, 3) == Some((r, t));
    assert u.(table := u.table + [1], published := 1, computed := 3, written := 3) == t;
    assert Adopt(q, u, 1, 3) == Some((r, t));
  }

  /** The draft is accepted: position 2 counts as computed, but holds KV of the drafted token in place
      of the text's own. The next step caches the block under the text, and a newcomer adopts it. */
  lemma {:induction false} AcceptedInTheWay() returns (e: Engine, f: Engine)
    ensures Reachable(e, 2, THREE) && |e.seqs| == 1 && e.seqs[0].tokens == Fed(e.seqs[0]) == [1, 2, 3, 9, 5]
    ensures e.seqs[0].written == 3 && !ReadsOwn(e.kv, e.seqs[0], 2, 3)
    ensures Reachable(f, 2, THREE) && |f.seqs| == 2 && f.seqs[1].tokens == Fed(f.seqs[1]) == [1, 2, 3, 4]
    ensures f.seqs[1].written == 3 && !ReadsOwn(f.kv, f.seqs[1], 2, 3)
  {
    var p := Pool([0, 1], [0], {}, map[], map[], []);
    var kv := DraftedInTheWay();
    var s := Live(0, [1, 2, 3, 9], [1], 3, 3, 0, true, Some(Placement(2, 3)));
    var v := Live(0, [1, 2, 3, 9, 5], [1], 3, 3, 0, true, None);
    WrongVerdict(p, kv, s, v);
    hide Reachable;
    e := Alone(p, kv, v);
    var key := Key(0, [1, 2, 3]);
    var q := Pool([0, 1], [0], {}, map[key := 1], map[1 := key], []);
    CachedThen(p, kv, v, q, key);
    f := AdoptedThen(q, kv, v.(published := 1), key);
  }
}
