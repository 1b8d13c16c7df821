/** Paged KV memory, whole runs: any interleaving of admissions, scheduled chunks, forward passes,
    sampled tokens, publications and releases over any number of sequences
    (src/turboserve/engine/core/block_manager.py under the order kept by scheduler.py). */
module KvEngine {
  import opened Prelude
  import opened KvBlocks
  import opened KvSharing

  datatype Action =
    | Queue(lora: int, tokens: seq<Token>)
    | Start(seqIndex: nat)
    | Schedule(seqIndex: nat, count: nat)
    | Forward(seqIndex: nat)
    | Sample(seqIndex: nat, token: Token)
    | Offer(seqIndex: nat)
    | Retire(seqIndex: nat)
    | Draft(seqIndex: nat, drafts: seq<Token>)
    | Verdict(seqIndex: nat, accepted: nat, fed: nat, credited: nat, bonus: Token)

  /** Not part of the batch being built: whatever is counted as computed has been written, and no
      draft is pending. */
  predicate Settled(s: Live) { s.written == s.computed && s.draft.None? }

  function Begin(blocks: nat): Engine { Engine(Fresh(blocks), map[], []) }

  function Replace(e: Engine, i: nat, r: Option<(Pool, Live)>): Option<Engine>
    requires i < |e.seqs|
  {
    if r.None? then None else Some(e.(pool := r.value.0, seqs := e.seqs[i := r.value.1]))
  }

  /** A draft extends a sequence within the room there is. How far the sequence has been computed
      is not asked. */
  predicate Draftable(p: Pool, s: Live, drafts: seq<Token>, bs: nat)
    requires bs >= 1
  {
    s.open && s.draft.None? && CanAppend(p, s.(tokens := s.tokens + drafts), |drafts|, bs)
  }

  /** One action; `None` is an exception raised by the allocator or the cache. A call the block
      manager refuses up front, or that the scheduler does not make because the sequence is in the
      batch being built, changes nothing. */
  function Step(e: Engine, a: Action, setup: Setup): Option<Engine>
    requires setup.blockSize >= 1
  {
    var bs := setup.blockSize;
    if a.Queue? then Some(e.(seqs := e.seqs + [Waiting(a.lora, a.tokens)]))
    else if a.seqIndex >= |e.seqs| then Some(e)
    else
      var i := a.seqIndex;
      var s := e.seqs[i];
      match a
      case Start(_) => if s.table != [] then Some(e) else Replace(e, i, Admit(e.pool, s, bs))
      case Schedule(_, n) =>
        if s.open && Settled(s) && s.computed + n <= |s.tokens|
        then Replace(e, i, Some(Extend(e.pool, s, n, bs)))
        else Some(e)
      case Forward(_) =>
        var (kv, t) := Write(e.kv, s, bs);
        Some(e.(kv := kv, seqs := e.seqs[i := t]))
      case Sample(_, x) => Some(e.(seqs := e.seqs[i := s.(tokens := s.tokens + [x])]))
      case Offer(_) =>
        if setup.caching && s.open && Settled(s) then Replace(e, i, Publish(e.pool, s, bs)) else Some(e)
      case Retire(_) =>
        if Settled(s) then Replace(e, i, Release(e.pool, s, bs, setup.caching)) else Some(e)
      case Draft(_, drafts) =>
        if Draftable(e.pool, s, drafts, bs) then Replace(e, i, Some(Speculate(e.pool, s, drafts, bs))) else Some(e)
      case Verdict(_, accepted, fed, credited, bonus) =>
        if Resolvable(s, accepted, fed, credited)
        then Some(e.(seqs := e.seqs[i := Resolve(s, accepted, fed, credited, bonus)]))
        else Some(e)
  }

  // ---- every step keeps the invariant -------------------------------------------------------

  lemma {:induction false} FocusOn(e: Engine, i: nat, bs: nat)
    requires bs >= 1 && Sound(e, bs) && i < |e.seqs|
    ensures Focus(e.pool, e.kv, e.seqs[i], Others(e.seqs, i), bs)
  {
    hide Valid, SeqOk, CacheHolds;
    OwnedSplit(e.seqs, i);
  }

  lemma {:induction false} Refocus(e: Engine, i: nat, q: Pool, kv: map<Cell, Key>, t: Live, bs: nat)
    requires bs >= 1 && Sound(e, bs) && i < |e.seqs|
    requires Focus(q, kv, t, Others(e.seqs, i), bs)
    requires Undisturbed(e.pool, e.kv, q, kv, Others(e.seqs, i))
    ensures Sound(Engine(q, kv, e.seqs[i := t]), bs) && |q.refs| == |e.pool.refs|
  {
    hide Valid, SeqOk, CacheHolds, Owned, Others;
    var seqs := e.seqs[i := t];
    var rest := Others(e.seqs, i);
    OwnedUpdate(e.seqs, i, t);
    forall j: nat | j < |seqs| ensures SeqOk(q.byBlock, kv, seqs[j], bs) {
      if j != i {
        forall b | b in e.seqs[j].table ensures b in rest { OthersHas(e.seqs, i, j, b); }
        OtherKept(e.pool, e.kv, q, kv, rest, e.seqs[j], bs);
      }
    }
  }

  lemma {:induction false} BeginSound(blocks: nat, bs: nat)
    requires bs >= 1
    ensures Sound(Begin(blocks), bs)
  {
    FreshValid(blocks);
  }

  lemma {:induction false} OwnedAppend(seqs: seq<Live>, x: Live)
    ensures Owned(seqs + [x]) == Owned(seqs) + multiset(x.table)
  {
    if seqs == [] {
      assert [x][1..] == [];
    } else {
      assert (seqs + [x])[1..] == seqs[1..] + [x];
      OwnedAppend(seqs[1..], x);
    }
  }

  lemma {:induction false} ClosedOk(byBlock: map<nat, Key>, kv: map<Cell, Key>, s: Live, bs: nat)
    requires bs >= 1 && s.table == [] && s.computed == s.written == s.published == 0 && s.draft.None?
    ensures SeqOk(byBlock, kv, s, bs)
  {}

  lemma {:induction false} QueueSound(e: Engine, lora: int, tokens: seq<Token>, bs: nat)
    requires bs >= 1 && Sound(e, bs)
    ensures Sound(e.(seqs := e.seqs + [Waiting(lora, tokens)]), bs)
  {
    var s := Waiting(lora, tokens);
    OwnedAppend(e.seqs, s);
    hide Valid;
    assert Owned(e.seqs) + multiset(s.table) == Owned(e.seqs);
    assert SeqOk(e.pool.byBlock, e.kv, s, bs) by { hide CacheHolds; }
  }

  lemma {:induction false} StartSound(e: Engine, i: nat, bs: nat)
    requires bs >= 1 && Sound(e, bs) && i < |e.seqs| && e.seqs[i].table == []
    ensures Replace(e, i, Admit(e.pool, e.seqs[i], bs)).Some?
    ensures Sound(Replace(e, i, Admit(e.pool, e.seqs[i], bs)).value, bs)
    ensures |Replace(e, i, Admit(e.pool, e.seqs[i], bs)).value.pool.refs| == |e.pool.refs|
  {
    FocusOn(e, i, bs);
    hide Focus, Sound, Others;
    AdmitKeeps(e.pool, e.kv, e.seqs[i], Others(e.seqs, i), bs);
    var (q, t) := Admit(e.pool, e.seqs[i], bs).value;
    Refocus(e, i, q, e.kv, t, bs);
  }

  lemma {:induction false} ScheduleSound(e: Engine, i: nat, n: nat, bs: nat)
    requires bs >= 1 && Sound(e, bs) && i < |e.seqs|
    requires e.seqs[i].open && e.seqs[i].draft.None? && e.seqs[i].computed + n <= |e.seqs[i].tokens|
    ensures Sound(Replace(e, i, Some(Extend(e.pool, e.seqs[i], n, bs))).value, bs)
    ensures |Replace(e, i, Some(Extend(e.pool, e.seqs[i], n, bs))).value.pool.refs| == |e.pool.refs|
  {
    hide Focus, Sound, Others, Undisturbed, Extend, CanAppend;
    FocusOn(e, i, bs);
    var (q, t) := Extend(e.pool, e.seqs[i], n, bs);
    ExtendKeeps(e.pool, e.kv, e.seqs[i], n, Others(e.seqs, i), bs);
    Refocus(e, i, q, e.kv, t, bs);
  }

  lemma {:induction false} ForwardSound(e: Engine, i: nat, bs: nat)
    requires bs >= 1 && Sound(e, bs) && i < |e.seqs|
    ensures var (kv, t) := Write(e.kv, e.seqs[i], bs);
            Sound(e.(kv := kv, seqs := e.seqs[i := t]), bs)
  {
    FocusOn(e, i, bs);
    hide Valid, CacheHolds, Sound, Others, SeqOk;
    WriteKeeps(e.pool, e.kv, e.seqs[i], Others(e.seqs, i), bs);
    var (kv, t) := Write(e.kv, e.seqs[i], bs);
    Refocus(e, i, e.pool, kv, t, bs);
  }

  lemma {:induction false} FedSampled(s: Live, x: Token, n: nat)
    requires n < |Fed(s)| && (s.draft.Some? ==> DraftOk(s))
    ensures var t := s.(tokens := s.tokens + [x]); n < |Fed(t)| && KeyAt(t, n) == KeyAt(s, n)
  {
    var t := s.(tokens := s.tokens + [x]);
    assert Fed(t)[..n + 1] == Fed(s)[..n + 1];
  }

  lemma {:induction false} SampleSound(e: Engine, i: nat, x: Token, bs: nat)
    requires bs >= 1 && Sound(e, bs) && i < |e.seqs|
    ensures Sound(e.(seqs := e.seqs[i := e.seqs[i].(tokens := e.seqs[i].tokens + [x])]), bs)
  {
    FocusOn(e, i, bs);
    var s := e.seqs[i];
    var t := s.(tokens := s.tokens + [x]);
    hide Valid, CacheHolds, Sound, Others;
    forall n: nat | n < t.written ensures ReadsOwn(e.kv, t, n, bs) {
      assert ReadsOwn(e.kv, s, n, bs);
      FedSampled(s, x, n);
    }
    Refocus(e, i, e.pool, e.kv, t, bs);
  }

  lemma {:induction false} OfferSound(e: Engine, i: nat, bs: nat)
    requires bs >= 1 && Sound(e, bs) && i < |e.seqs| && Settled(e.seqs[i])
    ensures Replace(e, i, Publish(e.pool, e.seqs[i], bs)).Some?
    ensures Sound(Replace(e, i, Publish(e.pool, e.seqs[i], bs)).value, bs)
    ensures |Replace(e, i, Publish(e.pool, e.seqs[i], bs)).value.pool.refs| == |e.pool.refs|
  {
    FocusOn(e, i, bs);
    hide Valid, CacheHolds, Sound, Others, SeqOk;
    PublishKeeps(e.pool, e.kv, e.seqs[i], Others(e.seqs, i), bs);
    var (q, t) := Publish(e.pool, e.seqs[i], bs).value;
    Refocus(e, i, q, e.kv, t, bs);
  }

  lemma {:induction false} RetireSound(e: Engine, i: nat, bs: nat, caching: bool)
    requires bs >= 1 && Sound(e, bs) && i < |e.seqs| && Settled(e.seqs[i])
    ensures Replace(e, i, Release(e.pool, e.seqs[i], bs, caching)).Some?
    ensures Sound(Replace(e, i, Release(e.pool, e.seqs[i], bs, caching)).value, bs)
    ensures |Replace(e, i, Release(e.pool, e.seqs[i], bs, caching)).value.pool.refs| == |e.pool.refs|
  {
    FocusOn(e, i, bs);
    var s := e.seqs[i];
    var rest := Others(e.seqs, i);
    hide Valid, CacheHolds, Sound, Others, SeqOk;
    PublishKeeps(e.pool, e.kv, s, rest, bs);
    var q := if caching then Publish(e.pool, s, bs).value.0 else e.pool;
    assert Focus(q, e.kv, if caching then Publish(e.pool, s, bs).value.1 else s, rest, bs);
    DropAllKeeps(q, s.table, rest);
    var (p, t) := Release(e.pool, s, bs, caching).value;
    assert Focus(p, e.kv, t, rest, bs) by {
      assert rest + multiset(t.table) == rest;
      ClosedOk(p.byBlock, e.kv, t, bs);
    }
    Refocus(e, i, p, e.kv, t, bs);
  }

  lemma {:induction false} DraftSound(e: Engine, i: nat, drafts: seq<Token>, bs: nat)
    requires bs >= 1 && Sound(e, bs) && i < |e.seqs| && Draftable(e.pool, e.seqs[i], drafts, bs)
    ensures Sound(Replace(e, i, Some(Speculate(e.pool, e.seqs[i], drafts, bs))).value, bs)
    ensures |Replace(e, i, Some(Speculate(e.pool, e.seqs[i], drafts, bs))).value.pool.refs| == |e.pool.refs|
  {
    FocusOn(e, i, bs);
    var s, rest := e.seqs[i], Others(e.seqs, i);
    hide Sound, Others;
    DraftKeeps(e.pool, e.kv, s, drafts, rest, bs);
    var (q, t) := Speculate(e.pool, s, drafts, bs);
    hide Focus, Undisturbed, Speculate;
    Refocus(e, i, q, e.kv, t, bs);
  }

  lemma {:induction false} VerdictSound(e: Engine, i: nat, accepted: nat, fed: nat, credited: nat, bonus: Token,
                                        bs: nat)
    requires bs >= 1 && Sound(e, bs) && i < |e.seqs| && Resolvable(e.seqs[i], accepted, fed, credited)
    requires CreditsText(e.seqs[i], accepted, fed, credited, bonus)
    ensures Sound(e.(seqs := e.seqs[i := Resolve(e.seqs[i], accepted, fed, credited, bonus)]), bs)
  {
    FocusOn(e, i, bs);
    var s, rest := e.seqs[i], Others(e.seqs, i);
    hide Sound, Others, Focus, Resolve, CreditsText;
    ResolveKeeps(e.pool, e.kv, s, accepted, fed, credited, bonus, rest, bs);
    assert Undisturbed(e.pool, e.kv, e.pool, e.kv, rest);
    hide Undisturbed;
    Refocus(e, i, e.pool, e.kv, Resolve(s, accepted, fed, credited, bonus), bs);
  }

  /** A verdict never credits draft tokens at positions where the text has others. */
  predicate Credits(e: Engine, a: Action) {
    a.Verdict? && a.seqIndex < |e.seqs| && Resolvable(e.seqs[a.seqIndex], a.accepted, a.fed, a.credited) ==>
      CreditsText(e.seqs[a.seqIndex], a.accepted, a.fed, a.credited, a.bonus)
  }

  lemma {:induction false} StepSound(e: Engine, a: Action, setup: Setup)
    requires setup.blockSize >= 1 && Sound(e, setup.blockSize) && Credits(e, a)
    ensures Step(e, a, setup).Some?
    ensures Sound(Step(e, a, setup).value, setup.blockSize)
    ensures |Step(e, a, setup).value.pool.refs| == |e.pool.refs|
  {
    var bs := setup.blockSize;
    hide Sound, Admit, Extend, Write, Publish, Release, Speculate, Resolve, Draftable, Resolvable, CreditsText;
    match a
    case Queue(lora, tokens) => QueueSound(e, lora, tokens, bs);
    case Start(i) => if i < |e.seqs| && e.seqs[i].table == [] { StartSound(e, i, bs); }
    case Schedule(i, n) =>
      if i < |e.seqs| && e.seqs[i].open && Settled(e.seqs[i]) && e.seqs[i].computed + n <= |e.seqs[i].tokens| {
        ScheduleSound(e, i, n, bs);
      }
    case Forward(i) => if i < |e.seqs| { ForwardSound(e, i, bs); }
    case Sample(i, x) => if i < |e.seqs| { SampleSound(e, i, x, bs); }
    case Offer(i) => if i < |e.seqs| && Settled(e.seqs[i]) { OfferSound(e, i, bs); }
    case Retire(i) => if i < |e.seqs| && Settled(e.seqs[i]) { RetireSound(e, i, bs, setup.caching); }
    case Draft(i, drafts) =>
      if i < |e.seqs| && Draftable(e.pool, e.seqs[i], drafts, bs) { DraftSound(e, i, drafts, bs); }
    case Verdict(i, accepted, fed, credited, bonus) =>
      if i < |e.seqs| && Resolvable(e.seqs[i], accepted, fed, credited) {
        VerdictSound(e, i, accepted, fed, credited, bonus, bs);
      }
  }

  function Run(e: Engine, actions: seq<Action>, setup: Setup): Option<Engine>
    requires setup.blockSize >= 1
    decreases |actions|
  {
    if actions == [] then Some(e)
    else
      var r := Step(e, actions[0], setup);
      if r.None? then None else Run(r.value, actions[1..], setup)
  }

  // ---- drafts in the way of uncomputed tokens ---------------------------------------------------

  /** The invariant as far as bookkeeping goes: with KV memory holding what it is taken to hold,
      there is nothing wrong. */
  ghost predicate Booked(e: Engine, bs: nat)
    requires bs >= 1
  {
    exists kv :: Sound(e.(kv := kv), bs)
  }

  lemma {:induction false} WriteBlind(kv: map<Cell, Key>, kv': map<Cell, Key>, s: Live, bs: nat)
    requires bs >= 1
    ensures Write(kv, s, bs).1 == Write(kv', s, bs).1
    decreases s.computed - s.written
  {
    hide Fed;
    if !(s.written >= s.computed || Full(s.written, bs) >= |s.table| || s.written >= |Fed(s)|) {
      var cell := Cell(s.table[Full(s.written, bs)], Offset(s.written, bs));
      WriteBlind(kv[cell := KeyAt(s, s.written)], kv'[cell := KeyAt(s, s.written)],
                 s.(written := s.written + 1), bs);
    }
  }

  /** No step looks at what KV memory holds. */
  lemma {:induction false} StepBlind(e: Engine, kv: map<Cell, Key>, a: Action, setup: Setup)
    requires setup.blockSize >= 1
    ensures var r, r' := Step(e, a, setup), Step(e.(kv := kv), a, setup);
            && (r.Some? <==> r'.Some?)
            && (r.Some? ==> r.value.pool == r'.value.pool && r.value.seqs == r'.value.seqs)
  {
    hide Admit, Extend, Write, Publish, Release, Speculate, Resolve, Draftable, Resolvable;
    if a.Forward? && a.seqIndex < |e.seqs| { WriteBlind(e.kv, kv, e.seqs[a.seqIndex], setup.blockSize); }
  }

  /** After a verdict, the invariant would hold had the credited positions been written from the
      text. */
  lemma {:induction false} VerdictBooked(e: Engine, i: nat, accepted: nat, fed: nat, credited: nat, bonus: Token,
                                         bs: nat)
    requires bs >= 1 && Sound(e, bs) && i < |e.seqs| && Resolvable(e.seqs[i], accepted, fed, credited)
    ensures Booked(e.(seqs := e.seqs[i := Resolve(e.seqs[i], accepted, fed, credited, bonus)]), bs)
  {
    FocusOn(e, i, bs);
    var s, rest := e.seqs[i], Others(e.seqs, i);
    var t := Resolve(s, accepted, fed, credited, bonus);
    var u := t.(written := s.draft.value.base);
    assert u.(written := u.computed) == t;
    hide Sound, Others, Focus, Resolve, Write;
    RolledBackKeeps(e.pool, e.kv, s, accepted, fed, credited, bonus, rest, bs);
    hide Undisturbed, Resolvable;
    WriteKeeps(e.pool, e.kv, u, rest, bs);
    var kv := Write(e.kv, u, bs).0;
    Refocus(e, i, e.pool, kv, t, bs);
    assert e.(seqs := e.seqs[i := t]).(kv := kv) == Engine(e.pool, kv, e.seqs[i := t]);
  }

  lemma {:induction false} StepBooked(e: Engine, a: Action, setup: Setup)
    requires setup.blockSize >= 1 && Booked(e, setup.blockSize)
    ensures Step(e, a, setup).Some?
    ensures Booked(Step(e, a, setup).value, setup.blockSize)
    ensures |Step(e, a, setup).value.pool.refs| == |e.pool.refs|
  {
    var bs := setup.blockSize;
    hide Sound;
    var kv :| Sound(e.(kv := kv), bs);
    var f := e.(kv := kv);
    StepBlind(e, kv, a, setup);
    if Credits(f, a) {
      hide Step, Credits;
      StepSound(f, a, setup);
      var g := Step(f, a, setup).value;
      assert Step(e, a, setup).value.(kv := g.kv) == g;
    } else {
      hide Resolvable, Resolve, CreditsText;
      VerdictBooked(f, a.seqIndex, a.accepted, a.fed, a.credited, a.bonus, bs);
      var g := Step(f, a, setup).value;
      var kv' :| Sound(g.(kv := kv'), bs);
      assert Step(e, a, setup).value.(kv := kv') == g.(kv := kv');
    }
  }

  /** Over every run, from an empty pool of any size: no double free, no reference to a free
      block, no cached block reinterpreted, and the books in order at the end. */
  lemma {:induction false} RunSound(e: Engine, actions: seq<Action>, setup: Setup)
    requires setup.blockSize >= 1 && Booked(e, setup.blockSize)
    ensures Run(e, actions, setup).Some?
    ensures Booked(Run(e, actions, setup).value, setup.blockSize)
    ensures |Run(e, actions, setup).value.pool.refs| == |e.pool.refs|
    decreases |actions|
  {
    hide Booked, Step;
    if actions != [] {
      StepBooked(e, actions[0], setup);
      RunSound(Step(e, actions[0], setup).value, actions[1..], setup);
    }
  }

  /** The states of all runs over a pool of `blocks` blocks. */
  ghost predicate Reachable(e: Engine, blocks: nat, setup: Setup)
    requires setup.blockSize >= 1
  {
    exists actions :: Run(Begin(blocks), actions, setup) == Some(e)
  }

  /** The contents of KV memory with which the invariant would hold. */
  lemma {:induction false} ReachableSound(e: Engine, blocks: nat, setup: Setup) returns (f: Engine)
    requires setup.blockSize >= 1 && Reachable(e, blocks, setup)
    ensures f == e.(kv := f.kv) && Sound(f, setup.blockSize) && |e.pool.refs| == blocks
  {
    hide Sound, Run;
    var actions :| Run(Begin(blocks), actions, setup) == Some(e);
    BeginSound(blocks, setup.blockSize);
    assert Begin(blocks).(kv := map[]) == Begin(blocks);
    RunSound(Begin(blocks), actions, setup);
    var kv :| Sound(e.(kv := kv), setup.blockSize);
    f := e.(kv := kv);
  }

  lemma {:induction false} ReachableBooked(e: Engine, blocks: nat, setup: Setup)
    requires setup.blockSize >= 1 && Reachable(e, blocks, setup)
    ensures Booked(e, setup.blockSize)
  {
    hide Sound, Reachable;
    var f := ReachableSound(e, blocks, setup);
    assert Sound(e.(kv := f.kv), setup.blockSize);
  }

  lemma {:induction false} ProgressOrdered(e: Engine, i: nat, blocks: nat, setup: Setup)
    requires setup.blockSize >= 1 && Reachable(e, blocks, setup) && i < |e.seqs|
    ensures e.seqs[i].written <= e.seqs[i].computed <= |e.seqs[i].tokens|
    ensures e.seqs[i].computed <= Size(|e.seqs[i].table|, setup.blockSize)
    ensures !e.seqs[i].open ==> e.seqs[i].table == []
  {
    hide Reachable, Size, Full, ReadsOwn;
    var f := ReachableSound(e, blocks, setup);
    assert SeqOk(f.pool.byBlock, f.kv, f.seqs[i], setup.blockSize);
  }

  lemma {:induction false} ReachableStep(e: Engine, a: Action, blocks: nat, setup: Setup)
    requires setup.blockSize >= 1 && Reachable(e, blocks, setup)
    ensures Step(e, a, setup).Some? && Reachable(Step(e, a, setup).value, blocks, setup)
  {
    hide Step, Booked;
    ReachableBooked(e, blocks, setup);
    StepBooked(e, a, setup);
    var actions :| Run(Begin(blocks), actions, setup) == Some(e);
    RunAppend(Begin(blocks), actions, a, setup);
    assert Run(Begin(blocks), actions + [a], setup) == Some(Step(e, a, setup).value);
  }

  lemma {:induction false} RunAppend(e: Engine, actions: seq<Action>, a: Action, setup: Setup)
    requires setup.blockSize >= 1 && Run(e, actions, setup).Some?
    ensures Run(e, actions + [a], setup) == Step(Run(e, actions, setup).value, a, setup)
    decreases |actions|
  {
    hide Step;
    if actions == [] {
      var r := Step(e, a, setup);
      assert ([a])[1..] == [];
      assert r.Some? ==> Run(r.value, [], setup) == r;
      assert [] + [a] == [a];
    } else {
      assert (actions + [a])[1..] == actions[1..] + [a];
      RunAppend(Step(e, actions[0], setup).value, actions[1..], a, setup);
    }
  }

  // ---- what the invariant means -------------------------------------------------------------

  /** Attention over any written position of any sequence reads KV computed from exactly what the
      sequence was fed up to there, under its own adapter, whoever computed it. */
  ghost predicate AllReadOwn(e: Engine, bs: nat)
    requires bs >= 1
  {
    forall i: nat, n: nat :: i < |e.seqs| && n < e.seqs[i].written ==>
      n < |Fed(e.seqs[i])| && ReadsOwn(e.kv, e.seqs[i], n, bs)
  }

  /** It does so in every state of the run. */
  ghost predicate AlwaysReadsOwn(e: Engine, actions: seq<Action>, setup: Setup)
    requires setup.blockSize >= 1
    decreases |actions|
  {
    && AllReadOwn(e, setup.blockSize)
    && (actions != [] && Step(e, actions[0], setup).Some? ==>
          AlwaysReadsOwn(Step(e, actions[0], setup).value, actions[1..], setup))
  }

  /** No verdict of the run credits draft tokens at positions where the text has others. */
  ghost predicate AlwaysCredits(e: Engine, actions: seq<Action>, setup: Setup)
    requires setup.blockSize >= 1
    decreases |actions|
  {
    actions != [] ==>
      && Credits(e, actions[0])
      && (Step(e, actions[0], setup).Some? ==> AlwaysCredits(Step(e, actions[0], setup).value, actions[1..], setup))
  }

  lemma {:induction false} SoundReadsOwn(e: Engine, bs: nat)
    requires bs >= 1 && Sound(e, bs)
    ensures AllReadOwn(e, bs)
  {
    hide Valid, CacheHolds;
    forall i: nat, n: nat | i < |e.seqs| && n < e.seqs[i].written
      ensures n < |Fed(e.seqs[i])| && ReadsOwn(e.kv, e.seqs[i], n, bs)
    {
      assert SeqOk(e.pool.byBlock, e.kv, e.seqs[i], bs);
    }
  }

  lemma {:induction false} WrongVerdictReads(e: Engine, a: Action, setup: Setup)
    requires setup.blockSize >= 1 && Sound(e, setup.blockSize) && !Credits(e, a)
    ensures Step(e, a, setup).Some? && !AllReadOwn(Step(e, a, setup).value, setup.blockSize)
  {
    var i := a.seqIndex;
    FocusOn(e, i, setup.blockSize);
    hide Sound, Focus, Resolvable, Resolve, CreditsText, ReadsOwn;
    CreditedElsewhere(e.pool, e.kv, e.seqs[i], a.accepted, a.fed, a.credited, a.bonus, Others(e.seqs, i),
                      setup.blockSize);
    var f := Step(e, a, setup).value;
    assert f.seqs[i] == Resolve(e.seqs[i], a.accepted, a.fed, a.credited, a.bonus);
    var n: nat := f.seqs[i].written - 1;
    assert !ReadsOwn(f.kv, f.seqs[i], n, setup.blockSize);
  }

  /** Over every run: attention reads KV of the sequence's own prefix in every state of the run if and
      only if no verdict credits draft tokens at positions where the text has others. */
  lemma {:induction false} ReadsAreOwn(e: Engine, actions: seq<Action>, setup: Setup)
    requires setup.blockSize >= 1 && Sound(e, setup.blockSize)
    ensures AlwaysReadsOwn(e, actions, setup) <==> AlwaysCredits(e, actions, setup)
    decreases |actions|
  {
    hide Sound, Step, Credits, AllReadOwn;
    SoundReadsOwn(e, setup.blockSize);
    if actions != [] {
      if Credits(e, actions[0]) {
        StepSound(e, actions[0], setup);
        ReadsAreOwn(Step(e, actions[0], setup).value, actions[1..], setup);
      } else {
        WrongVerdictReads(e, actions[0], setup);
      }
    }
  }

  /** Two sequences that share a block hold it at the same index and agree on the adapter and on
      every token up to the block's end, which both have computed. */
  lemma {:induction false} SharingMeansSamePrefix(e: Engine, blocks: nat, setup: Setup, i: nat, j: nat, k: nat, m: nat)
    requires setup.blockSize >= 1 && Reachable(e, blocks, setup)
    requires i < |e.seqs| && j < |e.seqs| && i != j
    requires k < |e.seqs[i].table| && m < |e.seqs[j].table| && e.seqs[i].table[k] == e.seqs[j].table[m]
    ensures k == m && e.seqs[i].lora == e.seqs[j].lora
    ensures var size := Size(k + 1, setup.blockSize);
            && size <= e.seqs[i].written <= |e.seqs[i].tokens|
            && size <= e.seqs[j].written <= |e.seqs[j].tokens|
            && e.seqs[i].tokens[..size] == e.seqs[j].tokens[..size]
  {
    var bs := setup.blockSize;
    var b := e.seqs[i].table[k];
    hide Reachable, SeqOk, CacheHolds, Size, Others, Owned, Sound, Fed;
    var f := ReachableSound(e, blocks, setup);
    FocusOn(f, i, bs);
    FocusOn(f, j, bs);
    OthersHas(e.seqs, i, j, b);
    if b !in e.pool.byBlock {
      UncachedIsExclusive(e.pool, e.seqs[i].table, Others(e.seqs, i), k);
    }
    hide Valid;
    CachedIsWritten(e.pool, f.kv, e.seqs[i], k, bs);
    CachedIsWritten(e.pool, f.kv, e.seqs[j], m, bs);
    assert BlockKey(e.seqs[i], k, bs) == BlockKey(e.seqs[j], m, bs);
    SameBlockKey(e.seqs[i], e.seqs[j], k, m, bs);
  }

  /** The flat KV slot of position `n`. */
  function Slot(s: Live, n: nat, bs: nat): nat
    requires bs >= 1 && Full(n, bs) < |s.table|
  {
    Size(s.table[Full(n, bs)], bs) + Offset(n, bs)
  }

  /** Within the block of the table that the position falls into. */
  lemma SlotExactly(s: Live, n: nat, bs: nat)
    requires bs >= 1 && Full(n, bs) < |s.table|
    ensures n / bs < |s.table| && Slot(s, n, bs) == s.table[n / bs] * bs + n % bs
  {
    hide Full, Offset, Size;
    BlockArithmetic(n, s.table[Full(n, bs)], bs);
  }

  /** Whatever lies past the written positions of a sequence, stale cells of a rejected draft
      included, lies in blocks that are not cached and that no table lists a second time. */
  lemma {:induction false} PastWrittenIsPrivate(e: Engine, blocks: nat, setup: Setup, i: nat, k: nat, j: nat)
    requires setup.blockSize >= 1 && Reachable(e, blocks, setup) && i < |e.seqs| && j < |e.seqs|
    requires Full(e.seqs[i].written, setup.blockSize) <= k < |e.seqs[i].table|
    ensures e.seqs[i].table[k] !in e.pool.byBlock
    ensures forall l: nat :: l < |e.seqs[j].table| && !(i == j && k == l) ==>
              e.seqs[j].table[l] != e.seqs[i].table[k]
  {
    var bs := setup.blockSize;
    hide Reachable;
    var f := ReachableSound(e, blocks, setup);
    FocusOn(f, i, bs);
    hide Sound, CacheHolds, ReadsOwn;
    UncachedIsExclusive(e.pool, e.seqs[i].table, Others(e.seqs, i), k);
    hide Valid;
    forall l: nat | l < |e.seqs[j].table| && !(i == j && k == l)
      ensures e.seqs[j].table[l] != e.seqs[i].table[k]
    {
      if i != j { OthersHas(e.seqs, i, j, e.seqs[j].table[l]); }
    }
  }

  /** A position still to be written lies in a block no other table lists and the cache does not
      know, and its slot is different from that of every other position of any sequence. */
  lemma {:induction false} WritesAreExclusive(e: Engine, blocks: nat, setup: Setup, i: nat, n: nat, j: nat, m: nat)
    requires setup.blockSize >= 1 && Reachable(e, blocks, setup)
    requires i < |e.seqs| && j < |e.seqs| && (i, n) != (j, m)
    requires e.seqs[i].written <= n < e.seqs[i].computed && m < e.seqs[j].computed
    ensures Full(n, setup.blockSize) < |e.seqs[i].table| && Full(m, setup.blockSize) < |e.seqs[j].table|
    ensures e.seqs[i].table[Full(n, setup.blockSize)] !in e.pool.byBlock
    ensures i != j ==> e.seqs[i].table[Full(n, setup.blockSize)] !in e.seqs[j].table
    ensures Slot(e.seqs[i], n, setup.blockSize) != Slot(e.seqs[j], m, setup.blockSize)
  {
    var bs := setup.blockSize;
    var s, t := e.seqs[i], e.seqs[j];
    hide Reachable, Full, Size, Offset;
    ProgressOrdered(e, i, blocks, setup);
    ProgressOrdered(e, j, blocks, setup);
    SizeFits(|s.table|, n, bs);
    SizeFits(|t.table|, m, bs);
    FullMonotone(s.written, n, bs);
    var k, l := Full(n, bs), Full(m, bs);
    PastWrittenIsPrivate(e, blocks, setup, i, k, j);
    Position(n, bs);
    Position(m, bs);
    if Slot(s, n, bs) == Slot(t, m, bs) {
      SlotsApart(s.table[k], Offset(n, bs), t.table[l], Offset(m, bs), bs);
    }
  }

  /** Blocks free, retained and in use always add up to the pool; with no sequence holding blocks
      the whole pool is allocatable. */
  lemma {:induction false} NothingLeaks(e: Engine, blocks: nat, setup: Setup)
    requires setup.blockSize >= 1 && Reachable(e, blocks, setup)
    ensures Allocatable(e.pool) + |InUse(e.pool, Owned(e.seqs))| == blocks
    ensures (forall i: nat :: i < |e.seqs| ==> e.seqs[i].table == []) ==> Allocatable(e.pool) == blocks
  {
    hide Reachable;
    var f := ReachableSound(e, blocks, setup);
    PoolConserved(e.pool, Owned(e.seqs));
    if forall i: nat :: i < |e.seqs| ==> e.seqs[i].table == [] {
      NobodyOwns(e.seqs);
      assert InUse(e.pool, Owned(e.seqs)) == {};
    }
  }

  lemma {:induction false} NobodyOwns(seqs: seq<Live>)
    requires forall i: nat :: i < |seqs| ==> seqs[i].table == []
    ensures Owned(seqs) == multiset{}
  {
    if seqs != [] {
      assert forall i: nat :: i < |seqs[1..]| ==> seqs[1..][i] == seqs[i + 1];
      NobodyOwns(seqs[1..]);
    }
  }

  /** Why a sequence in the batch being built must not publish: its block would be adopted before
      its KV exists. */
  lemma {:induction false} UnwrittenPublicationUnsafe()
    ensures var s := Live(0, [7], [0], 1, 0, 0, true, None);
            var p := Pool([1], [], {}, map[], map[], []);
            var newcomer := Waiting(0, [7, 8]);
            && Focus(p, map[], s, multiset{}, 1) && !Settled(s)
            && Publish(p, s, 1).Some?
            && var q := Publish(p, s, 1).value.0;
            && Admit(q, newcomer, 1).Some?
            && var t := Admit(q, newcomer, 1).value.1;
            t.written == 1 && t.tokens == newcomer.tokens && !ReadsOwn(map[], t, 0, 1)
  {
    var s := Live(0, [7], [0], 1, 0, 0, true, None);
    var p := Pool([1], [], {}, map[], map[], []);
    var newcomer := Waiting(0, [7, 8]);
    forall b: nat ensures BlockOk(p, multiset{} + multiset(s.table), b) {}
    var key := BlockKey(s, 0, 1);
    var q := p.(byHash := map[key := 0], byBlock := map[0 := key]);
    assert Insert(p, 0, key) == Some(q);
    assert Publish(q, s.(published := 1), 1) == Some((q, s.(published := 1)));
    assert Publish(p, s, 1) == Some((q, s.(published := 1)));
    assert BlockKey(newcomer, 0, 1) == key;
    assert Hits(q.byHash, newcomer, 1, 1, 1) == 1;
    assert Cached(q.byHash, newcomer, 0, 1);
    assert HitCap(newcomer, 1) == 1;
    var u := newcomer.(open := true);
    var t := u.(table := [0], published := 1, computed := 1, written := 1);
    var shared := Share(q, 0).value;
    assert Adopt(shared, t, 1, 1) == Some((shared, t));
    assert BlockKey(u, 0, 1) == key && Cached(q.byHash, u, 0, 1);
    assert u.(table := u.table + [0], published := 1, computed := 1, written := 1) == t;
    assert Adopt(q, u, 1, 1) == Some((shared, t));
  }

  // ---- room ---------------------------------------------------------------------------------

  /** Growing by `n` tokens never runs out when `can_append` says so, and always does otherwise. */
  lemma {:induction false} AppendTestExact(e: Engine, blocks: nat, setup: Setup, i: nat, n: nat)
    requires setup.blockSize >= 1 && Reachable(e, blocks, setup) && i < |e.seqs| && e.seqs[i].open
    requires e.seqs[i].computed + n <= |e.seqs[i].tokens|
    ensures CanAppend(e.pool, e.seqs[i], n, setup.blockSize) <==> !RunsOut(e.pool, e.seqs[i], n, setup.blockSize)
  {
    var bs := setup.blockSize;
    hide Reachable;
    var f := ReachableSound(e, blocks, setup);
    FocusOn(f, i, bs);
    hide Sound, Focus, RunsOut;
    RunsOutWhen(e.pool, f.kv, e.seqs[i], n, Others(e.seqs, i), bs);
  }

  /** `can_allocate` is exact: it holds if and only if, once the prefix hits are adopted, all
      remaining tokens can be grown into without running out; then so can any `n` of them. */
  lemma {:induction false} AdmissionTestExact(e: Engine, blocks: nat, setup: Setup, i: nat, n: nat)
    requires setup.blockSize >= 1 && Reachable(e, blocks, setup) && i < |e.seqs| && e.seqs[i].table == []
    ensures Admit(e.pool, e.seqs[i], setup.blockSize).Some?
    ensures var bs := setup.blockSize;
            var (q, t) := Admit(e.pool, e.seqs[i], bs).value;
            && (t.computed + n == |e.seqs[i].tokens| ==>
                  (CanAllocate(e.pool, e.seqs[i], bs) <==> !RunsOut(q, t, n, bs)))
            && (t.computed + n <= |e.seqs[i].tokens| && CanAllocate(e.pool, e.seqs[i], bs) ==>
                  !RunsOut(q, t, n, bs))
  {
    hide Reachable, Sound, Focus, Admit, CanAllocate, RunsOut;
    var f := ReachableSound(e, blocks, setup);
    FocusOn(f, i, setup.blockSize);
    AdmissionExact(e.pool, f.kv, e.seqs[i], n, Others(e.seqs, i), setup.blockSize);
  }
}
