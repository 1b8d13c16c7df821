/** What the scheduler may ask of the engine, its queues, and what each of its moves keeps
    (src/turboserve/engine/core/scheduler.py:416-815). */
module SchedulerState {
  import opened Prelude
  import opened KvBlocks
  import opened KvSharing
  import opened KvEngine
  import opened EngineEffects

  datatype Limits = Limits(maxTokens: nat, maxSeqs: nat, chunked: bool)

  /** `count` new tokens of one sequence in the batch. */
  datatype Item = Item(seqIndex: nat, count: nat)

  function Tokens(batch: seq<Item>): nat {
    if batch == [] then 0 else Tokens(batch[..|batch| - 1]) + batch[|batch| - 1].count
  }

  // ---- the invariant ------------------------------------------------------------------------

  /** The queues as the scheduler keeps them, with the sequences scheduled in this step. `waiting`
      lists the queued sequences in the order the admission policy will pick them. */
  datatype Queues = Queues(e: Engine, running: seq<nat>, preempted: seq<nat>, waiting: seq<nat>, ids: set<nat>)

  /** A sequence holds blocks exactly when it is running, and is then listed once; otherwise it is
      in at most one queue; it is in the batch being built only while running; no draft is pending;
      and unless it is in the batch, all its computed KV has been written. */
  ghost predicate Queued(q: Queues, i: nat) {
    var live := i < |q.e.seqs| && q.e.seqs[i].open;
    && multiset(q.running)[i] == (if live then 1 else 0)
    && multiset(q.preempted)[i] + multiset(q.waiting)[i] <= (if i < |q.e.seqs| && !live then 1 else 0)
    && (i in q.ids ==> live)
    && (i < |q.e.seqs| ==>
          && q.e.seqs[i].tokens != [] && q.e.seqs[i].draft.None?
          && (i in q.ids || Settled(q.e.seqs[i])))
  }

  ghost predicate Ready(q: Queues, blocks: nat, setup: Setup) {
    && setup.blockSize >= 1
    && Reachable(q.e, blocks, setup) && AllTight(q.e, setup.blockSize)
    && forall i: nat :: Queued(q, i)
  }

  /** Nobody holds more blocks than their computed tokens take. */
  ghost predicate AllTight(e: Engine, bs: nat)
    requires bs >= 1
  {
    forall i: nat :: i < |e.seqs| ==> Tight(e.seqs[i], bs)
  }

  lemma {:induction false} TightStays(e: Engine, f: Engine, i: nat, bs: nat)
    requires bs >= 1 && AllTight(e, bs) && OnlyChanges(e, f, i) && (Tight(e.seqs[i], bs) ==> Tight(f.seqs[i], bs))
    ensures AllTight(f, bs)
  {
    hide Tight;
    assert Tight(e.seqs[i], bs);
    forall j: nat | j < |f.seqs| ensures Tight(f.seqs[j], bs) { assert Tight(e.seqs[j], bs); }
  }

  lemma {:induction false} PlaceWithout(s: seq<nat>, x: nat, v: nat)
    requires x != v
    ensures Place(Without(s, v), x) <= Place(s, x)
  {
    if s != [] { PlaceWithout(s[1..], x, v); }
  }

  lemma {:induction false} WithoutOne(s: seq<nat>, x: nat)
    ensures |Without(s, x)| == |s| - multiset(s)[x]
  {
    if s != [] {
      assert s == [s[0]] + s[1..];
      WithoutOne(s[1..], x);
    }
  }

  /** Everybody running has been offered to the cache as far as computed. */
  ghost predicate AllOffered(q: Queues, setup: Setup)
    requires setup.blockSize >= 1
  {
    forall v :: v in q.running && v < |q.e.seqs| ==> Offered(q.e.seqs[v], setup)
  }

  /** The unfinished sequences. */
  ghost function Members(q: Queues): set<nat> { Listed(q.running) + Listed(q.preempted) + Listed(q.waiting) }

  ghost function Listed(s: seq<nat>): set<nat> { set i | i in s }

  /** Exactly `count` positions of this sequence wait for the forward pass. */
  ghost predicate Pending(e: Engine, x: Item) {
    x.seqIndex < |e.seqs| && x.count >= 1 && e.seqs[x.seqIndex].computed == e.seqs[x.seqIndex].written + x.count
  }

  /** The batch lists every scheduled sequence once. */
  ghost predicate BatchOk(e: Engine, batch: seq<Item>, ids: set<nat>) {
    && |ids| == |batch|
    && (forall k: nat :: k < |batch| ==> batch[k].seqIndex in ids && Pending(e, batch[k]))
    && (forall i :: i in ids ==> exists k: nat :: k < |batch| && batch[k].seqIndex == i)
  }

  lemma {:induction false} BatchUntouched(e: Engine, f: Engine, i: nat, batch: seq<Item>, ids: set<nat>)
    requires BatchOk(e, batch, ids) && OnlyChanges(e, f, i)
    requires i !in ids || (f.seqs[i].computed == e.seqs[i].computed && f.seqs[i].written == e.seqs[i].written)
    ensures BatchOk(f, batch, ids)
  {
    forall k: nat | k < |batch| ensures Pending(f, batch[k]) {
      assert Pending(e, batch[k]);
    }
  }

  lemma BatchGrown(e: Engine, f: Engine, batch: seq<Item>, ids: set<nat>)
    requires BatchOk(e, batch, ids) && e.seqs <= f.seqs
    ensures BatchOk(f, batch, ids)
  {
    forall k: nat | k < |batch| ensures Pending(f, batch[k]) { assert Pending(e, batch[k]); }
  }

  lemma {:induction false} OfferReady(q: Queues, i: nat, blocks: nat, setup: Setup)
    requires Ready(q, blocks, setup) && i in q.running && i !in q.ids
    ensures Enabled(q.e, Offer(i), setup) && Step(q.e, Offer(i), setup).Some?
    ensures Ready(q.(e := Step(q.e, Offer(i), setup).value), blocks, setup)
    ensures OnlyChanges(q.e, Step(q.e, Offer(i), setup).value, i)
    ensures var f := Step(q.e, Offer(i), setup).value;
            && f.seqs[i] == q.e.seqs[i].(published := f.seqs[i].published)
            && Offered(f.seqs[i], setup) && OnlyPublished(q.e, f)
  {
    hide Reachable, Step, AllTight;
    assert Queued(q, i);
    assert i in multiset(q.running);
    OfferEffect(q.e, i, blocks, setup);
    TightStays(q.e, Step(q.e, Offer(i), setup).value, i, setup.blockSize);
    ReachableStep(q.e, Offer(i), blocks, setup);
    var r := q.(e := Step(q.e, Offer(i), setup).value);
    forall j: nat ensures Queued(r, j) { assert Queued(q, j); }
  }

  /** Taking a running sequence that is not in the batch back to the queue. */
  function Preempted(q: Queues, i: nat, f: Engine): Queues {
    q.(e := f, running := Without(q.running, i), preempted := q.preempted + [i])
  }

  lemma {:induction false} PreemptedMembers(q: Queues, i: nat, f: Engine)
    requires i in q.running
    ensures Members(Preempted(q, i, f)) == Members(q)
  {
    WithoutShorter(q.running, i);
  }

  lemma {:induction false} PreemptReady(q: Queues, i: nat, blocks: nat, setup: Setup)
    requires Ready(q, blocks, setup) && i in q.running && i !in q.ids
    ensures Enabled(q.e, Retire(i), setup) && Step(q.e, Retire(i), setup).Some?
    ensures var f := Step(q.e, Retire(i), setup).value;
            && Ready(Preempted(q, i, f), blocks, setup) && Members(Preempted(q, i, f)) == Members(q)
            && OnlyChanges(q.e, f, i) && SameText(q.e, f)
            && (Offered(q.e.seqs[i], setup) ==> SameIndex(q.e.pool, f.pool))
  {
    hide Reachable, Step, AllTight, Tight, Offered, SameIndex, SameText;
    assert Queued(q, i);
    assert i in multiset(q.running);
    RetireEffect(q.e, i, blocks, setup);
    TightStays(q.e, Step(q.e, Retire(i), setup).value, i, setup.blockSize);
    ReachableStep(q.e, Retire(i), blocks, setup);
    TextStays(q.e, Step(q.e, Retire(i), setup).value, i);
    WithoutCounts(q.running, i);
    var r := Preempted(q, i, Step(q.e, Retire(i), setup).value);
    PreemptedMembers(q, i, r.e);
    hide Members;
    forall j: nat ensures Queued(r, j) { assert Queued(q, j); }
  }

  /** What preempting others and filling the batch leave of the queues `q`: everybody who ran runs on,
      in the same order and untouched unless in the batch, or has been preempted since and queues up
      at the end. Until somebody is in the batch, the prefix cache knows what it knew. */
  ghost predicate Displaced(q: Queues, r: Queues, victims: set<nat>, setup: Setup)
    requires setup.blockSize >= 1
  {
    && SameText(q.e, r.e) && r.waiting == q.waiting && q.preempted <= r.preempted
    && (forall v :: v in r.running ==> v in q.running && Place(r.running, v) <= Place(q.running, v))
    && (forall v :: v in r.ids ==> v in q.ids || v in q.running)
    && (forall v :: v in q.running ==> v in r.running || v in victims)
    && (forall v :: v in r.running && v !in r.ids && v < |q.e.seqs| ==> r.e.seqs[v] == q.e.seqs[v])
    && (forall v :: v in r.running && v < |q.e.seqs| ==> r.e.seqs[v].written == q.e.seqs[v].written)
    && (forall v :: v in victims ==> v in q.running && v in r.preempted)
    && (forall k: nat :: |q.preempted| <= k < |r.preempted| ==> r.preempted[k] in victims)
    && |r.running| + |r.preempted| == |q.running| + |q.preempted|
    && (r.ids == {} && AllOffered(q, setup) ==> SameIndex(q.e.pool, r.e.pool))
  }

  lemma DisplacedNobody(q: Queues, setup: Setup)
    requires setup.blockSize >= 1
    ensures Displaced(q, q, {}, setup)
  {}

  lemma DisplacedGone(q: Queues, r: Queues, victims: set<nat>, i: nat, setup: Setup)
    requires setup.blockSize >= 1 && Displaced(q, r, victims, setup) && i in q.running
    ensures i in r.running || i in victims
    ensures i in r.running && i !in r.ids && i < |r.e.seqs| ==> i < |q.e.seqs| && r.e.seqs[i] == q.e.seqs[i]
  {}

  lemma {:induction false} DisplacedMore(q: Queues, r: Queues, victims: set<nat>, i: nat, f: Engine, setup: Setup)
    requires setup.blockSize >= 1 && Displaced(q, r, victims, setup) && i in r.running && i !in r.ids
    requires multiset(r.running)[i] == 1 && OnlyChanges(r.e, f, i) && SameText(r.e, f)
    requires Offered(r.e.seqs[i], setup) ==> SameIndex(r.e.pool, f.pool)
    ensures Displaced(q, Preempted(r, i, f), victims + {i}, setup)
  {
    hide Offered;
    WithoutShorter(r.running, i);
    WithoutOne(r.running, i);
    var t := Preempted(r, i, f);
    forall v | v in t.running ensures v in q.running && Place(t.running, v) <= Place(q.running, v) {
      PlaceWithout(r.running, v, i);
    }
    assert AllOffered(q, setup) ==> Offered(r.e.seqs[i], setup) by { assert i in q.running; }
  }

  lemma {:induction false} QueuedVictims(p: Queues, d: Queues, victims: set<nat>, setup: Setup)
    requires setup.blockSize >= 1 && Displaced(p, d, victims, setup)
    ensures forall v :: v in d.preempted ==> v in p.preempted || v in victims
  {
    hide SameText, AllOffered, SameIndex, Place;
    forall v | v in d.preempted ensures v in p.preempted || v in victims {
      var k: nat :| k < |d.preempted| && d.preempted[k] == v;
      if k < |p.preempted| { assert p.preempted[k] == v; }
    }
  }

  lemma DisplacedEmit(q: Queues, r: Queues, victims: set<nat>, i: nat, f: Engine, setup: Setup)
    requires setup.blockSize >= 1 && Displaced(q, r, victims, setup) && i in r.running
    requires OnlyChanges(r.e, f, i) && SameText(r.e, f) && f.seqs[i].written == r.e.seqs[i].written
    ensures Displaced(q, r.(e := f, ids := r.ids + {i}), victims, setup)
  {
    hide Offered;
    assert i in r.ids + {i};
  }

  /** Adding `n` tokens of a running sequence to the batch. */
  lemma {:induction false} EmitReady(q: Queues, i: nat, n: nat, batch: seq<Item>, blocks: nat, setup: Setup)
    requires Ready(q, blocks, setup) && BatchOk(q.e, batch, q.ids)
    requires i !in q.ids && n >= 1 && Enabled(q.e, Schedule(i, n), setup)
    ensures Step(q.e, Schedule(i, n), setup).Some?
    ensures var f := Step(q.e, Schedule(i, n), setup).value;
            && Ready(q.(e := f, ids := q.ids + {i}), blocks, setup)
            && BatchOk(f, batch + [Item(i, n)], q.ids + {i})
            && OnlyChanges(q.e, f, i) && SameText(q.e, f)
            && f.seqs[i].computed == q.e.seqs[i].computed + n && f.seqs[i].written == q.e.seqs[i].written
            && Allocatable(f.pool) + |f.seqs[i].table| == Allocatable(q.e.pool) + |q.e.seqs[i].table|
  {
    hide Reachable, Step, RunsOut, AllTight, Allocatable, Tight, SameText;
    assert Queued(q, i);
    ScheduleEffect(q.e, i, n, blocks, setup);
    TightStays(q.e, Step(q.e, Schedule(i, n), setup).value, i, setup.blockSize);
    ReachableStep(q.e, Schedule(i, n), blocks, setup);
    var f := Step(q.e, Schedule(i, n), setup).value;
    var r := q.(e := f, ids := q.ids + {i});
    forall j: nat ensures Queued(r, j) { assert Queued(q, j); }
    TextStays(q.e, f, i);
    BatchUntouched(q.e, f, i, batch, q.ids);
    BatchAppend(f, batch, q.ids, Item(i, n));
  }

  lemma {:induction false} BatchAppend(e: Engine, batch: seq<Item>, ids: set<nat>, x: Item)
    requires BatchOk(e, batch, ids) && x.seqIndex !in ids && Pending(e, x)
    ensures BatchOk(e, batch + [x], ids + {x.seqIndex})
  {
    var more := batch + [x];
    forall i | i in ids + {x.seqIndex} ensures exists k: nat :: k < |more| && more[k].seqIndex == i {
      if i == x.seqIndex {
        assert more[|batch|].seqIndex == i;
      } else {
        var k: nat :| k < |batch| && batch[k].seqIndex == i;
        assert more[k].seqIndex == i;
      }
    }
  }

  /** The queue without its head `i`, which is the next to admit. */
  function Popped(q: Queues): Queues
    requires q.preempted + q.waiting != []
  {
    if q.preempted != [] then q.(preempted := q.preempted[1..]) else q.(waiting := q.waiting[1..])
  }

  function Head(q: Queues): nat
    requires q.preempted + q.waiting != []
  {
    if q.preempted != [] then q.preempted[0] else q.waiting[0]
  }

  lemma {:induction false} HeadStartable(q: Queues, blocks: nat, setup: Setup)
    requires Ready(q, blocks, setup) && q.preempted + q.waiting != []
    ensures Head(q) !in q.ids && Enabled(q.e, Start(Head(q)), setup) && !q.e.seqs[Head(q)].open
  {
    var i := Head(q);
    assert Queued(q, i);
    assert i in multiset(q.preempted) || i in multiset(q.waiting);
    ProgressOrdered(q.e, i, blocks, setup);
  }

  lemma {:induction false} PoppedMembers(q: Queues)
    requires q.preempted + q.waiting != []
    ensures forall f :: Members(Popped(q).(e := f, running := q.running + [Head(q)])) == Members(q)
  {
    if q.preempted != [] {
      assert q.preempted == [q.preempted[0]] + q.preempted[1..];
    } else {
      assert q.waiting == [q.waiting[0]] + q.waiting[1..];
    }
  }

  lemma {:induction false} AdmitReady(q: Queues, blocks: nat, setup: Setup)
    requires Ready(q, blocks, setup) && q.preempted + q.waiting != []
    ensures Step(q.e, Start(Head(q)), setup).Some?
    ensures var f := Step(q.e, Start(Head(q)), setup).value;
            && OnlyChanges(q.e, f, Head(q)) && SameText(q.e, f)
            && Ready(Popped(q).(e := f, running := q.running + [Head(q)]), blocks, setup)
            && Members(Popped(q).(e := f, running := q.running + [Head(q)])) == Members(q)
            && f.seqs[Head(q)].written == f.seqs[Head(q)].computed
            && f.seqs[Head(q)].computed == Credit(q.e.pool, q.e.seqs[Head(q)], setup.blockSize)
                                        < |f.seqs[Head(q)].tokens|
            && SameIndex(q.e.pool, f.pool)
  {
    var i := Head(q);
    HeadStartable(q, blocks, setup);
    hide Reachable, Step, AllTight, Credit;
    StartEffect(q.e, i, blocks, setup);
    TightStays(q.e, Step(q.e, Start(i), setup).value, i, setup.blockSize);
    ReachableStep(q.e, Start(i), blocks, setup);
    if q.preempted != [] { HeadCounts(q.preempted); } else { HeadCounts(q.waiting); }
    PoppedMembers(q);
    assert Queued(q, i);
    hide Members;
    var r := Popped(q).(e := Step(q.e, Start(i), setup).value, running := q.running + [i]);
    forall j: nat ensures Queued(r, j) { assert Queued(q, j); }
  }

  /** An admission taken back because the step cannot fit it leaves the queues as they were. */
  lemma {:induction false} ReleaseReady(q: Queues, blocks: nat, setup: Setup)
    requires Ready(q, blocks, setup) && q.preempted + q.waiting != []
    ensures Step(q.e, Start(Head(q)), setup).Some?
    ensures var f := Step(q.e, Start(Head(q)), setup).value;
            && Enabled(f, Retire(Head(q)), setup) && Step(f, Retire(Head(q)), setup).Some?
            && OnlyChanges(q.e, Step(f, Retire(Head(q)), setup).value, Head(q))
            && SameText(q.e, Step(f, Retire(Head(q)), setup).value)
            && Ready(q.(e := Step(f, Retire(Head(q)), setup).value), blocks, setup)
            && SameIndex(q.e.pool, Step(f, Retire(Head(q)), setup).value.pool)
  {
    var i := Head(q);
    HeadStartable(q, blocks, setup);
    hide Reachable, Step, AllTight, Credit;
    StartEffect(q.e, i, blocks, setup);
    TightStays(q.e, Step(q.e, Start(i), setup).value, i, setup.blockSize);
    ReachableStep(q.e, Start(i), blocks, setup);
    var f := Step(q.e, Start(i), setup).value;
    RetireEffect(f, i, blocks, setup);
    ReachableStep(f, Retire(i), blocks, setup);
    TightStays(f, Step(f, Retire(i), setup).value, i, setup.blockSize);
    var r := q.(e := Step(f, Retire(i), setup).value);
    forall j: nat ensures Queued(r, j) { assert Queued(q, j); }
  }

  lemma {:induction false} RunningKnown(q: Queues, blocks: nat, setup: Setup)
    requires Ready(q, blocks, setup)
    ensures forall v :: v in q.running ==> v < |q.e.seqs| && q.e.seqs[v].open
    ensures forall v: nat :: v < |q.e.seqs| && q.e.seqs[v].open ==> v in q.running
  {
    forall v: nat ensures v in q.running <==> v < |q.e.seqs| && q.e.seqs[v].open {
      assert Queued(q, v);
      assert v in q.running <==> multiset(q.running)[v] > 0;
    }
  }

  /** Once everybody else has been preempted, a sequence that fits the pool can grow. */
  lemma {:induction false} LastOneFits(q: Queues, i: nat, n: nat, blocks: nat, setup: Setup)
    requires Ready(q, blocks, setup) && i in q.running && i < |q.e.seqs|
    requires forall v :: v in q.running ==> v == i || v in q.ids
    requires q.e.seqs[i].computed + n <= |q.e.seqs[i].tokens|
    ensures q.ids == {} && Needed(q.e.seqs[i].computed + n, setup.blockSize) <= blocks ==>
              CanAppend(q.e.pool, q.e.seqs[i], n, setup.blockSize)
  {
    RunningKnown(q, blocks, setup);
    hide Queued, CanAppend, Needed, Reachable;
    if q.ids == {} && Needed(q.e.seqs[i].computed + n, setup.blockSize) <= blocks {
      forall j: nat | j < |q.e.seqs| && j != i ensures q.e.seqs[j].table == [] {
        ClosedIsEmpty(q.e, j, blocks, setup);
      }
      AloneFits(q.e, i, n, blocks, setup);
    }
  }

  lemma {:induction false} ClosedIsEmpty(e: Engine, j: nat, blocks: nat, setup: Setup)
    requires setup.blockSize >= 1 && Reachable(e, blocks, setup) && j < |e.seqs| && !e.seqs[j].open
    ensures e.seqs[j].table == []
  {
    ProgressOrdered(e, j, blocks, setup);
  }

  lemma {:induction false} EmptyExactly(e: Engine, batch: seq<Item>, ids: set<nat>)
    requires BatchOk(e, batch, ids)
    ensures batch == [] <==> ids == {}
  {}

  lemma {:induction false} QueuedApart(q: Queues, blocks: nat, setup: Setup)
    requires Ready(q, blocks, setup)
    ensures forall v :: v in q.preempted ==> v !in q.running && v !in q.ids
  {
    forall v | v in q.preempted ensures v !in q.running && v !in q.ids {
      assert Queued(q, v);
      assert v in multiset(q.preempted);
    }
  }

  /** After a step has displaced everybody who ran, the head of the queue is one of them, or the old
      head of the preempted ones. */
  lemma {:induction false} HeadAfterDisplacing(q: Queues, r: Queues, victims: set<nat>, blocks: nat, setup: Setup)
    requires Ready(q, blocks, setup) && Displaced(q, r, victims, setup) && q.running != [] && r.running == []
    ensures r.preempted != []
    ensures q.preempted == [] ==> Head(r) in victims
    ensures q.preempted != [] ==> Head(r) == q.preempted[0] && Head(r) !in victims
  {
    QueuedApart(q, blocks, setup);
    assert q.running[0] in victims;
  }

  /** With nobody running, the head of the queue is admitted exactly when its length fits the pool. */
  lemma {:induction false} HeadAdmittedAlone(q: Queues, blocks: nat, setup: Setup)
    requires Ready(q, blocks, setup) && q.running == [] && q.preempted + q.waiting != []
    ensures Head(q) < |q.e.seqs|
    ensures CanAllocate(q.e.pool, q.e.seqs[Head(q)], setup.blockSize)
            <==> Needed(|q.e.seqs[Head(q)].tokens|, setup.blockSize) <= blocks
  {
    HeadKnown(q, blocks, setup);
    RunningKnown(q, blocks, setup);
    hide Queued, Reachable, CanAllocate, Needed;
    forall j: nat | j < |q.e.seqs| ensures q.e.seqs[j].table == [] {
      ClosedIsEmpty(q.e, j, blocks, setup);
    }
    AloneAdmitted(q.e, Head(q), blocks, setup);
  }

  lemma {:induction false} SnapshotDistinct(q: Queues, blocks: nat, setup: Setup)
    requires Ready(q, blocks, setup)
    ensures forall k: nat :: k < |q.running| ==> q.running[k] !in q.running[..k]
  {
    forall k: nat | k < |q.running| ensures q.running[k] !in q.running[..k] {
      var x := q.running[k];
      assert Queued(q, x);
      assert q.running == q.running[..k] + [x] + q.running[k + 1..];
    }
  }

  /** A running sequence outside the batch that passed `can_append` can be scheduled: its KV is
      written, and the growth does not run out. */
  lemma {:induction false} Growable(q: Queues, i: nat, n: nat, blocks: nat, setup: Setup)
    requires Ready(q, blocks, setup) && i in q.running && i !in q.ids && i < |q.e.seqs|
    requires CanAppend(q.e.pool, q.e.seqs[i], n, setup.blockSize)
    ensures Enabled(q.e, Schedule(i, n), setup)
  {
    assert Queued(q, i);
    assert i in multiset(q.running);
    hide Reachable, RunsOut;
    AppendTestExact(q.e, blocks, setup, i, n);
  }

  predicate IsSuffix(s: seq<nat>, t: seq<nat>) { |s| <= |t| && s == t[|t| - |s|..] }

  /** Sequences that run in `q` are as they were. */
  ghost predicate RunningKept(q: Queues, e: Engine) {
    |e.seqs| == |q.e.seqs| && forall v :: v in q.running && v < |q.e.seqs| ==> e.seqs[v] == q.e.seqs[v]
  }

  /** The queues have lost heads only, the preempted ones first; whom they lost now runs, in that
      order, and is in the batch. Those who ran already are untouched. */
  ghost predicate Drained(q: Queues, r: Queues) {
    && IsSuffix(r.preempted, q.preempted) && IsSuffix(r.waiting, q.waiting)
    && (r.preempted != [] ==> r.waiting == q.waiting) && RunningKept(q, r.e)
    && r.running == q.running + Taken(q, r) && r.ids == q.ids + Listed(Taken(q, r))
  }

  /** Whom the queues of `q` have lost in `r`. */
  function Taken(q: Queues, r: Queues): seq<nat>
    requires |r.preempted| <= |q.preempted| && |r.waiting| <= |q.waiting|
  {
    q.preempted[..|q.preempted| - |r.preempted|] + q.waiting[..|q.waiting| - |r.waiting|]
  }

  lemma DrainedSelf(q: Queues)
    ensures Drained(q, q)
  {
    assert q.running + ([] + []) == q.running;
  }

  lemma KeptMore(q: Queues, r: Queues, f: Engine)
    requires RunningKept(q, r.e) && RunningKept(r, f) && q.running <= r.running
    ensures RunningKept(q, f)
  {
    forall v | v in q.running ensures v in r.running {
      var k: nat :| k < |q.running| && q.running[k] == v;
      assert r.running[k] == v;
    }
  }

  lemma TextStays(e: Engine, f: Engine, i: nat)
    requires OnlyChanges(e, f, i) && f.seqs[i].tokens == e.seqs[i].tokens && f.seqs[i].lora == e.seqs[i].lora
    ensures SameText(e, f)
  {}

  lemma {:induction false} DrainedMore(q: Queues, r: Queues, t: Queues)
    requires Drained(q, r) && RunningKept(r, t.e)
    requires t == r.(e := t.e)
             || (r.preempted + r.waiting != []
                 && t == Popped(r).(e := t.e, running := r.running + [Head(r)], ids := r.ids + {Head(r)}))
    ensures Drained(q, t)
  {
    KeptMore(q, r, t.e);
    hide RunningKept;
    if t != r.(e := t.e) {
      TakenMore(q, r, t);
      ListedMore(Taken(q, r), Head(r));
      hide Taken, Listed, IsSuffix;
      assert q.running + (Taken(q, r) + [Head(r)]) == (q.running + Taken(q, r)) + [Head(r)];
    }
  }

  lemma {:induction false} TakenMore(q: Queues, r: Queues, t: Queues)
    requires IsSuffix(r.preempted, q.preempted) && IsSuffix(r.waiting, q.waiting)
    requires (r.preempted != [] ==> r.waiting == q.waiting) && r.preempted + r.waiting != []
    requires t.preempted == Popped(r).preempted && t.waiting == Popped(r).waiting
    ensures IsSuffix(t.preempted, q.preempted) && IsSuffix(t.waiting, q.waiting)
    ensures Taken(q, t) == Taken(q, r) + [Head(r)] && (t.preempted != [] ==> t.waiting == q.waiting)
  {
    SuffixPopped(q.preempted, r.preempted);
    SuffixPopped(q.waiting, r.waiting);
    hide IsSuffix;
    if r.preempted != [] {
      assert q.waiting[..|q.waiting| - |r.waiting|] == [];
    }
  }

  lemma ListedMore(s: seq<nat>, x: nat)
    ensures Listed(s + [x]) == Listed(s) + {x}
  {}

  lemma {:induction false} SuffixPopped(s: seq<nat>, t: seq<nat>)
    requires IsSuffix(t, s)
    ensures t == [] ==> s[..|s| - |t|] == s
    ensures t != [] ==> IsSuffix(t[1..], s) && s[..|s| - |t[1..]|] == s[..|s| - |t|] + [t[0]]
  {}

  /** What a step does to the queues: it publishes, displaces some who ran, and admits from the
      head. */
  ghost predicate Stepped(q: Queues, r: Queues, victims: set<nat>, setup: Setup)
    requires setup.blockSize >= 1
  {
    exists p: Queues, d: Queues ::
      p == q.(e := p.e) && OnlyPublished(q.e, p.e) && Displaced(p, d, victims, setup) && Drained(d, r)
  }

  ghost predicate SameProgress(e: Engine, f: Engine) {
    |f.seqs| == |e.seqs| && forall j: nat :: j < |e.seqs| ==>
      f.seqs[j].tokens == e.seqs[j].tokens && f.seqs[j].lora == e.seqs[j].lora
      && f.seqs[j].computed == e.seqs[j].computed
  }

  lemma {:induction false} HeadKnown(q: Queues, blocks: nat, setup: Setup)
    requires Ready(q, blocks, setup) && q.preempted + q.waiting != []
    ensures Head(q) < |q.e.seqs|
  {
    HeadStartable(q, blocks, setup);
  }

  lemma {:induction false} HeadAdmits(q: Queues, batch: seq<Item>, blocks: nat, setup: Setup)
    requires Ready(q, blocks, setup) && q.preempted + q.waiting != [] && BatchOk(q.e, batch, q.ids)
    ensures Head(q) !in q.ids && Step(q.e, Start(Head(q)), setup).Some?
    ensures var f := Step(q.e, Start(Head(q)), setup).value;
            && OnlyChanges(q.e, f, Head(q)) && SameText(q.e, f) && BatchOk(f, batch, q.ids)
            && Ready(Popped(q).(e := f, running := q.running + [Head(q)]), blocks, setup)
            && Members(Popped(q).(e := f, running := q.running + [Head(q)])) == Members(q)
            && f.seqs[Head(q)].written == f.seqs[Head(q)].computed
            && f.seqs[Head(q)].computed == Credit(q.e.pool, q.e.seqs[Head(q)], setup.blockSize)
                                        < |f.seqs[Head(q)].tokens|
            && SameIndex(q.e.pool, f.pool)
  {
    hide Credit;
    HeadStartable(q, blocks, setup);
    AdmitReady(q, blocks, setup);
    hide Step, Ready;
    BatchUntouched(q.e, Step(q.e, Start(Head(q)), setup).value, Head(q), batch, q.ids);
  }

  lemma {:induction false} HeadReleased(q: Queues, batch: seq<Item>, blocks: nat, setup: Setup)
    requires Ready(q, blocks, setup) && q.preempted + q.waiting != [] && BatchOk(q.e, batch, q.ids)
    ensures Head(q) !in q.ids && Step(q.e, Start(Head(q)), setup).Some?
    ensures var f := Step(q.e, Start(Head(q)), setup).value;
            && Enabled(f, Retire(Head(q)), setup) && Step(f, Retire(Head(q)), setup).Some?
            && var g := Step(f, Retire(Head(q)), setup).value;
            && OnlyChanges(q.e, g, Head(q)) && SameText(q.e, g)
            && BatchOk(g, batch, q.ids) && Ready(q.(e := g), blocks, setup) && SameIndex(q.e.pool, g.pool)
  {
    HeadStartable(q, blocks, setup);
    ReleaseReady(q, blocks, setup);
    hide Step, Ready;
    var f := Step(q.e, Start(Head(q)), setup).value;
    BatchUntouched(q.e, Step(f, Retire(Head(q)), setup).value, Head(q), batch, q.ids);
  }

  /** A sequence admitted on `can_allocate` grows by any chunk without running out. */
  lemma {:induction false} AdmittedGrows(q: Queues, n: nat, blocks: nat, setup: Setup)
    requires Ready(q, blocks, setup) && q.preempted + q.waiting != []
    requires Head(q) < |q.e.seqs| && CanAllocate(q.e.pool, q.e.seqs[Head(q)], setup.blockSize)
    ensures Step(q.e, Start(Head(q)), setup).Some?
    ensures var f := Step(q.e, Start(Head(q)), setup).value;
            Head(q) < |f.seqs| && (f.seqs[Head(q)].computed + n <= |f.seqs[Head(q)].tokens| ==>
              Enabled(f, Schedule(Head(q), n), setup))
  {
    var i := Head(q);
    HeadStartable(q, blocks, setup);
    hide Reachable, Step, RunsOut, Admit, CanAllocate, AllTight, Credit;
    StartEffect(q.e, i, blocks, setup);
    AdmissionTestExact(q.e, blocks, setup, i, n);
  }

  lemma {:induction false} ForwardReady(q: Queues, i: nat, blocks: nat, setup: Setup)
    requires Ready(q, blocks, setup) && i < |q.e.seqs|
    ensures Step(q.e, Forward(i), setup).Some?
    ensures var f := Step(q.e, Forward(i), setup).value;
            SameProgress(q.e, f) && OnlyChanges(q.e, f, i) && Ready(q.(e := f, ids := q.ids - {i}), blocks, setup)
  {
    hide Reachable, Step, AllTight;
    ForwardEffect(q.e, i, blocks, setup);
    TightStays(q.e, Step(q.e, Forward(i), setup).value, i, setup.blockSize);
    ReachableStep(q.e, Forward(i), blocks, setup);
    var r := q.(e := Step(q.e, Forward(i), setup).value, ids := q.ids - {i});
    forall j: nat ensures Queued(r, j) { assert Queued(q, j); }
  }

  lemma {:induction false} QueueReady(q: Queues, lora: int, prompt: seq<Token>, place: nat, queue: seq<nat>,
                                      blocks: nat, setup: Setup)
    requires Ready(q, blocks, setup) && prompt != [] && place <= |q.waiting|
    requires queue == q.waiting[..place] + [|q.e.seqs|] + q.waiting[place..]
    ensures Step(q.e, Queue(lora, prompt), setup).Some?
    ensures var f := Step(q.e, Queue(lora, prompt), setup).value;
            var r := q.(e := f, waiting := queue);
            && Ready(r, blocks, setup) && Members(r) == Members(q) + {|q.e.seqs|} && |q.e.seqs| !in Members(q)
            && f.seqs == q.e.seqs + [Waiting(lora, prompt)]
  {
    hide Reachable;
    var i := |q.e.seqs|;
    ReachableStep(q.e, Queue(lora, prompt), blocks, setup);
    var f := Step(q.e, Queue(lora, prompt), setup).value;
    var r := q.(e := f, waiting := queue);
    assert q.waiting == q.waiting[..place] + q.waiting[place..];
    assert multiset(r.waiting) == multiset(q.waiting) + multiset{i};
    assert Listed(r.waiting) == Listed(q.waiting) + {i};
    MembersKnown(q, blocks, setup);
    hide Listed;
    assert Needed(0, setup.blockSize) == 0;
    forall j: nat ensures Queued(r, j) { assert Queued(q, j); }
  }

  lemma {:induction false} MembersKnown(q: Queues, blocks: nat, setup: Setup)
    requires Ready(q, blocks, setup)
    ensures forall v :: v in Members(q) ==> v < |q.e.seqs|
  {
    forall v | v in Members(q) ensures v < |q.e.seqs| {
      assert Queued(q, v);
      assert v in multiset(q.running) || v in multiset(q.preempted) || v in multiset(q.waiting);
    }
  }

  lemma {:induction false} SampleReady(q: Queues, i: nat, token: Token, blocks: nat, setup: Setup)
    requires Ready(q, blocks, setup) && i < |q.e.seqs|
    ensures Ready(q.(e := Step(q.e, Sample(i, token), setup).value), blocks, setup)
  {
    hide Reachable, AllTight;
    ReachableStep(q.e, Sample(i, token), blocks, setup);
    TightStays(q.e, Step(q.e, Sample(i, token), setup).value, i, setup.blockSize);
    var r := q.(e := Step(q.e, Sample(i, token), setup).value);
    forall j: nat ensures Queued(r, j) { assert Queued(q, j); }
  }

  /** Retiring a sequence; the policy may order what is left waiting anew. */
  lemma {:induction false} FinishReady(q: Queues, i: nat, order: seq<nat>, blocks: nat, setup: Setup)
    requires Ready(q, blocks, setup) && i < |q.e.seqs| && i !in q.ids
    requires multiset(order) == multiset(q.waiting)[i := 0]
    ensures Enabled(q.e, Retire(i), setup) && Step(q.e, Retire(i), setup).Some?
    ensures var f := Step(q.e, Retire(i), setup).value;
            var r := Queues(f, Without(q.running, i), Without(q.preempted, i), order, q.ids);
            && OnlyChanges(q.e, f, i) && SameText(q.e, f) && f.seqs[i].table == []
            && Ready(r, blocks, setup) && Members(r) == Members(q) - {i}
  {
    hide Reachable, Step, AllTight;
    assert Queued(q, i);
    RetireEffect(q.e, i, blocks, setup);
    TightStays(q.e, Step(q.e, Retire(i), setup).value, i, setup.blockSize);
    ReachableStep(q.e, Retire(i), blocks, setup);
    WithoutCounts(q.running, i);
    WithoutCounts(q.preempted, i);
    var f := Step(q.e, Retire(i), setup).value;
    var r := Queues(f, Without(q.running, i), Without(q.preempted, i), order, q.ids);
    FinishedMembers(q, i, order, f);
    hide Members;
    forall j: nat ensures Queued(r, j) { assert Queued(q, j); }
  }

  lemma {:induction false} FinishedMembers(q: Queues, i: nat, order: seq<nat>, f: Engine)
    requires multiset(order) == multiset(q.waiting)[i := 0]
    ensures Members(Queues(f, Without(q.running, i), Without(q.preempted, i), order, q.ids)) == Members(q) - {i}
  {
    WithoutShorter(q.running, i);
    WithoutShorter(q.preempted, i);
    forall j: nat ensures j in order <==> j in q.waiting && j != i {
      assert j in order <==> multiset(order)[j] > 0;
      assert j in q.waiting <==> multiset(q.waiting)[j] > 0;
    }
  }

  lemma {:induction false} WithoutShorter(s: seq<nat>, x: nat)
    ensures |Without(s, x)| <= |s|
    ensures x in s ==> |Without(s, x)| < |s|
    ensures forall y :: y in Without(s, x) <==> y in s && y != x
  {
    if s != [] { WithoutShorter(s[1..], x); }
  }

  // ---- what a step means for one sequence ---------------------------------------------------

  /** Whoever ran is a victim, or runs on no further back, with nothing written yet. */
  lemma {:induction false} SteppedRunning(q: Queues, r: Queues, victims: set<nat>, v: nat, setup: Setup)
    requires setup.blockSize >= 1 && Stepped(q, r, victims, setup) && v in q.running && v < |q.e.seqs|
    ensures v < |r.e.seqs|
    ensures v in victims || (v in r.running && Place(r.running, v) <= Place(q.running, v)
                             && r.e.seqs[v].written == q.e.seqs[v].written)
  {
    hide OnlyPublished, Displaced, Drained;
    var p: Queues, d: Queues :|
      p == q.(e := p.e) && OnlyPublished(q.e, p.e) && Displaced(p, d, victims, setup) && Drained(d, r);
    PublishedAt(q.e, p.e, v);
    DisplacedAt(p, d, victims, v, setup);
    DrainedAt(d, r, v);
  }

  lemma PublishedAt(e: Engine, f: Engine, v: nat)
    requires OnlyPublished(e, f) && v < |e.seqs|
    ensures v < |f.seqs| && f.seqs[v] == e.seqs[v].(published := f.seqs[v].published)
  {}

  lemma DisplacedAt(p: Queues, d: Queues, victims: set<nat>, v: nat, setup: Setup)
    requires setup.blockSize >= 1 && Displaced(p, d, victims, setup) && v in p.running && v < |p.e.seqs|
    ensures v < |d.e.seqs|
    ensures v in victims || (v in d.running && Place(d.running, v) <= Place(p.running, v)
                             && d.e.seqs[v].written == p.e.seqs[v].written)
  {}

  lemma {:induction false} DrainedAt(d: Queues, r: Queues, v: nat)
    requires Drained(d, r) && v < |d.e.seqs|
    ensures v < |r.e.seqs|
    ensures v in d.running ==>
              v in r.running && Place(r.running, v) == Place(d.running, v) && r.e.seqs[v] == d.e.seqs[v]
  {
    PlaceAppend(d.running, Taken(d, r), v);
  }
}
