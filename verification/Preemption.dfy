/** Whom a step of the scheduler preempts, and when: the running sequences' turns in order, each of
    them making room by lowest priority first, then newest
    (src/turboserve/engine/core/scheduler.py:482-545, 748-786). */
module Preemption {
  import opened Prelude
  import opened KvBlocks
  import opened KvSharing
  import opened KvEngine
  import opened EngineEffects
  import opened SchedulerState
  import opened Stalls

  /** How far a step has come: whom it scheduled and preempted, and what is left of its limits. */
  datatype Assembly = Assembly(ids: set<nat>, victims: set<nat>, tokensLeft: nat, seqsLeft: nat, chunked: bool)

  predicate Precedes(priority: seq<int>, v: nat, w: nat) {
    v < |priority| && w < |priority|
    && (priority[v] < priority[w] || (priority[v] == priority[w] && v > w))
  }

  // ---- making room --------------------------------------------------------------------------

  function Retirements(tail: seq<nat>): seq<Action> {
    seq(|tail|, j requires 0 <= j < |tail| => Retire(tail[j]))
  }

  function Remaining(running: seq<nat>, tail: seq<nat>): seq<nat> {
    if tail == [] then running else Without(Remaining(running, tail[..|tail| - 1]), tail[|tail| - 1])
  }

  /** Each of `tail` in turn was, of those still running outside the batch, the one of lowest priority
      and, among these, the newest; `i`, for whom the room is made, only when it was the only one. */
  ghost predicate LeastFirst(priority: seq<int>, running: seq<nat>, ids: set<nat>, i: nat, tail: seq<nat>) {
    forall j: nat :: j < |tail| ==>
      && tail[j] in running && tail[j] !in ids && tail[j] !in tail[..j]
      && forall w :: w in running && w !in ids && w !in tail[..j + 1] && w != i ==>
           && tail[j] != i && tail[j] < |priority| && w < |priority|
           && (priority[tail[j]] < priority[w] || (priority[tail[j]] == priority[w] && tail[j] > w))
  }

  /** With those of `tail` preempted there is still no room for `n` tokens of sequence `i`. */
  ghost predicate ShortAfter(e: Engine, tail: seq<nat>, i: nat, n: nat, setup: Setup)
    requires setup.blockSize >= 1
  {
    var f := Run(e, Retirements(tail), setup);
    f.Some? && i < |f.value.seqs| && !CanAppend(f.value.pool, f.value.seqs[i], n, setup.blockSize)
  }

  /** Preempting `tail`, least first and each only because there was no room yet, leads from `q` to `r`. */
  ghost predicate MakingRoom(priority: seq<int>, q: Queues, r: Queues, i: nat, n: nat, tail: seq<nat>, setup: Setup)
    requires setup.blockSize >= 1
  {
    && LeastFirst(priority, q.running, q.ids, i, tail)
    && r == Queues(r.e, Remaining(q.running, tail), q.preempted + tail, q.waiting, q.ids)
    && Run(q.e, Retirements(tail), setup) == Some(r.e)
    && ShortThroughout(q.e, tail, i, n, setup)
  }

  ghost predicate ShortThroughout(e: Engine, tail: seq<nat>, i: nat, n: nat, setup: Setup)
    requires setup.blockSize >= 1
  {
    forall j: nat :: j < |tail| ==> ShortAfter(e, tail[..j], i, n, setup)
  }

  lemma ShortNext(e: Engine, tail: seq<nat>, v: nat, i: nat, n: nat, setup: Setup)
    requires setup.blockSize >= 1 && ShortThroughout(e, tail, i, n, setup) && ShortAfter(e, tail, i, n, setup)
    ensures ShortThroughout(e, tail + [v], i, n, setup)
  {
    hide ShortAfter;
    var more := tail + [v];
    forall j: nat | j < |more| ensures ShortAfter(e, more[..j], i, n, setup) {
      assert more[..j] == tail[..j];
      if j == |tail| { assert tail[..j] == tail; }
    }
  }

  /** It ends as soon as there is room, or with `i` itself. */
  ghost predicate MadeRoom(priority: seq<int>, q: Queues, r: Queues, i: nat, n: nat, tail: seq<nat>, setup: Setup)
    requires setup.blockSize >= 1
  {
    && MakingRoom(priority, q, r, i, n, tail, setup)
    && (i !in tail ==> i < |r.e.seqs| && CanAppend(r.e.pool, r.e.seqs[i], n, setup.blockSize))
  }

  lemma NobodyYet(priority: seq<int>, q: Queues, i: nat, n: nat, setup: Setup)
    requires setup.blockSize >= 1
    ensures MakingRoom(priority, q, q, i, n, [], setup)
  {
    assert q.preempted + [] == q.preempted;
  }

  lemma {:induction false} RemainingHas(running: seq<nat>, tail: seq<nat>)
    ensures forall w :: w in Remaining(running, tail) <==> w in running && w !in tail
  {
    if tail != [] {
      var n := |tail| - 1;
      RemainingHas(running, tail[..n]);
      WithoutShorter(Remaining(running, tail[..n]), tail[n]);
      assert tail == tail[..n] + [tail[n]];
    }
  }

  lemma RemainingNext(running: seq<nat>, tail: seq<nat>, v: nat)
    ensures Remaining(running, tail + [v]) == Without(Remaining(running, tail), v)
  {
    hide Without;
    assert (tail + [v])[..|tail|] == tail;
  }

  lemma RetirementsNext(tail: seq<nat>, v: nat)
    ensures Retirements(tail + [v]) == Retirements(tail) + [Retire(v)]
  {}

  lemma {:induction false} LeastNext(priority: seq<int>, running: seq<nat>, ids: set<nat>, i: nat, tail: seq<nat>,
                                     v: nat)
    requires LeastFirst(priority, running, ids, i, tail) && v in running && v !in ids && v !in tail
    requires forall w :: w in running && w !in ids && w !in tail && w != i && w != v ==>
               v != i && Precedes(priority, v, w)
    ensures LeastFirst(priority, running, ids, i, tail + [v])
  {
    var more := tail + [v];
    forall j: nat | j < |more|
      ensures more[j] in running && more[j] !in ids && more[j] !in more[..j]
      ensures forall w :: w in running && w !in ids && w !in more[..j + 1] && w != i ==>
                more[j] != i && Precedes(priority, more[j], w)
    {
      assert more[..j] == tail[..j];
      if j < |tail| { assert more[..j + 1] == tail[..j + 1]; }
      else { assert more[..j + 1] == tail + [v]; }
    }
  }

  lemma {:induction false} OneMore(priority: seq<int>, q: Queues, r: Queues, i: nat, n: nat, tail: seq<nat>, v: nat,
                                   f: Engine, setup: Setup)
    requires setup.blockSize >= 1 && MakingRoom(priority, q, r, i, n, tail, setup)
    requires i < |r.e.seqs| && !CanAppend(r.e.pool, r.e.seqs[i], n, setup.blockSize)
    requires v in r.running && v !in r.ids && Step(r.e, Retire(v), setup) == Some(f)
    requires forall w :: w in r.running && w !in r.ids && w != i && w != v ==> v != i && Precedes(priority, v, w)
    ensures MakingRoom(priority, q, Preempted(r, v, f), i, n, tail + [v], setup)
  {
    hide Step, CanAppend, Run, Precedes, Remaining, Without, Retirements, LeastFirst, ShortThroughout;
    RemainingHas(q.running, tail);
    LeastNext(priority, q.running, q.ids, i, tail, v);
    RemainingNext(q.running, tail, v);
    RetirementsNext(tail, v);
    RunAppend(q.e, Retirements(tail), Retire(v), setup);
    assert q.preempted + (tail + [v]) == q.preempted + tail + [v];
    ShortNext(q.e, tail, v, i, n, setup);
  }

  lemma StillThere(priority: seq<int>, q: Queues, r: Queues, i: nat, n: nat, tail: seq<nat>, setup: Setup)
    requires setup.blockSize >= 1 && MakingRoom(priority, q, r, i, n, tail, setup)
    ensures i in r.running ==> i !in tail
  {
    RemainingHas(q.running, tail);
    hide Remaining, Run, LeastFirst;
  }

  // ---- turns --------------------------------------------------------------------------------

  datatype Turn = Turn(q: Queues, a: Assembly)

  /** One running sequence's turn. It does nothing if the sequence was preempted before it, or the rest
      of the step cannot carry its next tokens. Otherwise room is made, and unless it went itself the
      sequence is scheduled. */
  ghost predicate TurnTaken(priority: seq<int>, s: Turn, t: Turn, i: nat, limits: Limits, setup: Setup)
    requires setup.blockSize >= 1
  {
    if i !in s.q.running then t == s
    else
      && i < |s.q.e.seqs|
      && var n := NextTokens(s.q.e.seqs[i], s.a.tokensLeft);
         if n == 0 || (!limits.chunked && n < Uncomputed(s.q.e.seqs[i])) then t == s
         else exists m, tail :: RoomTaken(priority, s, m, t, i, n, tail, setup)
  }

  /** After `tail` is preempted the state is `m`; sequence `i` is then scheduled if it still runs. */
  ghost predicate RoomTaken(priority: seq<int>, s: Turn, m: Queues, t: Turn, i: nat, n: nat, tail: seq<nat>,
                            setup: Setup)
    requires setup.blockSize >= 1
  {
    && MadeRoom(priority, s.q, m, i, n, tail, setup)
    && if i in tail then t == Turn(m, s.a.(victims := s.a.victims + Listed(tail)))
       else
         && Step(m.e, Schedule(i, n), setup) == Some(t.q.e)
         && t.q == m.(e := t.q.e, ids := m.ids + {i})
         && s.a.tokensLeft >= n && s.a.seqsLeft >= 1
         && t.a == Assembly(s.a.ids + {i}, s.a.victims + Listed(tail), s.a.tokensLeft - n, s.a.seqsLeft - 1,
                            s.a.chunked)
  }

  lemma TurnPassed(priority: seq<int>, s: Turn, i: nat, limits: Limits, setup: Setup)
    requires setup.blockSize >= 1
    requires i in s.q.running ==>
               && i < |s.q.e.seqs|
               && var n := NextTokens(s.q.e.seqs[i], s.a.tokensLeft);
                  n == 0 || (!limits.chunked && n < Uncomputed(s.q.e.seqs[i]))
    ensures TurnTaken(priority, s, s, i, limits, setup)
  {
    hide NextTokens, Uncomputed, RoomTaken;
  }

  lemma TurnGivenUp(priority: seq<int>, s: Turn, m: Queues, i: nat, n: nat, tail: seq<nat>, limits: Limits,
                    setup: Setup)
    requires setup.blockSize >= 1 && MadeRoom(priority, s.q, m, i, n, tail, setup) && i in tail
    requires i in s.q.running && i < |s.q.e.seqs| && n == NextTokens(s.q.e.seqs[i], s.a.tokensLeft) != 0
    requires limits.chunked || n >= Uncomputed(s.q.e.seqs[i])
    ensures TurnTaken(priority, s, Turn(m, s.a.(victims := s.a.victims + Listed(tail))), i, limits, setup)
  {
    hide MadeRoom, NextTokens, Uncomputed, Step;
    assert RoomTaken(priority, s, m, Turn(m, s.a.(victims := s.a.victims + Listed(tail))), i, n, tail, setup);
  }

  lemma TurnUsed(priority: seq<int>, s: Turn, m: Queues, f: Engine, i: nat, n: nat, tail: seq<nat>, limits: Limits,
                 setup: Setup)
    requires setup.blockSize >= 1 && MadeRoom(priority, s.q, m, i, n, tail, setup) && i !in tail
    requires i in s.q.running && i < |s.q.e.seqs| && n == NextTokens(s.q.e.seqs[i], s.a.tokensLeft) != 0
    requires limits.chunked || n >= Uncomputed(s.q.e.seqs[i])
    requires Step(m.e, Schedule(i, n), setup) == Some(f) && s.a.tokensLeft >= n && s.a.seqsLeft >= 1
    ensures TurnTaken(priority, s,
                      Turn(m.(e := f, ids := m.ids + {i}),
                           Assembly(s.a.ids + {i}, s.a.victims + Listed(tail), s.a.tokensLeft - n, s.a.seqsLeft - 1,
                                    s.a.chunked)), i, limits, setup)
  {
    hide MadeRoom, NextTokens, Uncomputed, Step;
    var t := Turn(m.(e := f, ids := m.ids + {i}),
                  Assembly(s.a.ids + {i}, s.a.victims + Listed(tail), s.a.tokensLeft - n, s.a.seqsLeft - 1,
                           s.a.chunked));
    assert RoomTaken(priority, s, m, t, i, n, tail, setup);
  }

  /** The turns of those in `running`, in that order and as long as neither limit is used up. */
  ghost predicate InTurn(priority: seq<int>, running: seq<nat>, course: seq<Turn>, limits: Limits, setup: Setup)
    requires setup.blockSize >= 1
  {
    && 0 < |course| <= |running| + 1
    && forall k: nat :: k < |course| - 1 ==>
         && course[k].a.tokensLeft > 0 && course[k].a.seqsLeft > 0
         && TurnTaken(priority, course[k], course[k + 1], running[k], limits, setup)
  }

  ghost predicate AllTurns(priority: seq<int>, running: seq<nat>, s: Turn, course: seq<Turn>, t: Turn,
                           limits: Limits, setup: Setup)
    requires setup.blockSize >= 1
  {
    && InTurn(priority, running, course, limits, setup) && course[0] == s && course[|course| - 1] == t
    && (|course| == |running| + 1 || t.a.tokensLeft == 0 || t.a.seqsLeft == 0)
  }

  lemma CourseBegun(priority: seq<int>, running: seq<nat>, s: Turn, limits: Limits, setup: Setup)
    requires setup.blockSize >= 1
    ensures InTurn(priority, running, [s], limits, setup)
  {}

  lemma CourseMore(priority: seq<int>, running: seq<nat>, course: seq<Turn>, t: Turn, limits: Limits, setup: Setup)
    requires setup.blockSize >= 1 && InTurn(priority, running, course, limits, setup) && |course| <= |running|
    requires course[|course| - 1].a.tokensLeft > 0 && course[|course| - 1].a.seqsLeft > 0
    requires TurnTaken(priority, course[|course| - 1], t, running[|course| - 1], limits, setup)
    ensures InTurn(priority, running, course + [t], limits, setup)
  {
    hide TurnTaken;
  }

  /** The turns of a step that starts from `p` with its limits whole lead to `d`. */
  ghost predicate StepTurns(priority: seq<int>, p: Queues, d: Queues, victims: set<nat>, course: seq<Turn>,
                            limits: Limits, setup: Setup)
    requires setup.blockSize >= 1
  {
    && 0 < |course| && course[|course| - 1].q == d && course[|course| - 1].a.victims == victims
    && AllTurns(priority, p.running, Turn(p, Assembly({}, {}, limits.maxTokens, limits.maxSeqs, limits.chunked)),
                course, course[|course| - 1], limits, setup)
  }

  lemma StepTaken(priority: seq<int>, p: Queues, course: seq<Turn>, t: Turn, limits: Limits, setup: Setup)
    requires setup.blockSize >= 1
    requires AllTurns(priority, p.running,
                      Turn(p, Assembly({}, {}, limits.maxTokens, limits.maxSeqs, limits.chunked)), course, t, limits,
                      setup)
    ensures StepTurns(priority, p, t.q, t.a.victims, course, limits, setup)
  {
    hide TurnTaken;
  }

  /** The queues once the running sequences have been offered to the cache. */
  ghost function Published(q: Queues, setup: Setup): Queues
    requires setup.blockSize >= 1
  {
    q.(e := AllPublished(q.e, q.running, setup))
  }

  /** A step from `q` to `r`: the running sequences' turns, then admissions. */
  ghost predicate TurnsBefore(priority: seq<int>, q: Queues, r: Queues, victims: set<nat>, limits: Limits, setup: Setup)
    requires setup.blockSize >= 1
  {
    exists d, course :: StepTurns(priority, Published(q, setup), d, victims, course, limits, setup) && Drained(d, r)
  }

  /** Whoever ran at first still runs or is a victim, and the batch so far is in `ids`. */
  ghost predicate Kept(running: seq<nat>, t: Turn) {
    && t.q.ids == t.a.ids
    && forall v :: v in running ==> v in t.q.running || v in t.a.victims
  }

  /** No inversion: once `w` has been preempted, whoever precedes it has been too, or is in the batch. */
  ghost predicate NoInversion(priority: seq<int>, running: seq<nat>, a: Assembly) {
    forall v, w :: w in a.victims && v in running && Precedes(priority, v, w) ==> v in a.victims || v in a.ids
  }

  lemma LeastOf(priority: seq<int>, running: seq<nat>, ids: set<nat>, i: nat, tail: seq<nat>, v: nat, w: nat)
    requires LeastFirst(priority, running, ids, i, tail) && w in tail
    requires v in running && v !in ids && v !in tail && v != i
    ensures !Precedes(priority, v, w)
  {
    var j: nat :| j < |tail| && tail[j] == w;
    assert forall k :: 0 <= k < j + 1 ==> tail[..j + 1][k] == tail[k];
  }

  lemma {:induction false} TurnKeepsOrder(priority: seq<int>, running: seq<nat>, s: Turn, t: Turn, i: nat,
                                          limits: Limits, setup: Setup)
    requires setup.blockSize >= 1 && TurnTaken(priority, s, t, i, limits, setup)
    requires Kept(running, s) && NoInversion(priority, running, s.a)
    ensures Kept(running, t) && NoInversion(priority, running, t.a)
  {
    hide Step, CanAppend, Run, NextTokens, Uncomputed, ShortAfter, Precedes, LeastFirst, Remaining;
    if t != s {
      var n := NextTokens(s.q.e.seqs[i], s.a.tokensLeft);
      var m, tail :| RoomTaken(priority, s, m, t, i, n, tail, setup);
      RemainingHas(s.q.running, tail);
      forall v, w | w in t.a.victims && v in running && Precedes(priority, v, w)
        ensures v in t.a.victims || v in t.a.ids
      {
        if w !in s.a.victims && v !in s.a.victims && v !in s.q.ids && v !in tail && v != i {
          LeastOf(priority, s.q.running, s.q.ids, i, tail, v, w);
        }
      }
    }
  }

  /** Over all turns of a step nobody is preempted while somebody of lower priority, or as low and newer,
      goes on running outside the batch. */
  lemma {:induction false} LeastGoFirst(priority: seq<int>, running: seq<nat>, course: seq<Turn>, limits: Limits,
                                        setup: Setup)
    requires setup.blockSize >= 1 && InTurn(priority, running, course, limits, setup)
    requires course[0].q.running == running && course[0].q.ids == course[0].a.ids == course[0].a.victims == {}
    ensures Kept(running, course[|course| - 1]) && NoInversion(priority, running, course[|course| - 1].a)
    decreases |course|
  {
    if |course| > 1 {
      var most := course[..|course| - 1];
      LeastGoFirst(priority, running, most, limits, setup);
      TurnKeepsOrder(priority, running, most[|most| - 1], course[|course| - 1], running[|most| - 1], limits, setup);
    }
  }

  /** In a whole step nobody is preempted while somebody of lower priority, or as low and newer, who ran
      too is left out of the batch without being preempted. */
  lemma {:induction false} StepPreemptsLeast(priority: seq<int>, q: Queues, r: Queues, victims: set<nat>,
                                             limits: Limits, setup: Setup, v: nat, w: nat)
    requires setup.blockSize >= 1 && TurnsBefore(priority, q, r, victims, limits, setup) && q.ids == {}
    requires w in victims && v in q.running && v < |priority| && w < |priority|
    requires priority[v] < priority[w] || (priority[v] == priority[w] && v > w)
    ensures v in victims || v in r.ids
  {
    hide AllPublished, InTurn, RunningKept;
    var d, course :| StepTurns(priority, Published(q, setup), d, victims, course, limits, setup) && Drained(d, r);
    LeastGoFirst(priority, q.running, course, limits, setup);
  }
}
