/** Sampling over the steps of the scheduler: from where a text's next token is sampled, and a request
    for which a token is sampled in the middle (src/turboserve/engine/core/scheduler.py:152-159, 606-745). */
module SampledRuns {
  import opened Prelude
  import opened KvBlocks
  import opened KvSharing
  import opened KvEngine
  import opened EngineEffects
  import opened SchedulerState
  import opened Stalls
  import opened Sampling
  import opened Preemption
  import opened BatchScheduler
  import opened StallRuns

  /** Nothing past the prompt is left to compute but the last token. */
  predicate CaughtUp(s: Live, prompt: nat) { |s.tokens| == prompt || Uncomputed(s) <= 1 }

  /** Whatever the step: a request that has sampled nothing yet, or runs on with one token uncomputed,
      samples its next token `x` from the end of its text, and has one token uncomputed afterwards. */
  lemma {:induction false} SamplesInOrder(q: Queues, r: Queues, batch: seq<Item>, a: Assembly, k: nat, prompt: nat,
                                          x: Token, limits: Limits, blocks: nat, setup: Setup)
    requires setup.blockSize >= 1 && Ready(q, blocks, setup) && q.ids == {} && k < |batch|
    requires StepDone(q, r, batch, a, limits, blocks, setup)
    requires var i := batch[k].seqIndex;
             i < |q.e.seqs| && CaughtUp(q.e.seqs[i], prompt) && (i in q.running || |q.e.seqs[i].tokens| == prompt)
    ensures batch[k].seqIndex < |r.e.seqs| && SamplesAtEnd(r.e, batch[k], prompt)
    ensures var s := r.e.seqs[batch[k].seqIndex];
            CaughtUp(if SamplesToken(r.e, batch[k], prompt) then s.(tokens := s.tokens + [x]) else s, prompt)
  {
    hide Ready, Stepped, Admissible, Stuck, Demand, FirstServed, Considered, SameText, CaughtUp, SamplesAtEnd,
         SamplesToken, FromScratch, Tokens;
    ItemStart(q, r, batch, a, k, limits, blocks, setup);
    ChunkInOrder(q.e, r.e, batch[k], prompt, x, batch[k].seqIndex in q.running);
  }

  lemma {:induction false} ItemStart(q: Queues, r: Queues, batch: seq<Item>, a: Assembly, k: nat, limits: Limits,
                                     blocks: nat, setup: Setup)
    requires setup.blockSize >= 1 && Ready(q, blocks, setup) && q.ids == {} && k < |batch|
    requires StepDone(q, r, batch, a, limits, blocks, setup) && batch[k].seqIndex < |q.e.seqs|
    ensures var i := batch[k].seqIndex;
            && i < |r.e.seqs| && r.e.seqs[i].tokens == q.e.seqs[i].tokens && Pending(r.e, batch[k])
            && r.e.seqs[i].computed <= |r.e.seqs[i].tokens|
            && (i in q.running ==> r.e.seqs[i].written == q.e.seqs[i].computed)
  {
    var i := batch[k].seqIndex;
    hide Ready, Stepped, Admissible, Stuck, Demand, FirstServed, Considered, SameText, FromScratch, Tokens, Filled;
    SameTextAt(q.e, r.e, i);
    assert Pending(r.e, batch[k]);
    ComputedBounds(r, i, blocks, setup);
    if i in q.running {
      SteppedRunning(q, r, a.victims, i, setup);
      ComputedBounds(q, i, blocks, setup);
    }
  }

  lemma {:induction false} ChunkInOrder(e: Engine, f: Engine, y: Item, prompt: nat, x: Token, ran: bool)
    requires y.seqIndex < |e.seqs| && y.seqIndex < |f.seqs| && Pending(f, y)
    requires f.seqs[y.seqIndex].tokens == e.seqs[y.seqIndex].tokens
    requires f.seqs[y.seqIndex].computed <= |f.seqs[y.seqIndex].tokens|
    requires ran ==> f.seqs[y.seqIndex].written == e.seqs[y.seqIndex].computed
    requires CaughtUp(e.seqs[y.seqIndex], prompt) && (ran || |e.seqs[y.seqIndex].tokens| == prompt)
    ensures SamplesAtEnd(f, y, prompt)
    ensures var s := f.seqs[y.seqIndex];
            CaughtUp(if SamplesToken(f, y, prompt) then s.(tokens := s.tokens + [x]) else s, prompt)
  {}

  /** A step in which a resumed request is alone: it computes at most two of its three tokens. */
  lemma {:induction false} ResumedAlone(q: Queues, r: Queues, batch: seq<Item>, a: Assembly, limits: Limits)
    requires TwoAStep(limits) && limits.chunked && Ready(q, 4, FOUR) && StepDone(q, r, batch, a, limits, 4, FOUR)
    requires q.running == [] && q.preempted == [1] && q.waiting == [] && q.ids == {} && |q.e.seqs| == 2
    requires |q.e.seqs[1].tokens| == 3
    ensures |r.e.seqs| == 2 && |r.e.seqs[1].tokens| == 3 && 1 <= r.e.seqs[1].computed <= 2
    ensures exists x :: x in batch && x.seqIndex == 1
  {
    AloneFitting(q, limits);
    hide Ready, Admissible, Stuck, Stepped, FirstServed, Considered, Demand, SameText;
    SameTextAt(q.e, r.e, 1);
    SameCount(q.e, r.e);
    EmptyExactly(r.e, batch, r.ids);
    OnlyMember(q, r);
    CountOf(r, batch, 1);
    NobodyListed();
    var k: nat :| k < |batch| && batch[k].seqIndex == 1;
    assert batch[k] in batch;
  }

  lemma NobodyListed()
    ensures Listed([]) == {}
  {}

  lemma {:induction false} AloneFitting(q: Queues, limits: Limits)
    requires TwoAStep(limits) && limits.chunked && Ready(q, 4, FOUR)
    requires q.running == [] && q.preempted == [1] && q.waiting == [] && q.ids == {} && |q.e.seqs| == 2
    requires |q.e.seqs[1].tokens| == 3
    ensures !Stuck(q, limits, 4, FOUR)
  {
    hide Ready, Needed, Stuck;
    NeededOne(3);
    assert q.preempted[0] in Members(q);
    FittingNeverStuck(q, limits, 4, FOUR);
  }

  lemma {:induction false} OnlyMember(q: Queues, r: Queues)
    requires q.running == [] && q.preempted == [1] && q.waiting == [] && Members(r) == Members(q)
    requires Ready(r, 4, FOUR) && r.ids != {}
    ensures r.ids == {1}
  {
    forall v | v in r.ids ensures v == 1 {
      assert Queued(r, v);
      assert v in multiset(r.running);
      assert v in Members(r);
    }
    var v :| v in r.ids;
  }

  /** A request of one token runs, samples two, is preempted for another one and resumes when that has
      finished, two tokens a step. Its chunk ends past its prompt, so a token is sampled, although
      one of its text is left to compute. */
  method SampledInTheMiddle(t: Token, u: Token) returns (s: Scheduler, sampling: seq<nat>)
    ensures s.Idle() && s.prompts == [1, 1] && 1 in sampling && |s.e.seqs| == 2
    ensures s.prompts[1] <= s.e.seqs[1].computed < |s.e.seqs[1].tokens|
  {
    hide TurnsBefore, Ready, BatchOk, StepDone, Tokens, SameText, Members, Samplers, Scheduler.Building;
    var limits := Limits(2, 2, true);
    s := SecondLeft(t, u, limits);
    ghost var q := s.State();
    Standing(s);
    s.ScheduleStep();
    ResumedAlone(q, s.State(), s.batch, s.Progress(), limits);
    SamplersExactly(s.e, s.batch, s.prompts, 1);
    sampling := s.Execute();
  }
}
