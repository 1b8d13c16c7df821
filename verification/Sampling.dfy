/** Which items of a batch sample a token, and whether that is the next one of their text
    (src/turboserve/engine/core/scheduler.py:152-159, 713-745). */
module Sampling {
  import opened Prelude
  import opened KvBlocks
  import opened KvSharing
  import opened KvEngine
  import opened EngineEffects
  import opened SchedulerState
  import opened Stalls

  // ---- how a batch is filled ----------------------------------------------------------------

  /** All the sequence's tokens are computed or scheduled. */
  predicate AllScheduled(e: Engine, i: nat) { i < |e.seqs| && e.seqs[i].computed == |e.seqs[i].tokens| }

  /** Every item takes all its sequence has left, except that the last may use up the token budget. */
  ghost predicate Filled(e: Engine, batch: seq<Item>, tokensLeft: nat) {
    forall k: nat :: k < |batch| ==>
      AllScheduled(e, batch[k].seqIndex) || (k == |batch| - 1 && tokensLeft == 0)
  }

  lemma FilledByNobody(e: Engine, tokensLeft: nat)
    ensures Filled(e, [], tokensLeft)
  {}

  lemma FilledUntouched(e: Engine, f: Engine, i: nat, batch: seq<Item>, ids: set<nat>, tokensLeft: nat)
    requires Filled(e, batch, tokensLeft) && BatchOk(e, batch, ids) && OnlyChanges(e, f, i) && i !in ids
    ensures Filled(f, batch, tokensLeft)
  {
    forall k: nat | k < |batch|
      ensures AllScheduled(f, batch[k].seqIndex) || (k == |batch| - 1 && tokensLeft == 0)
    {
      assert batch[k].seqIndex in ids;
    }
  }

  lemma {:induction false} FilledMore(e: Engine, f: Engine, i: nat, n: nat, batch: seq<Item>, ids: set<nat>,
                                      tokensLeft: nat)
    requires Filled(e, batch, tokensLeft) && BatchOk(e, batch, ids) && OnlyChanges(e, f, i) && i !in ids
    requires 1 <= n == NextTokens(e.seqs[i], tokensLeft)
    requires f.seqs[i].computed == e.seqs[i].computed + n && f.seqs[i].tokens == e.seqs[i].tokens
    ensures Filled(f, batch + [Item(i, n)], tokensLeft - n)
  {
    FilledUntouched(e, f, i, batch, ids, tokensLeft);
  }

  // ---- which items sample -------------------------------------------------------------------

  /** The item starts inside the prompt. */
  predicate IsPrefill(e: Engine, x: Item, prompt: nat) {
    x.seqIndex < |e.seqs| && e.seqs[x.seqIndex].computed < prompt + x.count
  }

  /** The item also ends inside the prompt. */
  predicate IsChunk(e: Engine, x: Item, prompt: nat) {
    IsPrefill(e, x, prompt) && e.seqs[x.seqIndex].computed < prompt
  }

  /** A token is sampled from the item's last position, once the batch is computed. */
  predicate SamplesToken(e: Engine, x: Item, prompt: nat) { !IsChunk(e, x, prompt) }

  /** A token sampled from the item is the next one of the text. */
  predicate SamplesAtEnd(e: Engine, x: Item, prompt: nat) {
    SamplesToken(e, x, prompt) ==> AllScheduled(e, x.seqIndex)
  }

  function PromptOf(prompts: seq<nat>, x: Item): nat { if x.seqIndex < |prompts| then prompts[x.seqIndex] else 0 }

  /** Those of the batch that sample: first the items that finish a prompt, then the ones past it. */
  function Samplers(e: Engine, batch: seq<Item>, prompts: seq<nat>): seq<nat> {
    Finishing(e, batch, prompts) + Decoding(e, batch, prompts)
  }

  function Finishing(e: Engine, batch: seq<Item>, prompts: seq<nat>): seq<nat> {
    if batch == [] then []
    else
      var x := batch[0];
      var p := PromptOf(prompts, x);
      (if IsPrefill(e, x, p) && SamplesToken(e, x, p) then [x.seqIndex] else []) + Finishing(e, batch[1..], prompts)
  }

  function Decoding(e: Engine, batch: seq<Item>, prompts: seq<nat>): seq<nat> {
    if batch == [] then []
    else
      (if IsPrefill(e, batch[0], PromptOf(prompts, batch[0])) then [] else [batch[0].seqIndex])
      + Decoding(e, batch[1..], prompts)
  }

  /** These are exactly the items that sample. */
  lemma {:induction false} SamplersExactly(e: Engine, batch: seq<Item>, prompts: seq<nat>, i: nat)
    ensures i in Samplers(e, batch, prompts)
            <==> exists x :: x in batch && x.seqIndex == i && SamplesToken(e, x, PromptOf(prompts, x))
  {
    if batch != [] {
      SamplersExactly(e, batch[1..], prompts, i);
      assert batch == [batch[0]] + batch[1..];
      hide IsPrefill;
    }
  }

  /** Some item of this sequence samples, and starts inside the prompt or not, as `prefill` says. */
  ghost predicate SamplesAs(e: Engine, batch: seq<Item>, prompts: seq<nat>, i: nat, prefill: bool) {
    exists x :: x in batch && x.seqIndex == i && SamplesToken(e, x, PromptOf(prompts, x))
                && IsPrefill(e, x, PromptOf(prompts, x)) == prefill
  }

  /** First come the items that finish a prompt. */
  lemma {:induction false} FinishersFirst(e: Engine, batch: seq<Item>, prompts: seq<nat>) returns (k: nat)
    ensures k <= |Samplers(e, batch, prompts)|
    ensures forall i: nat :: i in Samplers(e, batch, prompts)[..k] <==> SamplesAs(e, batch, prompts, i, true)
    ensures forall i: nat :: i in Samplers(e, batch, prompts)[k..] <==> SamplesAs(e, batch, prompts, i, false)
  {
    k := |Finishing(e, batch, prompts)|;
    forall i: nat
      ensures i in Finishing(e, batch, prompts) <==> SamplesAs(e, batch, prompts, i, true)
      ensures i in Decoding(e, batch, prompts) <==> SamplesAs(e, batch, prompts, i, false)
    {
      EachInItsPart(e, batch, prompts, i);
    }
    assert Samplers(e, batch, prompts)[..k] == Finishing(e, batch, prompts);
    assert Samplers(e, batch, prompts)[k..] == Decoding(e, batch, prompts);
  }

  lemma {:induction false} EachInItsPart(e: Engine, batch: seq<Item>, prompts: seq<nat>, i: nat)
    ensures i in Finishing(e, batch, prompts) <==> SamplesAs(e, batch, prompts, i, true)
    ensures i in Decoding(e, batch, prompts) <==> SamplesAs(e, batch, prompts, i, false)
  {
    hide IsPrefill;
    if batch != [] {
      EachInItsPart(e, batch[1..], prompts, i);
      assert batch == [batch[0]] + batch[1..];
    }
  }

  /** An item samples in the middle of its text exactly if it is the last one, used up the budget, and
      stops between the end of the prompt and the end of the text. */
  lemma {:induction false} MidTextExactly(e: Engine, batch: seq<Item>, ids: set<nat>, tokensLeft: nat, k: nat,
                                          prompt: nat)
    requires BatchOk(e, batch, ids) && Filled(e, batch, tokensLeft) && k < |batch|
    requires forall i: nat :: i < |e.seqs| ==> e.seqs[i].computed <= |e.seqs[i].tokens|
    ensures batch[k].seqIndex < |e.seqs|
    ensures var s := e.seqs[batch[k].seqIndex];
            !SamplesAtEnd(e, batch[k], prompt)
            <==> k == |batch| - 1 && tokensLeft == 0 && prompt <= s.computed < |s.tokens|
  {
    assert Pending(e, batch[k]);
  }

  /** Seen before the call: a chunk within `budget` samples at the end of its text, or not at all, if
      and only if the budget covers what is left or runs out inside the prompt. */
  lemma {:induction false} ChunkSamplesAtEnd(e: Engine, f: Engine, i: nat, budget: nat, prompt: nat)
    requires OnlyChanges(e, f, i) && f.seqs[i].tokens == e.seqs[i].tokens && NextTokens(e.seqs[i], budget) >= 1
    requires f.seqs[i].computed == e.seqs[i].computed + NextTokens(e.seqs[i], budget)
    ensures SamplesAtEnd(f, Item(i, NextTokens(e.seqs[i], budget)), prompt)
            <==> Uncomputed(e.seqs[i]) <= budget || e.seqs[i].computed + budget < prompt
  {}
}
