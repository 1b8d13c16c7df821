/** Verifying drafted tokens (src/turboserve/engine/spec/verifier.py): greedy verification equals
    the target's own greedy continuation, and modified rejection sampling keeps the
    target's own law. Random draws are inputs; distributions are exact reals. */
module Speculation {
  import opened Prelude

  type Token = nat

  // ---- distributions ---------------------------------------------------------------------------

  function Total(w: seq<real>): real { if w == [] then 0.0 else Total(w[..|w| - 1]) + w[|w| - 1] }

  ghost predicate NonNegative(w: seq<real>) { forall i :: 0 <= i < |w| ==> w[i] >= 0.0 }

  /** A probability distribution over a vocabulary of `|w|` tokens. */
  ghost predicate IsDistribution(w: seq<real>) { NonNegative(w) && Total(w) == 1.0 }

  lemma {:induction false} TotalNonNegative(w: seq<real>)
    requires NonNegative(w)
    ensures Total(w) >= 0.0
    ensures Total(w) == 0.0 ==> forall i :: 0 <= i < |w| ==> w[i] == 0.0
  {
    if w != [] { TotalNonNegative(w[..|w| - 1]); }
  }

  // ---- one drafted token -------------------------------------------------------------------------

  /** A product of probabilities: two things happening, one given the other. */
  function Both(a: real, b: real): real { a * b }

  lemma BothBelow(a: real, b: real)
    requires 0.0 <= a < 1.0 && b >= 0.0
    ensures Both(a, b) <= b && (b > 0.0 ==> Both(a, b) < b)
  {
    if b > 0.0 { FractionBelow(a, b); }
  }

  lemma BothCompares(a: real, c: real, b: real)
    requires b > 0.0
    ensures a < c <==> Both(a, b) < Both(c, b)
  {
    CompareScaled(a, c, b);
  }

  lemma NothingLost(b: real)
    ensures Both(0.0, b) == 0.0 && Both(b, 0.0) == 0.0
  {
  }

  /** The acceptance test for a token with target and draft probabilities `p` and `q`. */
  predicate Keep(u: real, p: real, q: real) { Both(u, q) < p }

  /** The length of the set of `u` in [0, 1) that pass the test. */
  function AcceptProb(p: real, q: real): real {
    if p <= 0.0 then 0.0 else if q <= p then 1.0 else p / q
  }

  lemma KeepWhenLikelier(u: real, p: real, q: real)
    requires 0.0 <= u < 1.0 && 0.0 <= q <= p && p > 0.0
    ensures Keep(u, p, q)
  {
    hide Both;
    BothBelow(u, q);
  }

  lemma KeepWhenRarer(u: real, p: real, q: real)
    requires 0.0 <= u < 1.0 && 0.0 < p < q
    ensures Keep(u, p, q) <==> u < p / q
  {
    assert Both(p / q, q) == p;
    hide Both;
    BothCompares(u, p / q, q);
  }

  lemma NeverKeepImpossible(u: real, q: real)
    requires 0.0 <= u && 0.0 <= q
    ensures !Keep(u, 0.0, q)
  {
    hide Both;
    if q > 0.0 { BothCompares(u, 0.0, q); }
    NothingLost(q);
    NothingLost(u);
  }

  /** The accepted draws are exactly those below `AcceptProb`, so that is the probability of
      acceptance for a uniform draw: `min(1, p/q)`, zero mass included on either side. */
  lemma KeepIsInterval(u: real, p: real, q: real)
    requires 0.0 <= u < 1.0 && p >= 0.0 && q >= 0.0
    ensures Keep(u, p, q) <==> u < AcceptProb(p, q)
  {
    if p == 0.0 { NeverKeepImpossible(u, q); }
    else if q <= p { KeepWhenLikelier(u, p, q); }
    else { KeepWhenRarer(u, p, q); }
    hide Keep;
  }

  /** A token with these probabilities is drafted and kept. */
  function KeptProb(p: real, q: real): real { Both(q, AcceptProb(p, q)) }

  /** Drafting a token and keeping it has probability `min(p, q)`, drafting and rejecting it the
      rest of `q`. */
  lemma KeptMass(p: real, q: real)
    requires p >= 0.0 && q >= 0.0
    ensures KeptProb(p, q) == Min(p, q)
    ensures Both(q, 1.0 - AcceptProb(p, q)) == Max(0.0, q - p)
  {
    if 0.0 < p < q {
      assert q * (p / q) == p;
      assert q * (1.0 - p / q) == q - q * (p / q);
    }
  }

  // ---- the residual ----------------------------------------------------------------------------------

  function Excess(a: seq<real>, b: seq<real>): (r: seq<real>)
    requires |a| == |b|
    ensures |r| == |a| && forall i :: 0 <= i < |a| ==> r[i] == Max(0.0, a[i] - b[i])
  {
    if a == [] then []
    else Excess(a[..|a| - 1], b[..|b| - 1]) + [Max(0.0, a[|a| - 1] - b[|b| - 1])]
  }

  /** Probability that the drafted token is rejected. */
  function RejectProb(p: seq<real>, q: seq<real>): real
    requires |p| == |q|
  {
    if p == [] then 0.0
    else
      var n := |p| - 1;
      RejectProb(p[..n], q[..n]) + Both(q[n], 1.0 - AcceptProb(p[n], q[n]))
  }

  /** The rejection mass is what `q` has in excess of `p`. */
  lemma {:induction false} RejectIsExcess(p: seq<real>, q: seq<real>)
    requires |p| == |q| && NonNegative(p) && NonNegative(q)
    ensures RejectProb(p, q) == Total(Excess(q, p))
  {
    if p != [] {
      var n := |p| - 1;
      hide Both, AcceptProb;
      RejectIsExcess(p[..n], q[..n]);
      KeptMass(p[n], q[n]);
      assert Excess(q, p)[..n] == Excess(q[..n], p[..n]);
    }
  }

  lemma {:induction false} ExcessBalance(p: seq<real>, q: seq<real>)
    requires |p| == |q|
    ensures Total(Excess(q, p)) - Total(Excess(p, q)) == Total(q) - Total(p)
  {
    if p != [] {
      var n := |p| - 1;
      ExcessBalance(p[..n], q[..n]);
      assert Excess(q, p)[..n] == Excess(q[..n], p[..n]);
      assert Excess(p, q)[..n] == Excess(p[..n], q[..n]);
    }
  }

  /** What the replacement is drawn from after a rejection: the residual, or the target itself
      when the residual is empty. */
  function Replacement(p: seq<real>, q: seq<real>): (r: seq<real>)
    requires |p| == |q|
    ensures |r| == |p|
  {
    if Total(Excess(p, q)) <= 0.0 then p else Excess(p, q)
  }

  /** Drawing one index from weights that need not be normalised. */
  function DrawProb(w: seq<real>, x: Token): real
    requires x < |w| && Total(w) != 0.0
  {
    w[x] / Total(w)
  }

  lemma ReplacementDrawable(p: seq<real>, q: seq<real>)
    requires |p| == |q| && IsDistribution(p)
    ensures Total(Replacement(p, q)) > 0.0 && NonNegative(Replacement(p, q))
  {
  }

  /** Rejected, and `x` drawn as the replacement. */
  function ReplacedProb(p: seq<real>, q: seq<real>, x: Token): real
    requires |p| == |q| && x < |p| && Total(Replacement(p, q)) != 0.0
  {
    Both(RejectProb(p, q), DrawProb(Replacement(p, q), x))
  }

  /** Probability that one drafted position emits `x`. */
  function EmitProb(p: seq<real>, q: seq<real>, x: Token): real
    requires |p| == |q| && x < |p| && Total(Replacement(p, q)) != 0.0
  {
    KeptProb(p[x], q[x]) + ReplacedProb(p, q, x)
  }

  /** Replacements make up exactly what the target has in excess of the draft. */
  lemma ReplacedMass(p: seq<real>, q: seq<real>, x: Token)
    requires |p| == |q| && x < |p| && IsDistribution(p) && IsDistribution(q)
    ensures Total(Replacement(p, q)) > 0.0 && ReplacedProb(p, q, x) == Max(0.0, p[x] - q[x])
  {
    hide AcceptProb;
    ReplacementDrawable(p, q);
    RejectIsExcess(p, q);
    ExcessBalance(p, q);
    var r := Excess(p, q);
    assert RejectProb(p, q) == Total(r);
    TotalNonNegative(r);
    if Total(r) > 0.0 {
      CancelMass(Total(r), r[x]);
    } else {
      assert r[x] == 0.0;
      NothingLost(DrawProb(Replacement(p, q), x));
    }
    hide Both, Total, RejectProb;
  }

  lemma CancelMass(mass: real, w: real)
    requires mass > 0.0
    ensures Both(mass, w / mass) == w
  {
  }

  /** Modified rejection sampling is exact: for any target and any draft distribution, the emitted
      token is distributed as the target. */
  lemma RejectionSamplingExact(p: seq<real>, q: seq<real>, x: Token)
    requires |p| == |q| && x < |p| && IsDistribution(p) && IsDistribution(q)
    ensures Total(Replacement(p, q)) > 0.0 && EmitProb(p, q, x) == p[x]
  {
    hide Both, KeptProb, ReplacedProb;
    ReplacedMass(p, q, x);
    KeptMass(p[x], q[x]);
  }

  // ---- a deterministic drafter ---------------------------------------------------------------------------

  /** All mass on one token: how a drafter without a distribution is read. */
  function PointMass(n: nat, d: Token): (r: seq<real>)
    ensures |r| == n && forall i :: 0 <= i < n ==> r[i] == if i == d then 1.0 else 0.0
  {
    seq(n, i => if i == d then 1.0 else 0.0)
  }

  lemma {:induction false} PointMassTotal(n: nat, d: Token)
    ensures Total(PointMass(n, d)) == if d < n then 1.0 else 0.0
  {
    if n > 0 {
      PointMassTotal(n - 1, d);
      assert PointMass(n, d)[..n - 1] == PointMass(n - 1, d);
    }
  }

  lemma {:induction false} AtMostTotal(w: seq<real>, i: nat)
    requires NonNegative(w) && i < |w|
    ensures w[i] <= Total(w)
  {
    TotalNonNegative(w[..|w| - 1]);
    if i < |w| - 1 { AtMostTotal(w[..|w| - 1], i); }
  }

  /** For such a drafter the code's two shortcuts are the general rule: it accepts with probability
      `p(d)`, and its residual is `p` with the drafted token removed. */
  lemma PointMassShortcuts(p: seq<real>, d: Token)
    requires IsDistribution(p) && d < |p|
    ensures IsDistribution(PointMass(|p|, d))
    ensures AcceptProb(p[d], 1.0) == p[d]
    ensures Excess(p, PointMass(|p|, d)) == p[d := 0.0]
  {
    hide AcceptProb, Total, Excess;
    PointMassTotal(|p|, d);
    AtMostTotal(p, d);
    AcceptAgainstOne(p[d]);
    PointMassExcess(p, d);
  }

  lemma {:induction false} PointMassExcess(p: seq<real>, d: Token)
    requires d < |p| && NonNegative(p) && p[d] <= 1.0
    ensures Excess(p, PointMass(|p|, d)) == p[d := 0.0]
  {
    hide Total;
    var e := Excess(p, PointMass(|p|, d));
    forall i | 0 <= i < |p| ensures e[i] == p[d := 0.0][i] {
      assert PointMass(|p|, d)[i] == if i == d then 1.0 else 0.0;
    }
  }

  lemma AcceptAgainstOne(p: real)
    requires 0.0 <= p <= 1.0
    ensures AcceptProb(p, 1.0) == p
  {
    Quotient(p, 1.0);
  }

  // ---- whole drafts ----------------------------------------------------------------------------------------

  /** A model: the next-token distribution after a history. */
  type Model = seq<Token> -> seq<real>

  ghost predicate IsModel(m: Model, vocab: nat) {
    forall h :: |m(h)| == vocab && IsDistribution(m(h))
  }

  /** Probability that the target, sampled token by token, continues `h` with `y`. */
  ghost function TargetProb(p: Model, vocab: nat, h: seq<Token>, y: seq<Token>): real
    requires IsModel(p, vocab) && forall i :: 0 <= i < |y| ==> y[i] < vocab
    decreases |y|
  {
    if y == [] then 1.0 else Both(p(h)[y[0]], TargetProb(p, vocab, h + [y[0]], y[1..]))
  }

  /** One speculative step with `k` drafted tokens, completed by the target up to `k + 1` tokens, taken
      one drafted token at a time. A kept first token leaves `k - 1` drafted ones to verify after it; a
      replacement ends the step, and the rest is the target's. */
  ghost function SpeculativeProb(p: Model, q: Model, vocab: nat, h: seq<Token>, k: nat, y: seq<Token>): real
    requires IsModel(p, vocab) && IsModel(q, vocab) && |y| == k + 1 && forall i :: 0 <= i < |y| ==> y[i] < vocab
    decreases k
  {
    var x := y[0];
    if k == 0 then p(h)[x]
    else
      ReplacementDrawable(p(h), q(h));
      Both(KeptProb(p(h)[x], q(h)[x]), SpeculativeProb(p, q, vocab, h + [x], k - 1, y[1..]))
      + Both(ReplacedProb(p(h), q(h), x), TargetProb(p, vocab, h + [x], y[1..]))
  }

  lemma Factor(a: real, b: real, t: real)
    ensures Both(a, t) + Both(b, t) == Both(a + b, t)
  {
  }

  lemma {:induction false} SpeculativeIsTarget(p: Model, q: Model, vocab: nat, h: seq<Token>, k: nat, y: seq<Token>)
    requires IsModel(p, vocab) && IsModel(q, vocab) && |y| == k + 1 && forall i :: 0 <= i < |y| ==> y[i] < vocab
    ensures SpeculativeProb(p, q, vocab, h, k, y) == TargetProb(p, vocab, h, y)
    decreases k
  {
    hide SpeculativeProb, TargetProb, IsDistribution;
    if k == 0 {
      LastToken(p, q, vocab, h, y);
    } else {
      var x := y[0];
      assert SpeculativeProb(p, q, vocab, h + [x], k - 1, y[1..]) == TargetProb(p, vocab, h + [x], y[1..]) by {
        SpeculativeIsTarget(p, q, vocab, h + [x], k - 1, y[1..]);
      }
      OneMoreToken(p, q, vocab, h, k, y);
    }
  }

  lemma LastToken(p: Model, q: Model, vocab: nat, h: seq<Token>, y: seq<Token>)
    requires IsModel(p, vocab) && IsModel(q, vocab) && |y| == 1 && y[0] < vocab
    ensures SpeculativeProb(p, q, vocab, h, 0, y) == TargetProb(p, vocab, h, y)
  {
    assert y[1..] == [];
    assert TargetProb(p, vocab, h + [y[0]], []) == 1.0;
  }

  lemma OneMoreToken(p: Model, q: Model, vocab: nat, h: seq<Token>, k: nat, y: seq<Token>)
    requires IsModel(p, vocab) && IsModel(q, vocab)
    requires |y| == k + 1 && k >= 1 && forall i :: 0 <= i < |y| ==> y[i] < vocab
    requires SpeculativeProb(p, q, vocab, h + [y[0]], k - 1, y[1..]) == TargetProb(p, vocab, h + [y[0]], y[1..])
    ensures SpeculativeProb(p, q, vocab, h, k, y) == TargetProb(p, vocab, h, y)
  {
    hide Both, KeptProb, ReplacedProb, Replacement, IsDistribution;
    var x := y[0];
    var rest := TargetProb(p, vocab, h + [x], y[1..]);
    NextTokenExact(p, q, vocab, h, x);
    Factor(KeptProb(p(h)[x], q(h)[x]), ReplacedProb(p(h), q(h), x), rest);
    assert SpeculativeProb(p, q, vocab, h, k, y)
           == Both(KeptProb(p(h)[x], q(h)[x]), rest) + Both(ReplacedProb(p(h), q(h), x), rest);
    assert TargetProb(p, vocab, h, y) == Both(p(h)[x], rest);
  }

  lemma NextTokenExact(p: Model, q: Model, vocab: nat, h: seq<Token>, x: Token)
    requires IsModel(p, vocab) && IsModel(q, vocab) && x < vocab
    ensures Total(Replacement(p(h), q(h))) > 0.0 && EmitProb(p(h), q(h), x) == p(h)[x]
  {
    hide EmitProb;
    RejectionSamplingExact(p(h), q(h), x);
  }

  // ---- the verifier as written -----------------------------------------------------------------------------

  datatype Verification = Verification(accepted: seq<Token>, bonus: Token, drafted: nat)

  function Emitted(v: Verification): seq<Token> { v.accepted + [v.bonus] }

  /** How many drafted tokens are kept: those before the first that fails its test. */
  function KeptCount(p: seq<seq<real>>, q: seq<seq<real>>, drafts: seq<Token>, u: seq<real>, n: nat): (k: nat)
    requires n <= |drafts| && |p| >= |drafts| && |q| == |u| == |drafts|
    requires forall i :: 0 <= i < |drafts| ==> drafts[i] < |p[i]| && drafts[i] < |q[i]|
    ensures n <= k <= |drafts|
    ensures forall i :: n <= i < k ==> Keep(u[i], p[i][drafts[i]], q[i][drafts[i]])
    ensures k < |drafts| ==> !Keep(u[k], p[k][drafts[k]], q[k][drafts[k]])
    decreases |drafts| - n
  {
    if n == |drafts| || !Keep(u[n], p[n][drafts[n]], q[n][drafts[n]]) then n
    else KeptCount(p, q, drafts, u, n + 1)
  }

  /** Whatever the randomness, a draw from weights with a positive total hits a positive weight. */
  ghost predicate IsDraw(draw: seq<real> -> Token) {
    forall w :: NonNegative(w) && Total(w) > 0.0 ==> draw(w) < |w| && w[draw(w)] > 0.0
  }

  /** What the last token is drawn from: the target's final row if every drafted token was kept,
      else the replacement for the first one rejected. */
  function LastWeights(p: seq<seq<real>>, q: seq<seq<real>>, kept: nat): seq<real>
    requires kept < |p| && |q| == |p| - 1 && (kept < |q| ==> |p[kept]| == |q[kept]|)
  {
    if kept == |q| then p[kept] else Replacement(p[kept], q[kept])
  }

  lemma LastWeightsDrawable(p: seq<seq<real>>, q: seq<seq<real>>, kept: nat, x: Token)
    requires kept < |p| && |q| == |p| - 1 && IsDistribution(p[kept])
    requires kept < |q| ==> |p[kept]| == |q[kept]| && NonNegative(q[kept])
    ensures NonNegative(LastWeights(p, q, kept)) && Total(LastWeights(p, q, kept)) > 0.0
    ensures |LastWeights(p, q, kept)| == |p[kept]|
    ensures x < |p[kept]| && LastWeights(p, q, kept)[x] > 0.0 ==> p[kept][x] > 0.0
  {
    hide Total;
    if kept < |q| { ReplacementDrawable(p[kept], q[kept]); }
  }

  /** What the last token is drawn from gives each token the right weight. */
  lemma LastWeightsExact(p: seq<seq<real>>, q: seq<seq<real>>, kept: nat)
    requires kept < |p| && |q| == |p| - 1 && IsDistribution(p[kept])
    requires kept < |q| ==> |p[kept]| == |q[kept]|
    ensures var w := LastWeights(p, q, kept);
            && Total(w) > 0.0 && |w| == |p[kept]|
            && (kept == |q| ==> forall x: Token :: x < |w| ==> DrawProb(w, x) == p[kept][x])
            && (kept < |q| && IsDistribution(q[kept]) ==>
                  forall x: Token :: x < |w| ==>
                    Both(RejectProb(p[kept], q[kept]), DrawProb(w, x)) == Max(0.0, p[kept][x] - q[kept][x]))
  {
    hide Both, RejectProb, Replacement;
    if kept < |q| {
      ReplacementDrawable(p[kept], q[kept]);
      if IsDistribution(q[kept]) {
        forall x: Token | x < |p[kept]|
          ensures Both(RejectProb(p[kept], q[kept]), DrawProb(LastWeights(p, q, kept), x))
                  == Max(0.0, p[kept][x] - q[kept][x])
        {
          ReplacedMass(p[kept], q[kept], x);
        }
      }
    }
  }

  lemma KeptIsPossible(u: real, p: real, q: real)
    requires u >= 0.0 && q >= 0.0 && Keep(u, p, q)
    ensures p > 0.0
  {}

  lemma EmittedPossible(p: seq<seq<real>>, q: seq<seq<real>>, drafts: seq<Token>, u: seq<real>, v: Verification)
    requires |p| == |drafts| + 1 && |q| == |u| == |drafts|
    requires forall i :: 0 <= i < |drafts| ==> NonNegative(q[i]) && u[i] >= 0.0
    requires forall i :: 0 <= i < |drafts| ==> |p[i]| == |q[i]| && drafts[i] < |p[i]|
    requires v.accepted == drafts[..KeptCount(p, q, drafts, u, 0)]
    requires v.bonus < |p[|v.accepted|]| && p[|v.accepted|][v.bonus] > 0.0
    ensures forall i :: 0 <= i < |Emitted(v)| ==> Emitted(v)[i] < |p[i]| && p[i][Emitted(v)[i]] > 0.0
  {
    hide Keep;
    forall i | 0 <= i < |v.accepted| ensures p[i][drafts[i]] > 0.0 {
      KeptIsPossible(u[i], p[i][drafts[i]], q[i][drafts[i]]);
    }
  }

  /** Verify a draft: the kept prefix, then a token drawn from weights `w`. After a rejection these make up
      what the target has in excess of the draft, weighed with the probability of the rejection; after
      a full acceptance they are the target's last row. Whatever the draws, no token is emitted that the
      target gives probability 0. */
  method VerifyRejectionSampling(p: seq<seq<real>>, q: seq<seq<real>>, drafts: seq<Token>, u: seq<real>,
                                 draw: seq<real> -> Token)
    returns (v: Verification, ghost w: seq<real>)
    requires |p| == |drafts| + 1 && |q| == |u| == |drafts| && IsDraw(draw)
    requires forall i :: 0 <= i < |p| ==> IsDistribution(p[i])
    requires forall i :: 0 <= i < |drafts| ==> NonNegative(q[i]) && u[i] >= 0.0
    requires forall i :: 0 <= i < |drafts| ==> |p[i]| == |q[i]| && drafts[i] < |p[i]|
    ensures var kept := KeptCount(p, q, drafts, u, 0);
            && v == Verification(drafts[..kept], draw(w), |drafts|) && w == LastWeights(p, q, kept)
            && |w| == |p[kept]| && NonNegative(w) && Total(w) > 0.0
            && (kept == |drafts| ==> forall x: Token :: x < |w| ==> DrawProb(w, x) == p[kept][x])
            && (kept < |drafts| && IsDistribution(q[kept]) ==>
                  forall x: Token :: x < |w| ==>
                    Both(RejectProb(p[kept], q[kept]), DrawProb(w, x)) == Max(0.0, p[kept][x] - q[kept][x]))
    ensures forall i :: 0 <= i < |Emitted(v)| ==> Emitted(v)[i] < |p[i]| && p[i][Emitted(v)[i]] > 0.0
  {
    hide Total, Keep, Excess, NonNegative, IsDistribution, Emitted, DrawProb, RejectProb, Both;
    var kept := 0;
    while kept < |drafts| && Keep(u[kept], p[kept][drafts[kept]], q[kept][drafts[kept]])
      invariant kept <= |drafts| && KeptCount(p, q, drafts, u, 0) == KeptCount(p, q, drafts, u, kept)
    {
      kept := kept + 1;
    }
    var weights;
    if kept == |drafts| {
      weights := p[kept];
    } else {
      weights := Excess(p[kept], q[kept]);
      if Total(weights) <= 0.0 {
        weights := p[kept];
      }
    }
    LastWeightsDrawable(p, q, kept, draw(weights));
    LastWeightsExact(p, q, kept);
    w := weights;
    v := Verification(drafts[..kept], draw(weights), |drafts|);
    EmittedPossible(p, q, drafts, u, v);
  }

  // ---- a whole step, as the verifier takes it ---------------------------------------------------------

  /** The rows of a model along a draft: after `h`, and after `h` and each of its first tokens. */
  ghost function Rows(m: Model, h: seq<Token>, d: seq<Token>, n: nat): (r: seq<seq<real>>)
    requires n <= |d| + 1
    ensures |r| == n && forall i :: 0 <= i < n ==> r[i] == m(h + d[..i])
  {
    seq(n, i requires 0 <= i < n => m(h + d[..i]))
  }

  /** An interval of uniform draws. */
  datatype Side = Side(from: real, to: real)

  predicate Within(u: seq<real>, s: seq<Side>) {
    |u| == |s| && forall i :: 0 <= i < |s| ==> s[i].from <= u[i] < s[i].to
  }

  /** The probability that independent uniform draws fall into these intervals. */
  function Volume(s: seq<Side>): real { if s == [] then 1.0 else Both(s[0].to - s[0].from, Volume(s[1..])) }

  predicate Drafts(p: seq<seq<real>>, q: seq<seq<real>>, d: seq<Token>) {
    |p| == |d| + 1 && |q| == |d| && forall i :: 0 <= i < |d| ==> d[i] < |p[i]| == |q[i]|
  }

  /** The draws with which exactly the first `m` drafted tokens are kept. */
  function KeptSides(p: seq<seq<real>>, q: seq<seq<real>>, d: seq<Token>, m: nat): (s: seq<Side>)
    requires Drafts(p, q, d)
    ensures |s| == |d|
  {
    seq(|d|, i requires 0 <= i < |d| =>
      var a := AcceptProb(p[i][d[i]], q[i][d[i]]);
      if i < m then Side(0.0, a) else if i == m then Side(a, 1.0) else Side(0.0, 1.0))
  }

  /** They are exactly those with which the verifier keeps `m`. */
  lemma KeptIsBox(p: seq<seq<real>>, q: seq<seq<real>>, d: seq<Token>, u: seq<real>, m: nat)
    requires Drafts(p, q, d) && |u| == |d| && forall i :: 0 <= i < |u| ==> 0.0 <= u[i] < 1.0
    requires m <= |d| && forall i :: 0 <= i < |d| ==> NonNegative(p[i]) && NonNegative(q[i])
    ensures KeptCount(p, q, d, u, 0) == m <==> Within(u, KeptSides(p, q, d, m))
  {
    hide Keep, AcceptProb;
    var k := KeptCount(p, q, d, u, 0);
    forall i | 0 <= i < |d|
      ensures Keep(u[i], p[i][d[i]], q[i][d[i]]) <==> u[i] < AcceptProb(p[i][d[i]], q[i][d[i]])
    {
      KeepIsInterval(u[i], p[i][d[i]], q[i][d[i]]);
    }
    var s := KeptSides(p, q, d, m);
    assert m < k ==> s[m].from == AcceptProb(p[m][d[m]], q[m][d[m]]);
    assert k < m ==> s[k].to == AcceptProb(p[k][d[k]], q[k][d[k]]);
  }

  ghost predicate Drafted(p: Model, q: Model, vocab: nat, d: seq<Token>) {
    IsModel(p, vocab) && IsModel(q, vocab) && forall i :: 0 <= i < |d| ==> d[i] < vocab
  }

  /** Probability that the verifier keeps exactly the first `m` tokens of the draft `d` of `h`. */
  ghost function KeepsProb(p: Model, q: Model, vocab: nat, h: seq<Token>, d: seq<Token>, m: nat): real
    requires Drafted(p, q, vocab, d)
  {
    Volume(KeptSides(Rows(p, h, d, |d| + 1), Rows(q, h, d, |d|), d, m))
  }

  /** What it then draws the next token from. */
  ghost function StepWeights(p: Model, q: Model, vocab: nat, h: seq<Token>, d: seq<Token>, m: nat): (w: seq<real>)
    requires Drafted(p, q, vocab, d) && m <= |d|
    ensures |w| == vocab && Total(w) > 0.0
  {
    LastWeightsExact(Rows(p, h, d, |d| + 1), Rows(q, h, d, |d|), m);
    LastWeights(Rows(p, h, d, |d| + 1), Rows(q, h, d, |d|), m)
  }

  /** The token after the first `m` of `y` is drawn from `w`, and the target goes on with the rest. */
  ghost function GoesOn(p: Model, vocab: nat, w: seq<real>, h: seq<Token>, y: seq<Token>, m: nat): real
    requires IsModel(p, vocab) && |w| == vocab && Total(w) != 0.0
    requires m < |y| && forall i :: 0 <= i < |y| ==> y[i] < vocab
  {
    Both(DrawProb(w, y[m]), TargetProb(p, vocab, h + y[..m + 1], y[m + 1..]))
  }

  ghost predicate StepOf(p: Model, q: Model, vocab: nat, d: seq<Token>, y: seq<Token>) {
    && IsModel(p, vocab) && IsModel(q, vocab) && |y| == |d| + 1
    && (forall i :: 0 <= i < |d| ==> d[i] < vocab) && forall i :: 0 <= i < |y| ==> y[i] < vocab
  }

  /** The verifier keeps the first `m` drafted tokens, which are those of `y`, and the step goes on as `y`. */
  ghost function KeptOutcome(p: Model, q: Model, vocab: nat, h: seq<Token>, d: seq<Token>, y: seq<Token>, m: nat): real
    requires StepOf(p, q, vocab, d, y) && m <= |d|
  {
    if d[..m] != y[..m] then 0.0
    else Both(KeepsProb(p, q, vocab, h, d, m), GoesOn(p, vocab, StepWeights(p, q, vocab, h, d, m), h, y, m))
  }

  /** Whatever is kept, up to `n` tokens. */
  ghost function Outcome(p: Model, q: Model, vocab: nat, h: seq<Token>, d: seq<Token>, y: seq<Token>, n: nat): real
    requires StepOf(p, q, vocab, d, y) && n <= |d| + 1
  {
    if n == 0 then 0.0 else Outcome(p, q, vocab, h, d, y, n - 1) + KeptOutcome(p, q, vocab, h, d, y, n - 1)
  }

  /** Probability that a step whose first drafted tokens are `d` continues `h` with `y`: the other drafted
      tokens are drawn from the drafter, one after the other. */
  ghost function StepProb(p: Model, q: Model, vocab: nat, h: seq<Token>, d: seq<Token>, y: seq<Token>): real
    requires StepFrom(p, q, vocab, d, y)
    decreases |y| - |d|, vocab + 1
  {
    if |d| + 1 == |y| then Outcome(p, q, vocab, h, d, y, |d| + 1) else StepSum(p, q, vocab, h, d, y, vocab)
  }

  ghost predicate StepFrom(p: Model, q: Model, vocab: nat, d: seq<Token>, y: seq<Token>) {
    && IsModel(p, vocab) && IsModel(q, vocab) && |d| < |y|
    && (forall i :: 0 <= i < |d| ==> d[i] < vocab) && forall i :: 0 <= i < |y| ==> y[i] < vocab
  }

  /** The next drafted token is one of the first `n` of the vocabulary. */
  ghost function StepSum(p: Model, q: Model, vocab: nat, h: seq<Token>, d: seq<Token>, y: seq<Token>, n: nat): real
    requires StepFrom(p, q, vocab, d, y) && |d| + 1 < |y| && n <= vocab
    decreases |y| - |d|, n
  {
    if n == 0 then 0.0
    else
      StepSum(p, q, vocab, h, d, y, n - 1)
      + Both(q(h + d)[n - 1], StepProb(p, q, vocab, h, d + [n - 1], y))
  }

  // ---- and taken one drafted token at a time ---------------------------------------------------------

  lemma Regroup(a: real, b: real, c: real)
    ensures Both(Both(a, b), c) == Both(a, Both(b, c))
  {}

  lemma Distribute(a: real, b: real, c: real)
    ensures Both(a, b) + Both(a, c) == Both(a, b + c)
  {}

  lemma RowsShift(m: Model, h: seq<Token>, t: Token, d: seq<Token>, n: nat)
    requires n <= |d| + 1
    ensures Rows(m, h, [t] + d, n + 1) == [m(h)] + Rows(m, h + [t], d, n)
  {
    assert h + ([t] + d)[..0] == h;
    forall i: nat | i < n ensures h + ([t] + d)[..i + 1] == (h + [t]) + d[..i] {}
  }

  lemma {:induction false} WholeSides(s: seq<Side>)
    requires forall i :: 0 <= i < |s| ==> s[i] == Side(0.0, 1.0)
    ensures Volume(s) == 1.0
  {
    if s != [] { WholeSides(s[1..]); }
  }

  /** The first drafted token is rejected, `y[0]` replaces it and the target goes on. */
  ghost function Replaced(p: Model, q: Model, vocab: nat, h: seq<Token>, y: seq<Token>): real
    requires IsModel(p, vocab) && IsModel(q, vocab) && y != [] && forall i :: 0 <= i < |y| ==> y[i] < vocab
  {
    ReplacementDrawable(p(h), q(h));
    Both(DrawProb(Replacement(p(h), q(h)), y[0]), TargetProb(p, vocab, h + [y[0]], y[1..]))
  }

  ghost function Accept(p: Model, q: Model, vocab: nat, h: seq<Token>, t: Token): real
    requires IsModel(p, vocab) && IsModel(q, vocab) && t < vocab
  {
    AcceptProb(p(h)[t], q(h)[t])
  }

  lemma FirstRejected(p: Model, q: Model, vocab: nat, h: seq<Token>, t: Token, d: seq<Token>, y: seq<Token>)
    requires StepOf(p, q, vocab, [t] + d, y) && t < vocab
    ensures KeptOutcome(p, q, vocab, h, [t] + d, y, 0)
            == Both(1.0 - Accept(p, q, vocab, h, t), Replaced(p, q, vocab, h, y))
  {
    hide Both, DrawProb, Replacement, TargetProb, AcceptProb, IsDistribution, Total;
    var all := [t] + d;
    var rows, drafts := Rows(p, h, all, |all| + 1), Rows(q, h, all, |all|);
    RowsShift(p, h, t, d, |d| + 1);
    RowsShift(q, h, t, d, |d|);
    var s := KeptSides(rows, drafts, all, 0);
    WholeSides(s[1..]);
    assert Volume(s) == 1.0 - Accept(p, q, vocab, h, t) by { BothOne(1.0 - Accept(p, q, vocab, h, t)); }
    assert all[..0] == y[..0] && y[..1] == [y[0]];
    LastWeightsExact(rows, drafts, 0);
  }

  lemma StepOfRest(p: Model, q: Model, vocab: nat, t: Token, d: seq<Token>, y: seq<Token>)
    requires StepOf(p, q, vocab, [t] + d, y)
    ensures t < vocab && StepOf(p, q, vocab, d, y[1..])
  {
    hide IsModel;
    assert ([t] + d)[0] == t;
    forall i | 0 <= i < |d| ensures d[i] < vocab { assert d[i] == ([t] + d)[i + 1]; }
  }

  /** The first drafted token is kept: the rest is a step after it. */
  lemma FirstKept(p: Model, q: Model, vocab: nat, h: seq<Token>, t: Token, d: seq<Token>, y: seq<Token>, m: nat)
    requires StepOf(p, q, vocab, [t] + d, y) && m <= |d|
    ensures t < vocab && StepOf(p, q, vocab, d, y[1..])
    ensures KeptOutcome(p, q, vocab, h, [t] + d, y, m + 1)
            == if t == y[0]
               then Both(Accept(p, q, vocab, h, t), KeptOutcome(p, q, vocab, h + [t], d, y[1..], m)) else 0.0
  {
    hide Both, KeepsProb, StepWeights, GoesOn, IsModel, Accept;
    StepOfRest(p, q, vocab, t, d, y);
    var all, tail := [t] + d, y[1..];
    assert all[..m + 1] == [t] + d[..m] && y[..m + 1] == [y[0]] + tail[..m];
    if t == y[0] && d[..m] == tail[..m] {
      KeptShift(p, q, vocab, h, t, d, y, m);
    } else {
      assert all[..m + 1] != y[..m + 1] by {
        assert all[..m + 1][0] == t && y[..m + 1][0] == y[0];
        assert all[..m + 1][1..] == d[..m] && y[..m + 1][1..] == tail[..m];
      }
      NothingLost(Accept(p, q, vocab, h, t));
    }
  }

  lemma KeepsShift(p: Model, q: Model, vocab: nat, h: seq<Token>, t: Token, d: seq<Token>, m: nat)
    requires Drafted(p, q, vocab, [t] + d) && t < vocab && Drafted(p, q, vocab, d)
    ensures KeepsProb(p, q, vocab, h, [t] + d, m + 1)
            == Both(Accept(p, q, vocab, h, t), KeepsProb(p, q, vocab, h + [t], d, m))
  {
    hide Both, AcceptProb, Volume, KeptSides, IsDistribution, Drafts, Rows;
    var rows, drafts := Rows(p, h + [t], d, |d| + 1), Rows(q, h + [t], d, |d|);
    RowsShift(p, h, t, d, |d| + 1);
    RowsShift(q, h, t, d, |d|);
    RowsDraft(p, q, vocab, h, [t] + d);
    SidesShift(p(h), q(h), rows, drafts, t, d, m);
  }

  lemma WeightsShift(p: Model, q: Model, vocab: nat, h: seq<Token>, t: Token, d: seq<Token>, m: nat)
    requires Drafted(p, q, vocab, [t] + d) && Drafted(p, q, vocab, d) && m <= |d|
    ensures StepWeights(p, q, vocab, h, [t] + d, m + 1) == StepWeights(p, q, vocab, h + [t], d, m)
  {
    hide Replacement, IsDistribution, Total;
    RowsShift(p, h, t, d, |d| + 1);
    RowsShift(q, h, t, d, |d|);
  }

  lemma GoesOnShift(p: Model, vocab: nat, w: seq<real>, h: seq<Token>, y: seq<Token>, m: nat)
    requires IsModel(p, vocab) && |w| == vocab && Total(w) != 0.0 && m + 1 < |y|
    requires forall i :: 0 <= i < |y| ==> y[i] < vocab
    ensures GoesOn(p, vocab, w, h, y, m + 1) == GoesOn(p, vocab, w, h + [y[0]], y[1..], m)
  {
    hide Both, DrawProb, TargetProb, IsModel, Total;
    var tail := y[1..];
    assert h + y[..m + 2] == h + [y[0]] + tail[..m + 1] && y[m + 2..] == tail[m + 1..] && y[m + 1] == tail[m];
  }

  lemma KeptShift(p: Model, q: Model, vocab: nat, h: seq<Token>, t: Token, d: seq<Token>, y: seq<Token>, m: nat)
    requires StepOf(p, q, vocab, [t] + d, y) && t < vocab && StepOf(p, q, vocab, d, y[1..])
    requires m <= |d| && t == y[0] && ([t] + d)[..m + 1] == y[..m + 1] && d[..m] == y[1..][..m]
    ensures KeptOutcome(p, q, vocab, h, [t] + d, y, m + 1)
            == Both(Accept(p, q, vocab, h, t), KeptOutcome(p, q, vocab, h + [t], d, y[1..], m))
  {
    hide Both, KeepsProb, StepWeights, GoesOn, Total, IsModel, Accept;
    KeepsShift(p, q, vocab, h, t, d, m);
    WeightsShift(p, q, vocab, h, t, d, m);
    var w := StepWeights(p, q, vocab, h + [t], d, m);
    GoesOnShift(p, vocab, w, h, y, m);
    Regroup(Accept(p, q, vocab, h, t), KeepsProb(p, q, vocab, h + [t], d, m), GoesOn(p, vocab, w, h + [t], y[1..], m));
  }

  lemma RowsDraft(p: Model, q: Model, vocab: nat, h: seq<Token>, d: seq<Token>)
    requires Drafted(p, q, vocab, d)
    ensures Drafts(Rows(p, h, d, |d| + 1), Rows(q, h, d, |d|), d)
  {
    hide IsDistribution;
  }

  lemma SidesShift(row: seq<real>, draft: seq<real>, rows: seq<seq<real>>, drafts: seq<seq<real>>, t: Token,
                   d: seq<Token>, m: nat)
    requires Drafts([row] + rows, [draft] + drafts, [t] + d)
    ensures t < |row| == |draft| && Drafts(rows, drafts, d)
    ensures Volume(KeptSides([row] + rows, [draft] + drafts, [t] + d, m + 1))
            == Both(AcceptProb(row[t], draft[t]), Volume(KeptSides(rows, drafts, d, m)))
  {
    hide Both, AcceptProb;
    assert ([row] + rows)[0] == row && ([draft] + drafts)[0] == draft && ([t] + d)[0] == t;
    forall i | 0 <= i < |d| ensures d[i] < |rows[i]| == |drafts[i]| {
      assert rows[i] == ([row] + rows)[i + 1] && drafts[i] == ([draft] + drafts)[i + 1] && d[i] == ([t] + d)[i + 1];
    }
    assert KeptSides([row] + rows, [draft] + drafts, [t] + d, m + 1)[1..] == KeptSides(rows, drafts, d, m);
  }

  /** A step whose first drafted token is `t`: it is rejected and replaced by `y[0]`, or it is `y[0]`, is
      kept, and the step goes on with probability `rest`. */
  ghost function Peeled(p: Model, q: Model, vocab: nat, h: seq<Token>, t: Token, y: seq<Token>, rest: real): real
    requires IsModel(p, vocab) && IsModel(q, vocab) && y != [] && forall i :: 0 <= i < |y| ==> y[i] < vocab
    requires t < vocab
  {
    Both(1.0 - Accept(p, q, vocab, h, t), Replaced(p, q, vocab, h, y))
    + if t == y[0] then Both(Accept(p, q, vocab, h, t), rest) else 0.0
  }

  lemma {:induction false} OutcomePeeled(p: Model, q: Model, vocab: nat, h: seq<Token>, t: Token, d: seq<Token>,
                                         y: seq<Token>, n: nat)
    requires StepOf(p, q, vocab, [t] + d, y) && n <= |d| + 1
    ensures t < vocab && StepOf(p, q, vocab, d, y[1..])
    ensures Outcome(p, q, vocab, h, [t] + d, y, n + 1)
            == Peeled(p, q, vocab, h, t, y, Outcome(p, q, vocab, h + [t], d, y[1..], n))
  {
    hide Both, KeptOutcome, Accept, Replaced, StepOf;
    StepOfMeans(p, q, vocab, [t] + d, y);
    StepOfRest(p, q, vocab, t, d, y);
    StepOfMeans(p, q, vocab, d, y[1..]);
    if n == 0 {
      FirstRejected(p, q, vocab, h, t, d, y);
      NothingLost(Accept(p, q, vocab, h, t));
      assert Outcome(p, q, vocab, h, [t] + d, y, 0) == 0.0;
    } else {
      OutcomePeeled(p, q, vocab, h, t, d, y, n - 1);
      FirstKept(p, q, vocab, h, t, d, y, n - 1);
      Distribute(Accept(p, q, vocab, h, t), Outcome(p, q, vocab, h + [t], d, y[1..], n - 1),
                 KeptOutcome(p, q, vocab, h + [t], d, y[1..], n - 1));
    }
  }

  lemma StepOfMeans(p: Model, q: Model, vocab: nat, d: seq<Token>, y: seq<Token>)
    requires StepOf(p, q, vocab, d, y)
    ensures IsModel(p, vocab) && IsModel(q, vocab) && |y| == |d| + 1
    ensures (forall i :: 0 <= i < |d| ==> d[i] < vocab) && forall i :: 0 <= i < |y| ==> y[i] < vocab
  {
    hide IsModel;
  }

  lemma {:induction false} SumPeeled(p: Model, q: Model, vocab: nat, h: seq<Token>, t: Token, d: seq<Token>,
                                     y: seq<Token>, n: nat)
    requires StepFrom(p, q, vocab, [t] + d, y) && |d| + 2 < |y| && n <= vocab
    ensures t < vocab && StepFrom(p, q, vocab, d, y[1..])
    ensures var w := q(h + [t] + d)[..n];
            StepSum(p, q, vocab, h, [t] + d, y, n)
            == Both(Total(w), Both(1.0 - Accept(p, q, vocab, h, t), Replaced(p, q, vocab, h, y)))
               + if t == y[0] then Both(Accept(p, q, vocab, h, t), StepSum(p, q, vocab, h + [t], d, y[1..], n)) else 0.0
    decreases |y| - |d|, n
  {
    hide Both, Accept, Replaced, Outcome, IsDistribution;
    StepFromRest(p, q, vocab, t, d, y);
    var a, c := Accept(p, q, vocab, h, t), Both(1.0 - Accept(p, q, vocab, h, t), Replaced(p, q, vocab, h, y));
    var row := q(h + [t] + d);
    assert h + ([t] + d) == h + [t] + d;
    if n == 0 {
      assert row[..0] == [];
      NothingLost(c);
      NothingLost(a);
    } else {
      SumPeeled(p, q, vocab, h, t, d, y, n - 1);
      var e := d + [n - 1];
      assert [t] + d + [n - 1] == [t] + e;
      StepPeeled(p, q, vocab, h, t, e, y);
      assert row[..n][..n - 1] == row[..n - 1];
      var s := StepProb(p, q, vocab, h + [t], e, y[1..]);
      Factor(Total(row[..n - 1]), row[n - 1], c);
      Distribute(row[n - 1], c, if t == y[0] then Both(a, s) else 0.0);
      NothingLost(row[n - 1]);
      Swap(row[n - 1], a, s);
      Distribute(a, StepSum(p, q, vocab, h + [t], d, y[1..], n - 1), Both(row[n - 1], s));
    }
  }

  lemma Swap(a: real, b: real, c: real)
    ensures Both(a, Both(b, c)) == Both(b, Both(a, c))
  {
    assert a * (b * c) == b * (a * c);
  }

  lemma StepFromRest(p: Model, q: Model, vocab: nat, t: Token, d: seq<Token>, y: seq<Token>)
    requires StepFrom(p, q, vocab, [t] + d, y)
    ensures t < vocab && StepFrom(p, q, vocab, d, y[1..])
  {
    hide IsModel;
    assert ([t] + d)[0] == t;
    forall i | 0 <= i < |d| ensures d[i] < vocab { assert d[i] == ([t] + d)[i + 1]; }
  }

  /** However the rest is drafted, a step whose first drafted token is `t` splits as `Peeled` says. */
  lemma {:induction false} StepPeeled(p: Model, q: Model, vocab: nat, h: seq<Token>, t: Token, d: seq<Token>,
                                      y: seq<Token>)
    requires StepFrom(p, q, vocab, [t] + d, y)
    ensures t < vocab && StepFrom(p, q, vocab, d, y[1..])
    ensures StepProb(p, q, vocab, h, [t] + d, y)
            == Peeled(p, q, vocab, h, t, y, StepProb(p, q, vocab, h + [t], d, y[1..]))
    decreases |y| - |d|, vocab + 1
  {
    hide Both, Accept, Replaced, Outcome;
    StepFromRest(p, q, vocab, t, d, y);
    if |d| + 2 == |y| {
      OutcomePeeled(p, q, vocab, h, t, d, y, |d| + 1);
    } else {
      SumPeeled(p, q, vocab, h, t, d, y, vocab);
      var row := q(h + [t] + d);
      assert row[..vocab] == row;
      BothOne(Both(1.0 - Accept(p, q, vocab, h, t), Replaced(p, q, vocab, h, y)));
    }
  }

  lemma BothOne(a: real)
    ensures Both(a, 1.0) == a && Both(1.0, a) == a
  {}

  lemma RejectMore(p: seq<real>, q: seq<real>, n: nat)
    requires |p| == |q| && 0 < n <= |p|
    ensures RejectProb(p[..n], q[..n])
            == RejectProb(p[..n - 1], q[..n - 1]) + Both(q[n - 1], 1.0 - AcceptProb(p[n - 1], q[n - 1]))
  {
    assert p[..n][..n - 1] == p[..n - 1] && q[..n][..n - 1] == q[..n - 1];
  }

  lemma NobodyRejected()
    ensures RejectProb([], []) == 0.0
  {}

  /** The first drafted token is one of the first `n` of the vocabulary. */
  lemma {:induction false} FirstToken(p: Model, q: Model, vocab: nat, h: seq<Token>, y: seq<Token>, n: nat)
    requires StepFrom(p, q, vocab, [], y) && |y| > 1 && n <= vocab
    ensures StepFrom(p, q, vocab, [], y[1..])
    ensures var rest := StepProb(p, q, vocab, h + [y[0]], [], y[1..]);
            StepSum(p, q, vocab, h, [], y, n)
            == Both(RejectProb(p(h)[..n], q(h)[..n]), Replaced(p, q, vocab, h, y))
               + if y[0] < n then Both(KeptProb(p(h)[y[0]], q(h)[y[0]]), rest) else 0.0
  {
    hide Both, Replaced, StepProb, AcceptProb, IsDistribution, RejectProb, Outcome;
    var c := Replaced(p, q, vocab, h, y);
    if n == 0 {
      assert p(h)[..0] == [] && q(h)[..0] == [];
      NobodyRejected();
      NothingLost(c);
    } else {
      var t := n - 1;
      FirstToken(p, q, vocab, h, y, t);
      assert h + [] == h && [t] + [] == [t] && [] + [t] == [t];
      StepPeeled(p, q, vocab, h, t, [], y);
      RejectMore(p(h), q(h), n);
      var a, s := Accept(p, q, vocab, h, t), StepProb(p, q, vocab, h + [t], [], y[1..]);
      Distribute(q(h)[t], Both(1.0 - a, c), if t == y[0] then Both(a, s) else 0.0);
      Regroup(q(h)[t], 1.0 - a, c);
      Regroup(q(h)[t], a, s);
      NothingLost(q(h)[t]);
      Factor(RejectProb(p(h)[..t], q(h)[..t]), Both(q(h)[t], 1.0 - a), c);
    }
  }

  /** What the verifier does with a whole draft amounts to taking one drafted token after the other. */
  lemma {:induction false} StepIsSpeculative(p: Model, q: Model, vocab: nat, h: seq<Token>, y: seq<Token>)
    requires StepFrom(p, q, vocab, [], y)
    ensures StepProb(p, q, vocab, h, [], y) == SpeculativeProb(p, q, vocab, h, |y| - 1, y)
    decreases |y|
  {
    hide Both, KeptProb, RejectProb, TargetProb, DrawProb, Replacement, IsDistribution;
    if |y| == 1 {
      WholeDraftKept(p, q, vocab, h, y);
    } else {
      StepIsSpeculative(p, q, vocab, h + [y[0]], y[1..]);
      FirstToken(p, q, vocab, h, y, vocab);
      assert p(h)[..vocab] == p(h) && q(h)[..vocab] == q(h);
      ReplacementDrawable(p(h), q(h));
      Regroup(RejectProb(p(h), q(h)), DrawProb(Replacement(p(h), q(h)), y[0]),
              TargetProb(p, vocab, h + [y[0]], y[1..]));
    }
  }

  lemma WholeDraftKept(p: Model, q: Model, vocab: nat, h: seq<Token>, y: seq<Token>)
    requires StepFrom(p, q, vocab, [], y) && |y| == 1
    ensures StepProb(p, q, vocab, h, [], y) == p(h)[y[0]]
  {
    hide Both, IsDistribution, Total;
    var w := p(h);
    assert h + [][..0] == h && y[1..] == [] && [][..0] == y[..0];
    assert StepWeights(p, q, vocab, h, [], 0) == w;
    LastWeightsExact([w], [], 0);
    assert TargetProb(p, vocab, h + y[..1], []) == 1.0;
    assert Volume([]) == 1.0;
    BothOne(w[y[0]]);
    assert Outcome(p, q, vocab, h, [], y, 1)
           == Outcome(p, q, vocab, h, [], y, 0) + KeptOutcome(p, q, vocab, h, [], y, 0);
  }

  /** Speculation changes nothing the client can observe: for every target, every drafter, every draft
      length and every history, drafting, verifying as the verifier does and going on with the target
      continues the history with the target's own distribution. */
  lemma SpeculationPreservesLaw(p: Model, q: Model, vocab: nat, h: seq<Token>, y: seq<Token>)
    requires IsModel(p, vocab) && IsModel(q, vocab) && y != [] && forall i :: 0 <= i < |y| ==> y[i] < vocab
    ensures StepProb(p, q, vocab, h, [], y) == TargetProb(p, vocab, h, y)
  {
    hide StepProb, SpeculativeProb, TargetProb;
    StepIsSpeculative(p, q, vocab, h, y);
    SpeculativeIsTarget(p, q, vocab, h, |y| - 1, y);
  }

  // ---- greedy ---------------------------------------------------------------------------------------------------

  /** What a greedy target continues `h` with. */
  function GreedyContinuation(next: seq<Token> -> Token, h: seq<Token>, n: nat): (r: seq<Token>)
    ensures |r| == n
  {
    if n == 0 then []
    else
      var before := GreedyContinuation(next, h, n - 1);
      before + [next(h + before)]
  }

  lemma {:induction false} GreedyPrefix(next: seq<Token> -> Token, h: seq<Token>, m: nat, n: nat)
    requires m <= n
    ensures GreedyContinuation(next, h, n)[..m] == GreedyContinuation(next, h, m)
  {
    if m < n { GreedyPrefix(next, h, m, n - 1); }
  }

  /** Row `j` of the target is its choice after `h` and the first `j` drafted tokens. What is emitted
      is the target's greedy continuation of `h`, and it stops before `k + 1` tokens only where the
      draft departs from it. */
  method VerifyGreedy(next: seq<Token> -> Token, h: seq<Token>, drafts: seq<Token>, greedy: seq<Token>)
    returns (v: Verification)
    requires |greedy| == |drafts| + 1
    requires forall j :: 0 <= j <= |drafts| ==> greedy[j] == next(h + drafts[..j])
    ensures v.drafted == |drafts| && |v.accepted| <= |drafts| && v.accepted == drafts[..|v.accepted|]
    ensures Emitted(v) == GreedyContinuation(next, h, |v.accepted| + 1)
    ensures |v.accepted| < |drafts| ==> drafts[..|v.accepted| + 1] != GreedyContinuation(next, h, |v.accepted| + 1)
  {
    var i := 0;
    var accepted: seq<Token> := [];
    while i < |drafts| && greedy[i] == drafts[i]
      invariant i <= |drafts| && accepted == drafts[..i]
      invariant accepted == GreedyContinuation(next, h, i)
    {
      assert drafts[..i + 1] == drafts[..i] + [drafts[i]];
      accepted := accepted + [drafts[i]];
      i := i + 1;
    }
    v := Verification(accepted, greedy[i], |drafts|);
    if i < |drafts| {
      assert drafts[..i + 1][i] != GreedyContinuation(next, h, i + 1)[i];
    }
  }
}
