/** `percentile` (src/turboserve/bench/records.py): linear interpolation between ranks. */
module Records {
  import opened Prelude
  import opened Sorting

  predicate IsQuantile(q: real) { 0.0 <= q <= 100.0 }

  function Rank(q: real, n: nat): (r: real)
    requires IsQuantile(q) && n > 0
    ensures 0.0 <= r <= (n - 1) as real
  {
    Portion(q / 100.0, (n - 1) as real)
  }

  function Blend(a: real, b: real, f: real): real { a + Portion(f, b - a) }

  function Interpolate(ordered: seq<real>, q: real): real
    requires IsQuantile(q) && |ordered| > 0
  {
    if |ordered| == 1 then ordered[0]
    else
      var rank := Rank(q, |ordered|);
      var low := rank.Floor;
      var high := Ceil(rank);
      if low == high then ordered[low]
      else Blend(ordered[low], ordered[high], rank - low as real)
  }

  /** The percentile of a sample; an empty sample has none. */
  function PercentileOf(values: seq<real>, q: real): (r: Option<real>)
    requires IsQuantile(q)
    ensures r.Some? <==> values != []
  {
    if values == [] then None else Some(Interpolate(SortReals(values), q))
  }

  datatype PercentileError = QuantileOutOfRange(q: real)

  /** The function as called, with its range check on `q`. */
  function Percentile(values: seq<real>, q: real): (r: Result<Option<real>, PercentileError>)
    ensures r.Ok? <==> IsQuantile(q)
    ensures r.Ok? ==> (r.value.None? <==> values == [])
  {
    if !IsQuantile(q) then Err(QuantileOutOfRange(q)) else Ok(PercentileOf(values, q))
  }

  // ---- what the interpolation means --------------------------------------------------

  lemma BlendMonotone(a: real, b: real, a': real, b': real, f: real)
    requires a <= a' && b <= b' && 0.0 <= f <= 1.0
    ensures Blend(a, b, f) <= Blend(a', b', f)
  {
    assert Portion(f, b' - a') - Portion(f, b - a) == Portion(f, b' - b) - Portion(f, a' - a);
  }

  lemma InterpolateBetween(s: seq<real>, q: real)
    requires IsQuantile(q) && s != [] && Ascending(s)
    ensures s[Rank(q, |s|).Floor] <= Interpolate(s, q) <= s[Ceil(Rank(q, |s|))]
    ensures q == 0.0 ==> Interpolate(s, q) == s[0]
    ensures q == 100.0 ==> Interpolate(s, q) == s[|s| - 1]
  {
    var low, high := Rank(q, |s|).Floor, Ceil(Rank(q, |s|));
    assert low <= high && s[low] <= s[high];
  }

  /** The percentile lies between the two samples its rank falls between; q = 0 and q = 100 are
      the sample's extremes. */
  lemma PercentileBetweenRanks(values: seq<real>, q: real)
    requires IsQuantile(q) && values != []
    ensures var s, r := SortReals(values), Rank(q, |values|);
            var p := PercentileOf(values, q).value;
            && s[r.Floor] <= p <= s[Ceil(r)]
            && (q == 0.0 ==> p == s[0])
            && (q == 100.0 ==> p == s[|s| - 1])
  {
    hide Interpolate, SortReals;
    InterpolateBetween(SortReals(values), q);
  }

  /** Spread evenly from q = 0 to q = 100, `q` falls between the values `i` and `i + 1` of `n`. */
  predicate Between(q: real, n: nat, i: nat) { 100.0 * i as real <= q * (n as real - 1.0) <= 100.0 * (i as real + 1.0) }

  /** `p` is as far from `s[i]` to `s[i + 1]` as `q` is from the one's place to the other's. */
  ghost predicate OnSegment(s: seq<real>, q: real, p: real, i: nat)
    requires i + 1 < |s|
  {
    100.0 * (p - s[i]) == (q * (|s| as real - 1.0) - 100.0 * i as real) * (s[i + 1] - s[i])
  }

  /** `p` is where the line through these values, in order and evenly spread, stands at `q`. */
  ghost predicate OnLine(s: seq<real>, q: real, p: real) {
    && s != [] && Ascending(s) && (|s| == 1 ==> p == s[0])
    && forall i: nat :: i + 1 < |s| && Between(q, |s|, i) ==> OnSegment(s, q, p, i)
  }

  lemma SegmentArithmetic(r: real, k: real, a: real, b: real, p: real, place: real)
    requires 100.0 * r == place && p == a + (r - k) * (b - a)
    ensures 100.0 * (p - a) == (place - 100.0 * k) * (b - a)
  {
    assert 100.0 * ((r - k) * (b - a)) == (100.0 * (r - k)) * (b - a);
  }

  lemma BlendOnSegment(s: seq<real>, q: real, i: nat)
    requires IsQuantile(q) && i + 1 < |s| && Between(q, |s|, i)
    ensures OnSegment(s, q, Interpolate(s, q), i)
  {
    var r, k, place := Rank(q, |s|), i as real, q * (|s| as real - 1.0);
    assert 100.0 * r == place by { assert 100.0 * (q / 100.0) == q; }
    assert k <= r <= k + 1.0;
    var low, high := r.Floor, Ceil(r);
    if r == k + 1.0 {
      assert low == high == i + 1;
    } else {
      assert low == i && (r > k ==> high == i + 1);
    }
    SegmentArithmetic(r, k, s[i], s[i + 1], Interpolate(s, q), place);
  }

  /** The percentile is where the line through the sorted samples stands at `q`. */
  lemma PercentileOnLine(values: seq<real>, q: real)
    requires IsQuantile(q) && values != []
    ensures OnLine(SortReals(values), q, PercentileOf(values, q).value)
    ensures multiset(SortReals(values)) == multiset(values)
  {
    var s := SortReals(values);
    SortPermutes(RealLeq, values);
    hide Interpolate, Between, OnSegment;
    forall i: nat | i + 1 < |s| && Between(q, |s|, i) ensures OnSegment(s, q, PercentileOf(values, q).value, i) {
      BlendOnSegment(s, q, i);
    }
    OnlyValue(s, q);
  }

  lemma OnlyValue(s: seq<real>, q: real)
    requires IsQuantile(q) && s != []
    ensures |s| == 1 ==> Interpolate(s, q) == s[0]
  {}

  /** The result depends on the multiset of samples only. */
  lemma PercentileIgnoresOrder(a: seq<real>, b: seq<real>, q: real)
    requires IsQuantile(q) && multiset(a) == multiset(b)
    ensures PercentileOf(a, q) == PercentileOf(b, q)
  {
    assert |a| == |multiset(a)| == |multiset(b)| == |b|;
    SortPermutes(RealLeq, a);
    SortPermutes(RealLeq, b);
    SortedUnique(SortReals(a), SortReals(b));
  }

  /** Raising any of the samples never lowers a percentile. */
  lemma PercentileMonotone(a: seq<real>, b: seq<real>, q: real)
    requires IsQuantile(q) && Dominates(a, b) && a != []
    ensures PercentileOf(a, q).value <= PercentileOf(b, q).value
  {
    SortDominates(a, b);
    var s, t, r := SortReals(a), SortReals(b), Rank(q, |a|);
    if |s| > 1 && r.Floor != Ceil(r) {
      BlendMonotone(s[r.Floor], s[Ceil(r)], t[r.Floor], t[Ceil(r)], r - r.Floor as real);
    }
  }

  /** Percentiles commute with every increasing affine map. */
  lemma PercentileAffine(values: seq<real>, q: real, shift: real, scale: real)
    requires IsQuantile(q) && scale > 0.0 && values != []
    ensures PercentileOf(Affine(values, shift, scale), q).Some?
    ensures PercentileOf(Affine(values, shift, scale), q).value
         == Rescale(PercentileOf(values, q).value, shift, scale)
  {
    SortAffine(values, shift, scale);
    InterpolateAffine(SortReals(values), q, shift, scale);
  }

  lemma InterpolateAffine(s: seq<real>, q: real, shift: real, scale: real)
    requires IsQuantile(q) && s != []
    ensures Interpolate(Affine(s, shift, scale), q) == Rescale(Interpolate(s, q), shift, scale)
  {
    hide Blend, Rescale;
    var t, r := Affine(s, shift, scale), Rank(q, |s|);
    var low, high := r.Floor, Ceil(r);
    if |s| == 1 || low == high {
    } else {
      var f := r - low as real;
      calc {
        Interpolate(t, q);
        Blend(t[low], t[high], f);
        Blend(Rescale(s[low], shift, scale), Rescale(s[high], shift, scale), f);
        { AffineBlend(s[low], s[high], f, shift, scale); }
        Rescale(Blend(s[low], s[high], f), shift, scale);
      }
    }
  }

  lemma AffineBlend(a: real, b: real, f: real, shift: real, scale: real)
    ensures Blend(Rescale(a, shift, scale), Rescale(b, shift, scale), f)
         == Rescale(Blend(a, b, f), shift, scale)
  {
    assert (b - shift) * scale - (a - shift) * scale == (b - a) * scale;
    assert f * ((b - a) * scale) == f * (b - a) * scale;
  }
}
