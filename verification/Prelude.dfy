/** Small vocabulary shared by every module: optional values, results and bounded sums. */
module Prelude {

  datatype Option<+T> = None | Some(value: T)

  datatype Result<+T, +E> = Ok(value: T) | Err(error: E)

  function Min(a: real, b: real): (m: real)
    ensures m <= a && m <= b && (m == a || m == b)
  {
    if a <= b then a else b
  }

  function Max(a: real, b: real): (m: real)
    ensures a <= m && b <= m && (m == a || m == b)
  {
    if a <= b then b else a
  }

  /** `math.ceil` on reals. */
  function Ceil(x: real): (n: int)
    ensures x <= n as real < x + 1.0
  {
    -((-x).Floor)
  }

  /** The last `n` elements of `s`, or all of them when there are fewer. */
  function LastN<T>(s: seq<T>, n: nat): (r: seq<T>)
    ensures |r| == if |s| <= n then |s| else n
  {
    if |s| <= n then s else LastN(s[1..], n)
  }

  lemma {:induction false} LastNIsSuffix<T>(s: seq<T>, n: nat)
    ensures LastN(s, n) == s[|s| - |LastN(s, n)|..]
  {
    if |s| > n {
      LastNIsSuffix(s[1..], n);
    }
  }

  /** Capping after every append is capping once. */
  lemma {:induction false} LastNAppend<T>(s: seq<T>, x: T, n: nat)
    requires n >= 1
    ensures LastN(LastN(s, n) + [x], n) == LastN(s + [x], n)
  {
    if |s| > n {
      assert (s + [x])[1..] == s[1..] + [x];
      LastNAppend(s[1..], x, n);
    }
  }

  /** A proper fraction of something positive is less than it. */
  lemma FractionBelow(f: real, m: real)
    requires 0.0 <= f < 1.0 && m > 0.0
    ensures 0.0 <= f * m < m
  {
    assert m - f * m == (1.0 - f) * m;
    assert (1.0 - f) * m > 0.0;
  }

  /** A fraction of a length. */
  function Portion(f: real, m: real): (r: real)
    ensures 0.0 <= f <= 1.0 && 0.0 <= m ==> 0.0 <= r <= m
  {
    assert 0.0 <= f && 0.0 <= m ==> f * m >= 0.0;
    assert f <= 1.0 && 0.0 <= m ==> (1.0 - f) * m >= 0.0;
    assert m - f * m == (1.0 - f) * m;
    f * m
  }

  lemma PortionBelow(f: real, m: real)
    requires 0.0 <= f < 1.0 && m > 0.0
    ensures 0.0 <= Portion(f, m) < m
  {
    FractionBelow(f, m);
  }

  /** Where `x` stands in the list; its length if nowhere. */
  function Place(s: seq<nat>, x: nat): nat {
    if s == [] || s[0] == x then 0 else 1 + Place(s[1..], x)
  }

  lemma {:induction false} PlaceAppend(s: seq<nat>, t: seq<nat>, x: nat)
    ensures x in s ==> Place(s + t, x) == Place(s, x) < |s|
    ensures x !in s ==> Place(s + t, x) == |s| + Place(t, x)
  {
    if s != [] {
      assert (s + t)[1..] == s[1..] + t;
      PlaceAppend(s[1..], t, x);
    } else {
      assert s + t == t;
    }
  }

  // ---- repeated addition --------------------------------------------------------------

  /** `k` times `step`, by repeated addition. */
  function Steps(step: real, k: nat): real {
    if k == 0 then 0.0 else Steps(step, k - 1) + step
  }

  lemma {:induction false} StepsIsProduct(step: real, k: nat)
    ensures Steps(step, k) == k as real * step
  {
    if k > 0 {
      StepsIsProduct(step, k - 1);
      assert k as real * step == (k - 1) as real * step + step;
    }
  }

  lemma {:induction false} StepsAdd(step: real, j: nat, k: nat)
    ensures Steps(step, j + k) == Steps(step, j) + Steps(step, k)
  {
    if k > 0 { StepsAdd(step, j, k - 1); }
  }

  lemma {:induction false} StepsMonotone(step: real, j: nat, k: nat)
    requires step > 0.0 && j <= k
    ensures Steps(step, j) <= Steps(step, k)
    ensures j < k ==> Steps(step, j) < Steps(step, k)
  {
    if j < k { StepsMonotone(step, j, k - 1); }
  }

  lemma CompareScaled(a: real, b: real, step: real)
    requires step > 0.0
    ensures a < b <==> a * step < b * step
  {
    assert b * step - a * step == (b - a) * step;
    assert a < b ==> (b - a) * step > 0.0;
    assert a >= b ==> (a - b) * step >= 0.0;
  }

  lemma CompareRounded(x: real, k: int)
    ensures k <= x.Floor <==> k as real <= x
    ensures k < Ceil(x) <==> k as real < x
  {
    var c := Ceil(x);
    if k < c {
      assert k + 1 <= c;
      assert (k + 1) as real <= c as real;
    } else {
      assert k as real >= c as real;
    }
  }

  lemma Quotient(d: real, step: real)
    requires step > 0.0
    ensures d / step * step == d
  {}

  /** `k` steps fit in `d` exactly when `k` is at most the floor of the quotient. */
  lemma {:induction false} StepsFit(step: real, d: real, k: nat)
    requires step > 0.0
    ensures Steps(step, k) <= d <==> k <= (d / step).Floor
  {
    Quotient(d, step);
    StepsFitQuotient(step, d, k, d / step);
  }

  lemma {:induction false} StepsFitQuotient(step: real, d: real, k: nat, x: real)
    requires step > 0.0 && x * step == d
    ensures Steps(step, k) <= d <==> k <= x.Floor
  {
    StepsIsProduct(step, k);
    CompareScaled(x, k as real, step);
    CompareRounded(x, k);
  }

  /** `k` steps stay below `d` exactly when `k` is below the quotient rounded up. */
  lemma {:induction false} StepsBelow(step: real, d: real, k: nat)
    requires step > 0.0
    ensures Steps(step, k) < d <==> k < Ceil(d / step)
  {
    Quotient(d, step);
    StepsBelowQuotient(step, d, k, d / step);
  }

  lemma {:induction false} StepsBelowQuotient(step: real, d: real, k: nat, x: real)
    requires step > 0.0 && x * step == d
    ensures Steps(step, k) < d <==> k < Ceil(x)
  {
    StepsIsProduct(step, k);
    CompareScaled(k as real, x, step);
    CompareRounded(x, k);
  }
}
