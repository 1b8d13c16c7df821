/** The stable sort behind every `sorted(..., key=...)` call of the modelled code, and what
    makes its result independent of how the sort is carried out. */
module Sorting {

  ghost predicate TotalPreorder<T(!new)>(leq: (T, T) -> bool) {
    && (forall a, b :: leq(a, b) || leq(b, a))
    && (forall a, b, c :: leq(a, b) && leq(b, c) ==> leq(a, c))
  }

  ghost predicate SortedBy<T(!new)>(leq: (T, T) -> bool, s: seq<T>) {
    forall i, j :: 0 <= i < j < |s| ==> leq(s[i], s[j])
  }

  /** Insert `x` in front of the first element it does not exceed. */
  function Insert<T>(leq: (T, T) -> bool, x: T, s: seq<T>): (r: seq<T>)
    ensures |r| == |s| + 1
  {
    if s == [] then [x]
    else if leq(x, s[0]) then [x] + s
    else [s[0]] + Insert(leq, x, s[1..])
  }

  /** Stable insertion sort: an element is placed before its equals that followed it. */
  function Sort<T>(leq: (T, T) -> bool, s: seq<T>): (r: seq<T>)
    ensures |r| == |s|
  {
    if s == [] then [] else Insert(leq, s[0], Sort(leq, s[1..]))
  }

  lemma {:induction false} InsertPermutes<T>(leq: (T, T) -> bool, x: T, s: seq<T>)
    ensures multiset(Insert(leq, x, s)) == multiset{x} + multiset(s)
  {
    if s != [] && !leq(x, s[0]) {
      InsertPermutes(leq, x, s[1..]);
      assert s == [s[0]] + s[1..];
    }
  }

  lemma {:induction false} SortPermutes<T>(leq: (T, T) -> bool, s: seq<T>)
    ensures multiset(Sort(leq, s)) == multiset(s)
  {
    if s != [] {
      SortPermutes(leq, s[1..]);
      InsertPermutes(leq, s[0], Sort(leq, s[1..]));
      assert s == [s[0]] + s[1..];
    }
  }

  lemma {:induction false} InsertKeepsSorted<T(!new)>(leq: (T, T) -> bool, x: T, s: seq<T>)
    requires TotalPreorder(leq) && SortedBy(leq, s)
    ensures SortedBy(leq, Insert(leq, x, s))
  {
    if s != [] && !leq(x, s[0]) {
      InsertKeepsSorted(leq, x, s[1..]);
      var r := Insert(leq, x, s[1..]);
      InsertPermutes(leq, x, s[1..]);
      forall j | 0 <= j < |r| ensures leq(s[0], r[j]) {
        assert r[j] in multiset(r);
        if r[j] != x {
          assert r[j] in s[1..];
        }
      }
    }
  }

  lemma {:induction false} SortSorts<T(!new)>(leq: (T, T) -> bool, s: seq<T>)
    requires TotalPreorder(leq)
    ensures SortedBy(leq, Sort(leq, s))
  {
    if s != [] {
      SortSorts(leq, s[1..]);
      InsertKeepsSorted(leq, s[0], Sort(leq, s[1..]));
    }
  }

  lemma SortMember<T>(leq: (T, T) -> bool, s: seq<T>, x: T)
    ensures x in Sort(leq, s) <==> x in s
  {
    SortPermutes(leq, s);
    assert x in Sort(leq, s) <==> x in multiset(Sort(leq, s));
    assert x in s <==> x in multiset(s);
  }

  /** A list that is already in order is left alone, ties included. */
  lemma {:induction false} SortOfSorted<T(!new)>(leq: (T, T) -> bool, s: seq<T>)
    requires SortedBy(leq, s)
    ensures Sort(leq, s) == s
  {
    if s != [] {
      SortOfSorted(leq, s[1..]);
      assert |s| > 1 ==> leq(s[0], s[1]);
      assert s == [s[0]] + s[1..];
    }
  }

  // ---- reals ----------------------------------------------------------------------

  function RealLeq(a: real, b: real): bool { a <= b }

  function SortReals(s: seq<real>): (r: seq<real>)
    ensures |r| == |s| && Ascending(r)
  {
    SortSorts(RealLeq, s);
    assert forall i, j :: 0 <= i < j < |s| ==> RealLeq(Sort(RealLeq, s)[i], Sort(RealLeq, s)[j]);
    Sort(RealLeq, s)
  }

  ghost predicate Ascending(s: seq<real>) {
    forall i, j :: 0 <= i < j < |s| ==> s[i] <= s[j]
  }

  /** A multiset of reals has one sorted arrangement. */
  lemma {:induction false} SortedUnique(a: seq<real>, b: seq<real>)
    requires Ascending(a) && Ascending(b) && multiset(a) == multiset(b)
    ensures a == b
  {
    assert |a| == |b| by { assert |a| == |multiset(a)| == |multiset(b)| == |b|; }
    if a != [] {
      assert a[0] == b[0] by { SameHead(a, b); }
      TailMultiset(a);
      TailMultiset(b);
      SortedUnique(a[1..], b[1..]);
      assert a == [a[0]] + a[1..] && b == [b[0]] + b[1..];
    }
  }

  lemma SameHead(a: seq<real>, b: seq<real>)
    requires Ascending(a) && Ascending(b) && multiset(a) == multiset(b) && a != [] && b != []
    ensures a[0] == b[0]
  {
    assert a[0] in multiset(b) && b[0] in multiset(a);
  }

  lemma TailMultiset(a: seq<real>)
    requires a != []
    ensures multiset(a[1..]) == multiset(a) - multiset{a[0]}
  {
    assert a == [a[0]] + a[1..];
  }

  /** Elementwise order between two lists of the same length. */
  ghost predicate Dominates(lower: seq<real>, upper: seq<real>) {
    |lower| == |upper| && forall i :: 0 <= i < |lower| ==> lower[i] <= upper[i]
  }

  lemma ConsDominates(x: real, s: seq<real>, y: real, t: seq<real>)
    requires x <= y && Dominates(s, t)
    ensures Dominates([x] + s, [y] + t)
  {
  }

  lemma InsertInFront(x: real, s: seq<real>)
    requires s == [] || x <= s[0]
    ensures Insert(RealLeq, x, s) == [x] + s
  {
  }

  lemma InsertBehind(x: real, s: seq<real>)
    requires s != [] && s[0] < x
    ensures Insert(RealLeq, x, s) == [s[0]] + Insert(RealLeq, x, s[1..])
  {
  }

  lemma {:induction false} InsertDominates(x: real, y: real, s: seq<real>, t: seq<real>)
    requires x <= y && Dominates(s, t) && Ascending(s) && Ascending(t)
    ensures Dominates(Insert(RealLeq, x, s), Insert(RealLeq, y, t))
    decreases |s|
  {
    hide Insert;
    if s == [] {
      InsertInFront(x, s);
      InsertInFront(y, t);
      ConsDominates(x, s, y, t);
    } else if x <= s[0] && y <= t[0] {
      InsertInFront(x, s);
      InsertInFront(y, t);
      ConsDominates(x, s, y, t);
    } else if x <= s[0] {
      InsertInFront(x, s);
      InsertBehind(y, t);
      InsertDominates(s[0], y, s[1..], t[1..]);
      InsertInFront(s[0], s[1..]);
      assert [s[0]] + s[1..] == s;
      ConsDominates(x, s, t[0], Insert(RealLeq, y, t[1..]));
    } else if y <= t[0] {
      InsertBehind(x, s);
      InsertInFront(y, t);
      InsertDominates(x, t[0], s[1..], t[1..]);
      InsertInFront(t[0], t[1..]);
      assert [t[0]] + t[1..] == t;
      ConsDominates(s[0], Insert(RealLeq, x, s[1..]), y, t);
    } else {
      InsertBehind(x, s);
      InsertBehind(y, t);
      InsertDominates(x, y, s[1..], t[1..]);
      ConsDominates(s[0], Insert(RealLeq, x, s[1..]), t[0], Insert(RealLeq, y, t[1..]));
    }
  }

  /** Raising entries of a list raises every order statistic: sorting keeps dominance. */
  lemma {:induction false} SortDominates(s: seq<real>, t: seq<real>)
    requires Dominates(s, t)
    ensures Dominates(SortReals(s), SortReals(t))
  {
    if s != [] {
      SortDominates(s[1..], t[1..]);
      InsertDominates(s[0], t[0], SortReals(s[1..]), SortReals(t[1..]));
    }
  }

  // ---- increasing affine maps ------------------------------------------------------

  function Rescale(x: real, shift: real, scale: real): real { (x - shift) * scale }

  function Affine(s: seq<real>, shift: real, scale: real): (r: seq<real>)
    ensures |r| == |s| && forall i :: 0 <= i < |s| ==> r[i] == Rescale(s[i], shift, scale)
  {
    if s == [] then [] else [Rescale(s[0], shift, scale)] + Affine(s[1..], shift, scale)
  }

  lemma RescaleOrder(x: real, y: real, shift: real, scale: real)
    requires scale > 0.0
    ensures x <= y <==> Rescale(x, shift, scale) <= Rescale(y, shift, scale)
  {
    assert (y - shift) * scale - (x - shift) * scale == (y - x) * scale;
    if x > y {
      assert (x - y) * scale > 0.0;
      assert (y - x) * scale == -((x - y) * scale);
    }
  }

  lemma {:induction false} InsertAffine(x: real, s: seq<real>, shift: real, scale: real)
    requires scale > 0.0
    ensures Insert(RealLeq, Rescale(x, shift, scale), Affine(s, shift, scale))
         == Affine(Insert(RealLeq, x, s), shift, scale)
    decreases |s|
  {
    if s != [] {
      RescaleOrder(x, s[0], shift, scale);
      assert Affine(s, shift, scale)[1..] == Affine(s[1..], shift, scale);
      InsertAffine(x, s[1..], shift, scale);
    }
  }

  /** An increasing affine map changes no element's rank. */
  lemma {:induction false} SortAffine(s: seq<real>, shift: real, scale: real)
    requires scale > 0.0
    ensures SortReals(Affine(s, shift, scale)) == Affine(SortReals(s), shift, scale)
  {
    if s != [] {
      assert Affine(s, shift, scale)[1..] == Affine(s[1..], shift, scale);
      SortAffine(s[1..], shift, scale);
      InsertAffine(s[0], SortReals(s[1..]), shift, scale);
    }
  }

  // ---- strings ------------------------------------------------------------------------------

  /** Lexicographic order. */
  predicate StringLeq(a: string, b: string) {
    a == "" || (b != "" && (a[0] < b[0] || (a[0] == b[0] && StringLeq(a[1..], b[1..]))))
  }

  lemma {:induction false} StringLeqTotal(a: string, b: string)
    ensures StringLeq(a, b) || StringLeq(b, a)
    decreases |a|
  {
    if a != "" && b != "" { StringLeqTotal(a[1..], b[1..]); }
  }

  lemma {:induction false} StringLeqTransitive(a: string, b: string, c: string)
    requires StringLeq(a, b) && StringLeq(b, c)
    ensures StringLeq(a, c)
    decreases |a|
  {
    if a != "" && a[0] == b[0] == c[0] { StringLeqTransitive(a[1..], b[1..], c[1..]); }
  }

  lemma {:induction false} StringLeqAntisymmetric(a: string, b: string)
    requires StringLeq(a, b) && StringLeq(b, a)
    ensures a == b
    decreases |a|
  {
    if a != "" {
      StringLeqAntisymmetric(a[1..], b[1..]);
      assert a == [a[0]] + a[1..] && b == [b[0]] + b[1..];
    }
  }
}
