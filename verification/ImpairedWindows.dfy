/** Impaired time of a chaos run (src/turboserve/chaos/harness.py): merging the windows of
    disruptions, splitting records by them, and finding when each replica was used again. */
module ImpairedWindows {
  import opened Prelude
  import opened Sorting
  import opened OutageSweep

  /** Tuple order: start, then end. */
  predicate SpanOrder(a: Span, b: Span) { a.start < b.start || (a.start == b.start && a.end <= b.end) }

  predicate Positive(w: Span) { w.end > w.start }

  function Positives(windows: seq<Span>): (r: seq<Span>)
    ensures forall i :: 0 <= i < |r| ==> Positive(r[i])
  {
    if windows == [] then []
    else
      var last := windows[|windows| - 1];
      Positives(windows[..|windows| - 1]) + (if Positive(last) then [last] else [])
  }

  lemma {:induction false} PositivesCover(windows: seq<Span>, t: real)
    ensures InSome(Positives(windows), t) <==> InSome(windows, t)
  {
    if windows != [] {
      var before, w := windows[..|windows| - 1], windows[|windows| - 1];
      PositivesCover(before, t);
      InSomeAppend(before, w, t);
      assert windows == before + [w];
      if Positive(w) {
        InSomeAppend(Positives(before), w, t);
      } else {
        assert Positives(windows) == Positives(before);
      }
    }
  }

  /** The non-empty windows in order. */
  function OrderedSpans(windows: seq<Span>): (r: seq<Span>)
    ensures forall i :: 0 <= i < |r| ==> Positive(r[i])
    ensures forall i, j :: 0 <= i < j < |r| ==> r[i].start <= r[j].start
    ensures multiset(r) == multiset(Positives(windows))
  {
    var p := Positives(windows);
    SortSorts(SpanOrder, p);
    SortPermutes(SpanOrder, p);
    var r := Sort(SpanOrder, p);
    assert forall i :: 0 <= i < |r| ==> Positive(r[i]) by {
      forall i | 0 <= i < |r| ensures Positive(r[i]) {
        assert r[i] in multiset(r);
        assert r[i] in p;
      }
    }
    assert forall i, j :: 0 <= i < j < |r| ==> SpanOrder(r[i], r[j]);
    r
  }

  lemma SameCover(a: seq<Span>, b: seq<Span>, t: real)
    requires multiset(a) == multiset(b) && InSome(a, t)
    ensures InSome(b, t)
  {
    var k :| 0 <= k < |a| && Within(a[k], t);
    assert a[k] in multiset(a);
    assert a[k] in b;
  }

  lemma OrderedCover(windows: seq<Span>, t: real)
    ensures InSome(OrderedSpans(windows), t) <==> InSome(windows, t)
  {
    PositivesCover(windows, t);
    if InSome(OrderedSpans(windows), t) { SameCover(OrderedSpans(windows), Positives(windows), t); }
    if InSome(Positives(windows), t) { SameCover(Positives(windows), OrderedSpans(windows), t); }
  }

  // ---- merging ---------------------------------------------------------------------------------

  /** Positive lengths, in order, with a gap between neighbours. */
  ghost predicate Canonical(m: seq<Span>) {
    && (forall i :: 0 <= i < |m| ==> m[i].start < m[i].end)
    && (forall i :: 1 <= i < |m| ==> m[i - 1].end < m[i].start)
  }

  ghost predicate SameTimes(a: seq<Span>, b: seq<Span>) {
    forall t :: InSome(a, t) <==> InSome(b, t)
  }

  lemma AppendSame(m: seq<Span>, done: seq<Span>, w: Span)
    requires SameTimes(m, done)
    ensures SameTimes(m + [w], done + [w])
  {
    forall t ensures InSome(m + [w], t) <==> InSome(done + [w], t) {
      InSomeAppend(m, w, t);
      InSomeAppend(done, w, t);
    }
  }

  /** Stretching the last window over one that touches it is the same as adding that one. */
  lemma StretchSame(front: seq<Span>, last: Span, done: seq<Span>, w: Span)
    requires SameTimes(front + [last], done) && last.start <= w.start <= last.end
    ensures SameTimes(front + [Span(last.start, Max(last.end, w.end))], done + [w])
  {
    forall t ensures InSome(front + [Span(last.start, Max(last.end, w.end))], t) <==> InSome(done + [w], t) {
      InSomeAppend(front, Span(last.start, Max(last.end, w.end)), t);
      InSomeAppend(front, last, t);
      InSomeAppend(done, w, t);
    }
  }

  lemma StretchCanonical(front: seq<Span>, last: Span, w: Span)
    requires Canonical(front + [last]) && Positive(w)
    ensures Canonical(front + [Span(last.start, Max(last.end, w.end))])
  {
    var m := front + [Span(last.start, Max(last.end, w.end))];
    var before := front + [last];
    assert forall i :: 0 <= i < |front| ==> m[i] == before[i];
    assert before[|front|] == last;
  }

  lemma AppendCanonical(m: seq<Span>, w: Span)
    requires Canonical(m) && Positive(w) && (m != [] ==> m[|m| - 1].end < w.start)
    ensures Canonical(m + [w])
  {}

  /** Merge overlapping or touching windows: the same times, in canonical form. */
  method MergeWindows(windows: seq<Span>) returns (merged: seq<Span>)
    ensures Canonical(merged) && SameTimes(merged, windows)
  {
    hide SameTimes, InSome, OrderedSpans, Canonical;
    var ordered := OrderedSpans(windows);
    NothingMerged();
    merged := [];
    for i := 0 to |ordered|
      invariant Canonical(merged)
      invariant SameTimes(merged, ordered[..i])
      invariant merged != [] && i < |ordered| ==> merged[|merged| - 1].start <= ordered[i].start
    {
      var w := ordered[i];
      assert ordered[..i + 1] == ordered[..i] + [w];
      if merged != [] && w.start <= merged[|merged| - 1].end {
        var last := merged[|merged| - 1];
        ghost var front := merged[..|merged| - 1];
        assert merged == front + [last];
        StretchSame(front, last, ordered[..i], w);
        StretchCanonical(front, last, w);
        merged := merged[|merged| - 1 := Span(last.start, Max(last.end, w.end))];
        assert merged == front + [Span(last.start, Max(last.end, w.end))];
      } else {
        AppendSame(merged, ordered[..i], w);
        AppendCanonical(merged, w);
        merged := merged + [w];
      }
    }
    assert ordered[..|ordered|] == ordered;
    MergedCover(merged, windows);
  }

  lemma NothingMerged()
    ensures SameTimes([], []) && Canonical([])
  {
  }

  lemma MergedCover(merged: seq<Span>, windows: seq<Span>)
    requires SameTimes(merged, OrderedSpans(windows))
    ensures SameTimes(merged, windows)
  {
    hide OrderedSpans;
    forall t ensures InSome(merged, t) <==> InSome(windows, t) { OrderedCover(windows, t); }
  }

  lemma {:induction false} CanonicalOrder(m: seq<Span>, i: nat, j: nat)
    requires Canonical(m) && i < j < |m|
    ensures m[i].end < m[j].start
    decreases j
  {
    if i < j - 1 { CanonicalOrder(m, i, j - 1); }
  }

  /** In canonical form no instant is counted twice. */
  lemma CountedOnce(m: seq<Span>, t: real, i: nat, j: nat)
    requires Canonical(m) && i < |m| && j < |m| && Within(m[i], t) && Within(m[j], t)
    ensures i == j
  {
    if i < j { CanonicalOrder(m, i, j); }
    if j < i { CanonicalOrder(m, j, i); }
  }

  /** The canonical form of a set of times is unique, so the merged windows do not depend on how
      the disruptions were listed. */
  lemma {:induction false} CanonicalUnique(a: seq<Span>, b: seq<Span>)
    requires Canonical(a) && Canonical(b) && SameTimes(a, b)
    ensures a == b
    decreases |a|
  {
    if a != [] { HasTime(a); }
    if b != [] { HasTime(b); }
    if a != [] && b != [] {
      FirstAgrees(a, b);
      TailsAgree(a, b);
      CanonicalUnique(a[1..], b[1..]);
      assert a == [a[0]] + a[1..] && b == [b[0]] + b[1..];
    }
  }

  lemma HasTime(a: seq<Span>)
    requires Canonical(a) && a != []
    ensures InSome(a, a[0].start)
  {
    assert Within(a[0], a[0].start);
  }

  lemma StartIsFirst(a: seq<Span>, b: seq<Span>)
    requires Canonical(a) && Canonical(b) && SameTimes(a, b) && a != [] && b != []
    ensures b[0].start <= a[0].start
  {
    assert Within(a[0], a[0].start);
    assert InSome(b, a[0].start);
    var k :| 0 <= k < |b| && Within(b[k], a[0].start);
    if k > 0 { CanonicalOrder(b, 0, k); }
  }

  lemma EndIsLast(a: seq<Span>, b: seq<Span>)
    requires Canonical(a) && Canonical(b) && SameTimes(a, b) && a != [] && b != [] && a[0].start == b[0].start
    ensures a[0].end <= b[0].end
  {
    if b[0].end < a[0].end {
      assert Within(a[0], b[0].end);
      assert InSome(b, b[0].end);
      var k :| 0 <= k < |b| && Within(b[k], b[0].end);
      if k > 0 { CanonicalOrder(b, 0, k); }
      assert false;
    }
  }

  lemma FirstAgrees(a: seq<Span>, b: seq<Span>)
    requires Canonical(a) && Canonical(b) && SameTimes(a, b) && a != [] && b != []
    ensures a[0] == b[0]
  {
    StartIsFirst(a, b);
    StartIsFirst(b, a);
    EndIsLast(a, b);
    EndIsLast(b, a);
  }

  /** Times of the later windows are the times at or after the first window's end. */
  lemma TailTimes(a: seq<Span>, t: real)
    requires Canonical(a) && a != []
    ensures InSome(a[1..], t) <==> InSome(a, t) && t >= a[0].end
  {
    if InSome(a[1..], t) {
      var k :| 0 <= k < |a[1..]| && Within(a[1..][k], t);
      CanonicalOrder(a, 0, k + 1);
      assert Within(a[k + 1], t);
    }
    if InSome(a, t) && t >= a[0].end {
      var k :| 0 <= k < |a| && Within(a[k], t);
      assert Within(a[1..][k - 1], t);
    }
  }

  lemma TailsAgree(a: seq<Span>, b: seq<Span>)
    requires Canonical(a) && Canonical(b) && SameTimes(a, b) && a != [] && b != [] && a[0] == b[0]
    ensures Canonical(a[1..]) && Canonical(b[1..]) && SameTimes(a[1..], b[1..])
  {
    CanonicalTail(a);
    CanonicalTail(b);
    forall t ensures InSome(a[1..], t) <==> InSome(b[1..], t) {
      TailTimes(a, t);
      TailTimes(b, t);
    }
  }

  lemma CanonicalTail(a: seq<Span>)
    requires Canonical(a) && a != []
    ensures Canonical(a[1..])
  {
    assert forall i :: 1 <= i < |a[1..]| ==> a[1..][i - 1] == a[i] && a[1..][i] == a[i + 1];
  }

  // ---- splitting records -------------------------------------------------------------------------

  const NS_PER_S := 1000000000

  datatype SentRecord = SentRecord(id: string, tSendNs: int)

  /** Seconds from the run's origin to a record's send. */
  function Offset(r: SentRecord, t0: int): real { (r.tSendNs - t0) as real / NS_PER_S as real }

  /** The records sent inside (or outside) the windows, in their order. */
  function Sent(records: seq<SentRecord>, windows: seq<Span>, t0: int, inside: bool): seq<SentRecord> {
    if records == [] then []
    else
      var last := records[|records| - 1];
      Sent(records[..|records| - 1], windows, t0, inside)
      + (if InSome(windows, Offset(last, t0)) == inside then [last] else [])
  }

  method SplitByWindows(records: seq<SentRecord>, windows: seq<Span>, t0: int)
    returns (inside: seq<SentRecord>, outside: seq<SentRecord>)
    ensures inside == Sent(records, windows, t0, true) && outside == Sent(records, windows, t0, false)
  {
    hide Offset, InSome;
    if windows == [] || records == [] {
      inside, outside := [], records;
      NoWindows(records, windows, t0);
      return;
    }
    inside, outside := [], [];
    for i := 0 to |records|
      invariant inside == Sent(records[..i], windows, t0, true) && outside == Sent(records[..i], windows, t0, false)
    {
      assert records[..i + 1][..i] == records[..i];
      if InSome(windows, Offset(records[i], t0)) {
        inside := inside + [records[i]];
      } else {
        outside := outside + [records[i]];
      }
    }
    assert records[..|records|] == records;
  }

  /** Each record lands on exactly one side. */
  lemma {:induction false} SplitPartitions(records: seq<SentRecord>, windows: seq<Span>, t0: int)
    ensures multiset(Sent(records, windows, t0, true)) + multiset(Sent(records, windows, t0, false))
            == multiset(records)
  {
    hide Offset, InSome;
    if records != [] {
      var before, last := records[..|records| - 1], records[|records| - 1];
      SplitPartitions(before, windows, t0);
      assert records == before + [last];
      var a, b := Sent(before, windows, t0, true), Sent(before, windows, t0, false);
      if InSome(windows, Offset(last, t0)) {
        assert Sent(records, windows, t0, true) == a + [last] && Sent(records, windows, t0, false) == b;
      } else {
        assert Sent(records, windows, t0, true) == a && Sent(records, windows, t0, false) == b + [last];
      }
      hide Sent;
      OneMore(a, b, before, last);
    }
  }

  lemma OneMore(a: seq<SentRecord>, b: seq<SentRecord>, all: seq<SentRecord>, x: SentRecord)
    requires multiset(a) + multiset(b) == multiset(all)
    ensures multiset(a + [x]) + multiset(b) == multiset(all + [x]) == multiset(a) + multiset(b + [x])
  {}

  lemma {:induction false} NoWindows(records: seq<SentRecord>, windows: seq<Span>, t0: int)
    requires windows == [] || records == []
    ensures Sent(records, windows, t0, true) == [] && Sent(records, windows, t0, false) == records
  {
    if records != [] { NoWindows(records[..|records| - 1], windows, t0); }
  }

  /** A record sent within one of the windows, counted in seconds from the origin. */
  ghost predicate SentWithin(x: SentRecord, windows: seq<Span>, t0: int) {
    exists k :: 0 <= k < |windows|
                && windows[k].start * 1000000000.0 <= (x.tSendNs - t0) as real < windows[k].end * 1000000000.0
  }

  lemma OffsetWithin(x: SentRecord, w: Span, t0: int)
    ensures Within(w, Offset(x, t0)) <==> w.start * 1000000000.0 <= (x.tSendNs - t0) as real < w.end * 1000000000.0
  {}

  /** Inside are exactly the records sent within a window, outside the others, each side in the order of the
      records. */
  lemma {:induction false} SentExactly(records: seq<SentRecord>, windows: seq<Span>, t0: int, inside: bool, n: nat)
    requires n <= |records|
    ensures forall x :: x in Sent(records, windows, t0, inside)
                        <==> x in records && (SentWithin(x, windows, t0) <==> inside)
    ensures Sent(records[..n], windows, t0, inside) <= Sent(records, windows, t0, inside)
    decreases |records|
  {
    hide Within, Offset, SentWithin;
    if records != [] {
      var before, last := records[..|records| - 1], records[|records| - 1];
      SentExactly(before, windows, t0, inside, if n < |records| then n else |records| - 1);
      WithinSome(last, windows, t0);
      hide InSome;
      assert records == before + [last];
      if n < |records| { assert before[..n] == records[..n]; } else { assert records[..n] == records; }
    }
  }

  lemma WithinSome(x: SentRecord, windows: seq<Span>, t0: int)
    ensures InSome(windows, Offset(x, t0)) <==> SentWithin(x, windows, t0)
  {
    forall k | 0 <= k < |windows|
      ensures Within(windows[k], Offset(x, t0))
              <==> windows[k].start * 1000000000.0 <= (x.tSendNs - t0) as real < windows[k].end * 1000000000.0
    {
      OffsetWithin(x, windows[k], t0);
    }
    hide Offset, Within;
  }

  /** Splitting by the merged windows is splitting by the windows themselves. */
  lemma {:induction false} SplitSameTimes(records: seq<SentRecord>, a: seq<Span>, b: seq<Span>, t0: int, inside: bool)
    requires SameTimes(a, b)
    ensures Sent(records, a, t0, inside) == Sent(records, b, t0, inside)
  {
    if records != [] { SplitSameTimes(records[..|records| - 1], a, b, t0, inside); }
  }

  // ---- recoveries ------------------------------------------------------------------------------------

  datatype Completion = Completion(t: real, backend: string, ok: bool)

  datatype Disruption = Disruption(target: string, started: real, restored: Option<real>, recovered: Option<real>)

  predicate Proves(c: Completion, d: Disruption, end: real) {
    d.restored.Some? && c.ok && c.backend == d.target && d.restored.value <= c.t <= end
  }

  predicate CompletionOrder(a: Completion, b: Completion) { a.t <= b.t }

  /** `d'` is `d` with its recovery time: the earliest completion that proves the replica is back
      in rotation, or what it was if there is none. */
  ghost predicate Attributed(d: Disruption, d': Disruption, completions: seq<Completion>, end: real) {
    && d' == d.(recovered := d'.recovered)
    && ((forall c :: c in completions ==> !Proves(c, d, end)) ==> d' == d)
    && ((exists c :: c in completions && Proves(c, d, end)) ==>
          && d'.recovered.Some?
          && (exists c :: c in completions && Proves(c, d, end) && c.t == d'.recovered.value)
          && (forall c :: c in completions && Proves(c, d, end) ==> d'.recovered.value <= c.t))
  }

  method AttributeRecoveries(disruptions: array<Disruption>, completions: seq<Completion>, end: real)
    modifies disruptions
    ensures forall i :: 0 <= i < disruptions.Length ==>
              Attributed(old(disruptions[i]), disruptions[i], completions, end)
  {
    hide Attributed, Sort, Proves;
    SortSorts(CompletionOrder, completions);
    var ordered := Sort(CompletionOrder, completions);
    assert forall i, j :: 0 <= i < j < |ordered| ==> CompletionOrder(ordered[i], ordered[j]);
    for i := 0 to disruptions.Length
      invariant forall k :: 0 <= k < i ==> Attributed(old(disruptions[k]), disruptions[k], completions, end)
      invariant forall k :: i <= k < disruptions.Length ==> disruptions[k] == old(disruptions[k])
    {
      var d := disruptions[i];
      var d' := Recover(d, ordered, end);
      SameAttribution(d, d', ordered, completions, end);
      disruptions[i] := d';
    }
  }

  method Recover(d: Disruption, ordered: seq<Completion>, end: real) returns (d': Disruption)
    requires forall i, j :: 0 <= i < j < |ordered| ==> ordered[i].t <= ordered[j].t
    ensures Attributed(d, d', ordered, end)
  {
    d' := d;
    if d.restored.None? {
      return;
    }
    for j := 0 to |ordered|
      invariant forall k :: 0 <= k < j ==> !Proves(ordered[k], d, end)
    {
      var c := ordered[j];
      if c.ok && c.backend == d.target && c.t >= d.restored.value && c.t <= end {
        assert c in ordered && Proves(c, d, end);
        return d.(recovered := Some(c.t));
      }
    }
  }

  lemma SameAttribution(d: Disruption, d': Disruption, ordered: seq<Completion>, completions: seq<Completion>,
                        end: real)
    requires ordered == Sort(CompletionOrder, completions) && Attributed(d, d', ordered, end)
    ensures Attributed(d, d', completions, end)
  {
    forall c ensures c in ordered <==> c in completions { SortMember(CompletionOrder, completions, c); }
  }
}
