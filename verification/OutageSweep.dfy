/** `outage_windows` (src/turboserve/chaos/faults.py): one pass over a sorted timeline that finds
    the intervals that leave nobody in service. */
module OutageSweep {
  import opened Prelude
  import opened Sorting
  import opened FaultTimeline

  datatype Span = Span(start: real, end: real)

  /** Half-open membership. */
  predicate Within(w: Span, t: real) { w.start <= t < w.end }

  predicate InSome(windows: seq<Span>, t: real) {
    exists k :: 0 <= k < |windows| && Within(windows[k], t)
  }

  // ---- what it means to be down ---------------------------------------------------------------

  /** Events of a sorted timeline at or before `t`. */
  function UpTo(s: seq<FaultEvent>, t: real): (n: nat)
    ensures n <= |s|
  {
    if s == [] || s[0].t > t then 0 else 1 + UpTo(s[1..], t)
  }

  /** Whether worker `w`'s last event among the first `n` is a down action. */
  predicate LastIsDown(s: seq<FaultEvent>, n: nat, w: string)
    requires n <= |s|
  {
    n > 0 && (if s[n - 1].target == w then IsDown(s[n - 1].action) else LastIsDown(s, n - 1, w))
  }

  /** Every worker is out of service after the first `n` events. */
  ghost predicate AllDown(s: seq<FaultEvent>, n: nat, workers: seq<string>)
    requires n <= |s|
  {
    forall w :: w in workers ==> LastIsDown(s, n, w)
  }

  ghost predicate Sorted(s: seq<FaultEvent>) {
    forall i, j :: 0 <= i < j < |s| ==> TimeOrder(s[i], s[j])
  }

  /** The timeline as the sweep sorts it. */
  function Timeline(events: seq<FaultEvent>): (s: seq<FaultEvent>)
    ensures Sorted(s) && |s| == |events| && multiset(s) == multiset(events)
  {
    OrdersAreTotal();
    SortSorts(TimeOrder, events);
    SortPermutes(TimeOrder, events);
    var s := Sort(TimeOrder, events);
    assert forall i, j :: 0 <= i < j < |s| ==> TimeOrder(s[i], s[j]);
    s
  }

  ghost predicate KnownTargets(s: seq<FaultEvent>, workers: seq<string>) {
    forall i :: 0 <= i < |s| ==> s[i].target in workers
  }

  // ---- the set the sweep keeps -------------------------------------------------------------------

  function Apply(down: set<string>, e: FaultEvent): set<string> {
    if IsDown(e.action) then down + {e.target} else down - {e.target}
  }

  function DownAfter(s: seq<FaultEvent>, n: nat): set<string>
    requires n <= |s|
  {
    if n == 0 then {} else Apply(DownAfter(s, n - 1), s[n - 1])
  }

  lemma {:induction false} DownAfterIsLast(s: seq<FaultEvent>, n: nat, w: string)
    requires n <= |s|
    ensures w in DownAfter(s, n) <==> LastIsDown(s, n, w)
  {
    if n > 0 { DownAfterIsLast(s, n - 1, w); }
  }

  function Fleet(workers: seq<string>): set<string> { set w | w in workers }

  lemma {:induction false} DownAfterKnown(s: seq<FaultEvent>, n: nat, workers: seq<string>)
    requires n <= |s| && KnownTargets(s, workers)
    ensures DownAfter(s, n) <= Fleet(workers)
  {
    if n > 0 {
      DownAfterKnown(s, n - 1, workers);
      assert s[n - 1].target in workers;
    }
  }

  /** The sweep's test: as many names are down as there are workers. */
  ghost predicate Full(s: seq<FaultEvent>, n: nat, workers: seq<string>)
    requires n <= |s|
  {
    |DownAfter(s, n)| >= |Fleet(workers)|
  }

  /** Names outside the fleet whose last event is a down action. */
  function StrangersDown(s: seq<FaultEvent>, n: nat, workers: seq<string>): set<string>
    requires n <= |s|
  {
    DownAfter(s, n) - Fleet(workers)
  }

  function WorkersUp(s: seq<FaultEvent>, n: nat, workers: seq<string>): set<string>
    requires n <= |s|
  {
    Fleet(workers) - DownAfter(s, n)
  }

  /** Somebody is up, but no more workers than there are strangers down. */
  predicate Mistaken(s: seq<FaultEvent>, n: nat, workers: seq<string>)
    requires n <= |s|
  {
    0 < |WorkersUp(s, n, workers)| <= |StrangersDown(s, n, workers)|
  }

  lemma Difference<T>(a: set<T>, b: set<T>)
    ensures |a - b| - |b - a| == |a| - |b|
  {
    assert a == (a - b) + (a * b);
    assert b == (b - a) + (a * b);
  }

  lemma UpMeansNotLast(s: seq<FaultEvent>, n: nat, workers: seq<string>)
    requires n <= |s|
    ensures WorkersUp(s, n, workers) == {} <==> AllDown(s, n, workers)
  {
    forall w ensures w in DownAfter(s, n) <==> LastIsDown(s, n, w) { DownAfterIsLast(s, n, w); }
    if WorkersUp(s, n, workers) == {} {
      forall w | w in workers ensures LastIsDown(s, n, w) {
        assert w in Fleet(workers) && w !in WorkersUp(s, n, workers);
      }
    }
  }

  /** What the test asks exactly: whether there are as many strangers down as workers up. So it is
      right except when somebody is up and the strangers make up for it. */
  lemma FullMeansAllDown(s: seq<FaultEvent>, n: nat, workers: seq<string>)
    requires n <= |s|
    ensures Full(s, n, workers) <==> |StrangersDown(s, n, workers)| >= |WorkersUp(s, n, workers)|
    ensures (Full(s, n, workers) <==> AllDown(s, n, workers)) <==> !Mistaken(s, n, workers)
  {
    Difference(DownAfter(s, n), Fleet(workers));
    UpMeansNotLast(s, n, workers);
  }

  lemma Smaller<T>(a: set<T>, b: set<T>)
    requires a <= b
    ensures |a| <= |b|
  {
    assert b == a + (b - a);
  }

  lemma KnownTargetsNotMistaken(s: seq<FaultEvent>, n: nat, workers: seq<string>)
    requires n <= |s| && KnownTargets(s, workers)
    ensures !Mistaken(s, n, workers)
  {
    DownAfterKnown(s, n, workers);
    assert StrangersDown(s, n, workers) == {};
  }

  /** Kills of these names, all at time `t`. */
  function Kills(names: seq<string>, t: real): (s: seq<FaultEvent>)
    ensures |s| == |names|
  {
    seq(|names|, i requires 0 <= i < |names| => FaultEvent(t, Kill, names[i]))
  }

  lemma {:induction false} KillsDown(names: seq<string>, t: real, n: nat)
    requires n <= |names|
    ensures DownAfter(Kills(names, t), n) == set w | w in names[..n]
  {
    if n > 0 {
      KillsDown(names, t, n - 1);
      assert names[..n] == names[..n - 1] + [names[n - 1]];
    }
  }

  /** For every fleet: killing as many strangers as it has workers looks like a total outage, with
      every worker up. */
  lemma StrangersLookLikeOutage(workers: seq<string>, strangers: seq<string>, t: real)
    requires workers != [] && Fleet(workers) !! Fleet(strangers) && |Fleet(strangers)| >= |Fleet(workers)|
    ensures var s := Kills(strangers, t);
            && Mistaken(s, |s|, workers) && Full(s, |s|, workers) && !AllDown(s, |s|, workers)
            && WorkersUp(s, |s|, workers) == Fleet(workers)
  {
    var s := Kills(strangers, t);
    KillsDown(strangers, t, |strangers|);
    assert strangers[..|strangers|] == strangers;
    assert StrangersDown(s, |s|, workers) == Fleet(strangers);
    assert WorkersUp(s, |s|, workers) == Fleet(workers);
    assert workers[0] in Fleet(workers);
    FullMeansAllDown(s, |s|, workers);
    UpMeansNotLast(s, |s|, workers);
  }

  lemma {:induction false} UpToIs(s: seq<FaultEvent>, t: real, n: nat)
    requires n <= |s|
    requires forall i :: 0 <= i < n ==> s[i].t <= t
    requires n < |s| ==> s[n].t > t
    ensures UpTo(s, t) == n
  {
    if n > 0 { UpToIs(s[1..], t, n - 1); }
  }

  lemma {:induction false} UpToSplits(s: seq<FaultEvent>, t: real)
    ensures forall i :: 0 <= i < UpTo(s, t) ==> s[i].t <= t
    ensures UpTo(s, t) < |s| ==> s[UpTo(s, t)].t > t
  {
    if s != [] && s[0].t <= t {
      UpToSplits(s[1..], t);
      assert forall i :: 1 <= i < |s| ==> s[i] == s[1..][i - 1];
    }
  }

  // ---- the sweep ------------------------------------------------------------------------------------

  /** Windows in order, each of positive length, none overlapping the next. */
  ghost predicate Separated(windows: seq<Span>) {
    && (forall i :: 0 <= i < |windows| ==> windows[i].start < windows[i].end)
    && (forall i :: 1 <= i < |windows| ==> windows[i - 1].end <= windows[i].start)
  }

  /** Before time `now`, the closed windows and the open one cover exactly the outages. */
  ghost predicate Covers(s: seq<FaultEvent>, workers: seq<string>, windows: seq<Span>, started: Option<real>,
                         now: real) {
    forall t :: t < now ==>
      (InSome(windows, t) || (started.Some? && started.value <= t) <==> Full(s, UpTo(s, t), workers))
  }

  lemma InSomeAppend(windows: seq<Span>, w: Span, t: real)
    ensures InSome(windows + [w], t) <==> InSome(windows, t) || Within(w, t)
  {
    if InSome(windows, t) {
      var k :| 0 <= k < |windows| && Within(windows[k], t);
      assert Within((windows + [w])[k], t);
    }
    if Within(w, t) { assert Within((windows + [w])[|windows|], t); }
  }

  /** Between two events nothing changes: what holds after `n` events holds until the next. */
  lemma CoversUntilNext(s: seq<FaultEvent>, workers: seq<string>, windows: seq<Span>, started: Option<real>, n: nat,
                        now: real, next: real)
    requires Sorted(s) && n <= |s| && Covers(s, workers, windows, started, now) && now <= next
    requires forall i :: 0 <= i < n ==> s[i].t <= now
    requires forall i :: n <= i < |s| ==> s[i].t >= next
    requires started.Some? <==> Full(s, n, workers)
    requires started.Some? ==> started.value <= now
    requires forall k :: 0 <= k < |windows| ==> windows[k].end <= now
    ensures Covers(s, workers, windows, started, next)
  {
    forall t | t < next
      ensures InSome(windows, t) || (started.Some? && started.value <= t) <==> Full(s, UpTo(s, t), workers)
    {
      if t >= now { UpToIs(s, t, n); }
    }
  }

  /** The loop's state after `n` events of the sorted timeline, the last of them at or before
      `now`: the set kept, the windows closed, and the start of the open one. */
  ghost predicate SweptTo(s: seq<FaultEvent>, workers: seq<string>, n: nat, now: real,
                          down: set<string>, windows: seq<Span>, started: Option<real>) {
    && n <= |s| && (forall i :: 0 <= i < n ==> s[i].t <= now)
    && down == DownAfter(s, n)
    && (started.Some? <==> Full(s, n, workers))
    && (started.Some? ==> started.value <= now
                          && forall i :: n <= i < |s| ==> s[i].t > started.value || IsDown(s[i].action))
    && (forall k :: 0 <= k < |windows| ==> windows[k].end <= (if started.Some? then started.value else now))
    && Separated(windows)
    && Covers(s, workers, windows, started, now)
    && (windows == [] && started.None? <==> forall k :: 0 <= k <= n ==> !Full(s, k, workers))
  }

  lemma SweepBegins(s: seq<FaultEvent>, workers: seq<string>, now: real)
    requires workers != [] && forall i :: 0 <= i < |s| ==> s[i].t >= now
    ensures SweptTo(s, workers, 0, now, {}, [], None)
  {
    Smaller({workers[0]}, Fleet(workers));
    assert !Full(s, 0, workers);
    forall t | t < now ensures !Full(s, UpTo(s, t), workers) {
      UpToIs(s, t, 0);
    }
  }

  /** Time passes with nothing happening. */
  lemma SweepWaits(s: seq<FaultEvent>, workers: seq<string>, n: nat, now: real, next: real,
                   down: set<string>, windows: seq<Span>, started: Option<real>)
    requires Sorted(s) && SweptTo(s, workers, n, now, down, windows, started) && now <= next
    requires forall i :: n <= i < |s| ==> s[i].t >= next
    ensures SweptTo(s, workers, n, next, down, windows, started)
  {
    hide Full, DownAfter;
    CoversUntilNext(s, workers, windows, started, n, now, next);
  }

  /** One event is applied. */
  lemma SweepSteps(s: seq<FaultEvent>, workers: seq<string>, n: nat, down: set<string>, windows: seq<Span>,
                   started: Option<real>)
    requires Sorted(s) && n < |s|
    requires SweptTo(s, workers, n, s[n].t, down, windows, started)
    ensures var now := s[n].t;
            var down' := Apply(down, s[n]);
            var full := |down'| >= |Fleet(workers)|;
            && (full && started.None? ==> SweptTo(s, workers, n + 1, now, down', windows, Some(now)))
            && (!full && started.Some? ==>
                  SweptTo(s, workers, n + 1, now, down', windows + [Span(started.value, now)], None))
            && (full == started.Some? ==> SweptTo(s, workers, n + 1, now, down', windows, started))
  {
    hide Covers, Separated;
    assert Apply(down, s[n]) == DownAfter(s, n + 1);
    hide SweptTo;
    if Full(s, n + 1, workers) {
      if started.None? { SweepOpens(s, workers, n, down, windows); }
      else { SweepStays(s, workers, n, down, windows, started); }
    } else {
      if started.Some? { SweepCloses(s, workers, n, down, windows, started.value); }
      else { SweepStays(s, workers, n, down, windows, started); }
    }
  }

  lemma SweepStays(s: seq<FaultEvent>, workers: seq<string>, n: nat, down: set<string>, windows: seq<Span>,
                   started: Option<real>)
    requires n < |s| && SweptTo(s, workers, n, s[n].t, down, windows, started)
    requires Full(s, n + 1, workers) <==> started.Some?
    ensures SweptTo(s, workers, n + 1, s[n].t, Apply(down, s[n]), windows, started)
  {
    hide Full, Apply, Covers, Separated;
  }

  lemma SweepOpens(s: seq<FaultEvent>, workers: seq<string>, n: nat, down: set<string>, windows: seq<Span>)
    requires Sorted(s) && n < |s| && SweptTo(s, workers, n, s[n].t, down, windows, None) && Full(s, n + 1, workers)
    ensures SweptTo(s, workers, n + 1, s[n].t, Apply(down, s[n]), windows, Some(s[n].t))
  {
    BecomesFull(s, workers, n);
    assert forall i :: n + 1 <= i < |s| ==> TimeOrder(s[n], s[i]);
    hide Full, Apply, Separated;
    assert Covers(s, workers, windows, Some(s[n].t), s[n].t);
  }

  lemma SweepCloses(s: seq<FaultEvent>, workers: seq<string>, n: nat, down: set<string>, windows: seq<Span>,
                    start: real)
    requires n < |s| && SweptTo(s, workers, n, s[n].t, down, windows, Some(start)) && !Full(s, n + 1, workers)
    ensures SweptTo(s, workers, n + 1, s[n].t, Apply(down, s[n]), windows + [Span(start, s[n].t)], None)
  {
    StopsBeingFull(s, workers, n);
    hide Full, Apply;
    var all := windows + [Span(start, s[n].t)];
    assert Covers(s, workers, all, None, s[n].t) by {
      forall t ensures InSome(all, t) <==> InSome(windows, t) || Within(Span(start, s[n].t), t) {
        InSomeAppend(windows, Span(start, s[n].t), t);
      }
    }
    hide Covers;
  }

  lemma DownMoves(s: seq<FaultEvent>, n: nat)
    requires n < |s|
    ensures if IsDown(s[n].action) then |DownAfter(s, n)| <= |DownAfter(s, n + 1)|
            else |DownAfter(s, n + 1)| <= |DownAfter(s, n)|
  {
    if IsDown(s[n].action) {
      Smaller(DownAfter(s, n), DownAfter(s, n + 1));
    } else {
      Smaller(DownAfter(s, n + 1), DownAfter(s, n));
    }
  }

  /** Only a down action can take the last worker out. */
  lemma BecomesFull(s: seq<FaultEvent>, workers: seq<string>, n: nat)
    requires n < |s| && Full(s, n + 1, workers) && !Full(s, n, workers)
    ensures IsDown(s[n].action)
  {
    DownMoves(s, n);
  }

  /** Only an up action can end an outage. */
  lemma StopsBeingFull(s: seq<FaultEvent>, workers: seq<string>, n: nat)
    requires n < |s| && Full(s, n, workers) && !Full(s, n + 1, workers)
    ensures !IsDown(s[n].action)
  {
    DownMoves(s, n);
  }

  /** What the sweep reports. */
  ghost predicate IsOutageReport(s: seq<FaultEvent>, workers: seq<string>, duration: real, windows: seq<Span>) {
    && (forall t :: t < duration ==> (InSome(windows, t) <==> Full(s, UpTo(s, t), workers)))
    && (windows == [] || Separated(windows)
        || (windows[|windows| - 1] == Span(duration, duration) && Separated(windows[..|windows| - 1])))
    && (windows == [] <==> forall k :: 0 <= k <= UpTo(s, duration) ==> !Full(s, k, workers))
  }

  lemma SweepEnds(s: seq<FaultEvent>, workers: seq<string>, duration: real, n: nat, down: set<string>,
                  windows: seq<Span>, started: Option<real>)
    requires SweptTo(s, workers, n, duration, down, windows, started) && (n < |s| ==> s[n].t > duration)
    ensures IsOutageReport(s, workers, duration,
                           if started.Some? then windows + [Span(started.value, duration)] else windows)
  {
    hide Full, DownAfter;
    UpToIs(s, duration, n);
    if started.Some? {
      var all := windows + [Span(started.value, duration)];
      forall t ensures InSome(all, t) <==> InSome(windows, t) || Within(Span(started.value, duration), t) {
        InSomeAppend(windows, Span(started.value, duration), t);
      }
      assert all[..|all| - 1] == windows;
    }
  }

  /** The same report in terms of the workers, for a timeline that names no others. */
  ghost predicate IsTotalOutageReport(s: seq<FaultEvent>, workers: seq<string>, duration: real, windows: seq<Span>) {
    && (forall t :: t < duration ==> (InSome(windows, t) <==> AllDown(s, UpTo(s, t), workers)))
    && (windows == [] <==> forall k :: 0 <= k <= UpTo(s, duration) ==> !AllDown(s, k, workers))
  }

  lemma ReportOfKnown(s: seq<FaultEvent>, workers: seq<string>, duration: real, windows: seq<Span>)
    requires IsOutageReport(s, workers, duration, windows) && KnownTargets(s, workers)
    ensures IsTotalOutageReport(s, workers, duration, windows)
  {
    forall n: nat | n <= |s| ensures Full(s, n, workers) <==> AllDown(s, n, workers) {
      KnownTargetsNotMistaken(s, n, workers);
      FullMeansAllDown(s, n, workers);
    }
    hide Full, AllDown;
  }

  /** Exactly when the report is wrong: at the times before the end when somebody is up and at least
      as many strangers are down as workers up. */
  lemma ReportWrongExactly(s: seq<FaultEvent>, workers: seq<string>, duration: real, windows: seq<Span>, t: real)
    requires IsOutageReport(s, workers, duration, windows) && t < duration
    ensures (InSome(windows, t) <==> AllDown(s, UpTo(s, t), workers)) <==> !Mistaken(s, UpTo(s, t), workers)
  {
    FullMeansAllDown(s, UpTo(s, t), workers);
    hide Full, AllDown, Mistaken;
  }

  /** Intervals with every replica out, in order and disjoint: before the end of the run a time is
      in one of them exactly when as many distinct targets are down as there are workers, a target
      being down when its last event so far, in time-then-action order, is a down action; if the
      events name workers only, exactly when every worker is down. Only a last window that starts
      at the very end can be empty. */
  method OutageWindows(events: seq<FaultEvent>, workers: seq<string>, duration: real) returns (windows: seq<Span>)
    ensures workers == [] ==> windows == []
    ensures workers != [] ==> IsOutageReport(Timeline(events), workers, duration, windows)
    ensures workers != [] && KnownTargets(events, workers) ==>
              IsTotalOutageReport(Timeline(events), workers, duration, windows)
  {
    hide SweptTo, IsOutageReport, IsTotalOutageReport, Apply, DownAfter;
    if workers == [] {
      return [];
    }
    var fleet := |Fleet(workers)|;
    var s := Timeline(events);
    var down: set<string> := {};
    var started: Option<real> := None;
    windows := [];
    var i := 0;
    ghost var now := if s != [] && s[0].t < duration then s[0].t else duration;
    SweepBegins(s, workers, now);
    while i < |s|
      invariant 0 <= i <= |s| && now <= duration
      invariant forall k :: i <= k < |s| ==> now <= s[k].t
      invariant SweptTo(s, workers, i, now, down, windows, started)
    {
      var e := s[i];
      if e.t > duration {
        break;
      }
      SweepWaits(s, workers, i, now, e.t, down, windows, started);
      SweepSteps(s, workers, i, down, windows, started);
      now := e.t;
      down := Apply(down, e);
      if |down| >= fleet && started.None? {
        started := Some(e.t);
      } else if |down| < fleet && started.Some? {
        windows := windows + [Span(started.value, e.t)];
        started := None;
      }
      i := i + 1;
    }
    SweepWaits(s, workers, i, now, duration, down, windows, started);
    SweepEnds(s, workers, duration, i, down, windows, started);
    if started.Some? {
      windows := windows + [Span(started.value, duration)];
    }
    if KnownTargets(events, workers) {
      TimelineTargets(events, workers);
      ReportOfKnown(s, workers, duration, windows);
    }
  }

  lemma TimelineTargets(events: seq<FaultEvent>, workers: seq<string>)
    requires KnownTargets(events, workers)
    ensures KnownTargets(Timeline(events), workers)
  {
    var s := Timeline(events);
    forall i | 0 <= i < |s| ensures s[i].target in workers {
      assert s[i] in multiset(s);
      assert s[i] in multiset(events);
    }
  }
}
