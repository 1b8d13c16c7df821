/** When a repeating kill takes the whole fleet down: the exact condition on its parameters, for
    the timeline `events` expands and `outage_windows` sweeps (src/turboserve/chaos/faults.py). */
module OutageCriterion {
  import opened Prelude
  import opened FaultTimeline
  import opened OutageSweep

  /** One untargeted kill fault over distinct workers, and some sorted arrangement of its events. */
  datatype RawPlan = Plan(fault: Fault, workers: seq<string>, offset: nat, duration: real)

  predicate ValidPlan(p: RawPlan) {
    && p.fault.KillFault? && p.fault.target.None?
    && p.workers != [] && p.offset < |p.workers|
    && (forall i, j :: 0 <= i < j < |p.workers| ==> p.workers[i] != p.workers[j])
  }

  type Plan = p: RawPlan | ValidPlan(p)
    witness Plan(KillFault(1.0, None, 0.0, 0.0, None), ["a"], 0, 1.0)

  function Count(p: Plan): nat { OccurrenceCount(p.fault, p.duration) }

  function VictimOf(p: Plan, k: nat): string { Victim(p.fault, p.workers, p.offset, k) }

  function DrainOf(p: Plan, k: nat): FaultEvent { FaultEvent(Moment(p.fault, k), Drain, VictimOf(p, k)) }

  function KillOf(p: Plan, k: nat): FaultEvent { FaultEvent(Moment(p.fault, k) + p.fault.grace, Kill, VictimOf(p, k)) }

  function RestartOf(p: Plan, k: nat): FaultEvent {
    FaultEvent(Moment(p.fault, k) + p.fault.grace + p.fault.restartDelay, Restart, VictimOf(p, k))
  }

  /** The event that takes occurrence `k`'s victim out, at the occurrence's own moment. */
  function FirstOf(p: Plan, k: nat): FaultEvent { if p.fault.grace > 0.0 then DrainOf(p, k) else KillOf(p, k) }

  function Raw(p: Plan): seq<FaultEvent> { Occurrences(p.fault, p.workers, p.offset, Count(p)) }

  ghost predicate IsTimeline(p: Plan, s: seq<FaultEvent>) { Sorted(s) && multiset(s) == multiset(Raw(p)) }

  // ---- the events of a plan ------------------------------------------------------------------

  function EventsOf(p: Plan, k: nat): seq<FaultEvent> {
    Occurrence(p.fault, Moment(p.fault, k), VictimOf(p, k))
  }

  lemma OccurrenceContains(p: Plan, k: nat)
    ensures FirstOf(p, k) in EventsOf(p, k) && KillOf(p, k) in EventsOf(p, k) && RestartOf(p, k) in EventsOf(p, k)
  {
    hide Moment, VictimOf;
    var last := EventsOf(p, k);
    assert last[|last| - 2] == KillOf(p, k) && last[|last| - 1] == RestartOf(p, k);
    assert p.fault.grace > 0.0 ==> last[0] == DrainOf(p, k);
  }

  lemma {:induction false} Contains(p: Plan, n: nat, k: nat)
    requires k < n
    ensures var all := Occurrences(p.fault, p.workers, p.offset, n);
            FirstOf(p, k) in all && KillOf(p, k) in all && RestartOf(p, k) in all
  {
    hide FirstOf, KillOf, RestartOf, Occurrence, Moment;
    assert Occurrences(p.fault, p.workers, p.offset, n)
           == Occurrences(p.fault, p.workers, p.offset, n - 1) + EventsOf(p, n - 1);
    if k < n - 1 {
      Contains(p, n - 1, k);
    } else {
      OccurrenceContains(p, k);
    }
  }

  /** Every event belongs to some occurrence. */
  lemma {:induction false} Belongs(p: Plan, n: nat, e: FaultEvent) returns (k: nat)
    requires e in Occurrences(p.fault, p.workers, p.offset, n)
    ensures k < n && (e == RestartOf(p, k) || e == KillOf(p, k) || (e == DrainOf(p, k) && p.fault.grace > 0.0))
  {
    var before := Occurrences(p.fault, p.workers, p.offset, n - 1);
    if e in before {
      k := Belongs(p, n - 1, e);
    } else {
      k := n - 1;
      assert e in Occurrence(p.fault, Moment(p.fault, k), VictimOf(p, k));
    }
  }

  lemma OnTimeline(p: Plan, s: seq<FaultEvent>, e: FaultEvent)
    requires IsTimeline(p, s)
    ensures e in s <==> e in Raw(p)
  {
    assert e in s <==> e in multiset(s);
    assert e in Raw(p) <==> e in multiset(Raw(p));
  }

  // ---- rounds of victims ------------------------------------------------------------------------

  lemma Multiple(n: nat, q: int)
    requires q >= 1
    ensures n * q >= n
  {
    assert n * q - n == n * (q - 1);
  }

  /** Quotient and remainder are determined by the number. */
  lemma RemainderUnique(x: nat, n: nat, q: nat, r: nat)
    requires x == n * q + r && r < n
    ensures x % n == r
  {
    var q', r' := x / n, x % n;
    assert x == n * q' + r';
    assert n * (q - q') == r' - r && n * (q' - q) == r - r';
    if q > q' { Multiple(n, q - q'); }
    if q' > q { Multiple(n, q' - q); }
  }

  lemma ModGap(a: nat, b: nat, n: nat)
    requires n > 0 && a < b && a % n == b % n
    ensures b - a >= n
  {
    var d := b - a;
    if d < n {
      var q, r := a / n, a % n;
      assert a == n * q + r;
      if r + d < n {
        RemainderUnique(b, n, q, r + d);
      } else {
        assert n * (q + 1) == n * q + n;
        RemainderUnique(b, n, q + 1, r + d - n);
      }
      assert false;
    }
  }

  /** Two occurrences on the same worker are a whole round apart. */
  lemma SameVictim(p: Plan, j: nat, k: nat)
    requires VictimOf(p, j) == VictimOf(p, k) && j < k
    ensures k - j >= |p.workers|
  {
    var n := |p.workers|;
    var a, b := (p.offset + j) % n, (p.offset + k) % n;
    assert p.workers[a] == p.workers[b];
    assert a == b;
    ModGap(p.offset + j, p.offset + k, n);
  }

  /** Every worker is a victim of the first round. */
  lemma VictimInFirstRound(p: Plan, w: string) returns (k: nat)
    requires w in p.workers
    ensures k < |p.workers| && VictimOf(p, k) == w
  {
    var x: nat :| x < |p.workers| && p.workers[x] == w;
    k := RoundPosition(p.offset, x, |p.workers|);
  }

  lemma RoundPosition(offset: nat, x: nat, n: nat) returns (k: nat)
    requires offset < n && x < n
    ensures k < n && (offset + k) % n == x
  {
    if x >= offset {
      k := x - offset;
      RemainderUnique(offset + k, n, 0, x);
    } else {
      k := x - offset + n;
      RemainderUnique(offset + k, n, 1, x);
    }
  }

  lemma MomentsApart(p: Plan, j: nat, k: nat)
    requires j <= k
    ensures Moment(p.fault, k) == Moment(p.fault, j) + Steps(p.fault.every, k - j)
    ensures Moment(p.fault, j) <= Moment(p.fault, k)
  {
    StepsAdd(p.fault.every, j, k - j);
    StepsMonotone(p.fault.every, j, k);
  }

  // ---- positions on the timeline --------------------------------------------------------------------

  /** What sorts before something already passed has been passed. */
  lemma PassedBefore(s: seq<FaultEvent>, n: nat, e: FaultEvent, x: FaultEvent)
    requires Sorted(s) && n <= |s| && e in s[..n] && x in s && !TimeOrder(e, x)
    ensures x in s[..n]
  {
    var i :| 0 <= i < n && s[i] == e;
    var j :| 0 <= j < |s| && s[j] == x;
    assert j <= i;
  }

  /** A worker's last event among the first `n`. */
  ghost predicate IsLast(s: seq<FaultEvent>, n: nat, w: string, j: nat) {
    j < n <= |s| && s[j].target == w && forall l :: j < l < n ==> s[l].target != w
  }

  lemma {:induction false} FindLast(s: seq<FaultEvent>, n: nat, w: string) returns (j: nat)
    requires n <= |s| && exists l :: 0 <= l < n && s[l].target == w
    ensures IsLast(s, n, w, j) && (LastIsDown(s, n, w) <==> IsDown(s[j].action))
  {
    if s[n - 1].target == w {
      j := n - 1;
    } else {
      j := FindLast(s, n - 1, w);
    }
  }

  lemma {:induction false} DownHasEvent(s: seq<FaultEvent>, n: nat, w: string)
    requires n <= |s| && LastIsDown(s, n, w)
    ensures exists l :: 0 <= l < n && s[l].target == w
  {
    if s[n - 1].target != w { DownHasEvent(s, n - 1, w); }
  }

  /** Any passed event of `w` sorts no later than its last one. */
  lemma NotAfterLast(s: seq<FaultEvent>, n: nat, w: string, j: nat, e: FaultEvent)
    requires Sorted(s) && IsLast(s, n, w, j) && e in s[..n] && e.target == w
    ensures e == s[j] || TimeOrder(e, s[j])
  {
    var l :| 0 <= l < n && s[l] == e;
    assert l <= j;
  }

  // ---- no outage --------------------------------------------------------------------------------------

  /** A worker that is down, when restarts take time, is down because of an occurrence whose first
      event was passed and whose restart was not. */
  lemma ActiveOccurrence(p: Plan, s: seq<FaultEvent>, n: nat, w: string) returns (k: nat)
    requires IsTimeline(p, s) && n <= |s| && p.fault.restartDelay > 0.0 && LastIsDown(s, n, w)
    ensures k < Count(p) && VictimOf(p, k) == w && FirstOf(p, k) in s[..n] && RestartOf(p, k) !in s[..n]
  {
    DownHasEvent(s, n, w);
    var j := FindLast(s, n, w);
    var e := s[j];
    assert e == s[..n][j];
    OnTimeline(p, s, e);
    k := Belongs(p, Count(p), e);
    if e != FirstOf(p, k) {
      Contains(p, Count(p), k);
      OnTimeline(p, s, FirstOf(p, k));
      PassedBefore(s, n, e, FirstOf(p, k));
    }
    if RestartOf(p, k) in s[..n] {
      NotAfterLast(s, n, w, j, RestartOf(p, k));
    }
  }

  /** The latest of the first `k` occurrences whose first event was passed, or -1. */
  ghost function LatestStarted(p: Plan, s: seq<FaultEvent>, n: nat, k: nat): (m: int)
    requires n <= |s|
    ensures -1 <= m < k && (m >= 0 ==> FirstOf(p, m) in s[..n])
    ensures forall j :: m < j < k ==> FirstOf(p, j) !in s[..n]
  {
    if k == 0 then -1 else if FirstOf(p, k - 1) in s[..n] then k - 1 else LatestStarted(p, s, n, k - 1)
  }

  /** Once an occurrence has started, the restart of any that began a round less one earlier has
      been passed. In the tie, where one worker returns exactly as the next goes, this is because
      recoveries sort first. */
  lemma RestartPassed(p: Plan, s: seq<FaultEvent>, n: nat, k: nat, latest: nat)
    requires IsTimeline(p, s) && n <= |s| && k < Count(p)
    requires p.fault.grace + p.fault.restartDelay <= Steps(p.fault.every, |p.workers| - 1)
    requires FirstOf(p, latest) in s[..n] && latest - k >= |p.workers| - 1
    ensures RestartOf(p, k) in s[..n]
  {
    assert RestartOf(p, k) in s by {
      Contains(p, Count(p), k);
      OnTimeline(p, s, RestartOf(p, k));
    }
    assert RestartOf(p, k).t <= FirstOf(p, latest).t by {
      MomentsApart(p, k, latest);
      StepsMonotone(p.fault.every, |p.workers| - 1, latest - k);
    }
    PassedBefore(s, n, FirstOf(p, latest), RestartOf(p, k));
  }

  /** If grace plus restart fits in the time the other workers take, somebody is always up. */
  lemma NeverAllDown(p: Plan, s: seq<FaultEvent>, n: nat)
    requires IsTimeline(p, s) && n <= |s| && p.fault.restartDelay > 0.0
    requires p.fault.grace + p.fault.restartDelay <= Steps(p.fault.every, |p.workers| - 1)
    ensures !AllDown(s, n, p.workers)
  {
    hide IsTimeline, FirstOf, RestartOf, LastIsDown, Steps;
    if AllDown(s, n, p.workers) {
      var some := ActiveOccurrence(p, s, n, p.workers[0]);
      var latest := LatestStarted(p, s, n, Count(p));
      assert latest >= some;
      var next := VictimOf(p, latest + 1);
      assert next in p.workers;
      var k := ActiveOccurrence(p, s, n, next);
      SameVictim(p, k, latest + 1);
      RestartPassed(p, s, n, k, latest);
      assert false;
    }
  }

  /** With fewer occurrences than workers, some worker is never hit. */
  lemma TooFewOccurrences(p: Plan, s: seq<FaultEvent>, n: nat)
    requires IsTimeline(p, s) && n <= |s| && Count(p) < |p.workers|
    ensures !AllDown(s, n, p.workers)
  {
    var w := VictimOf(p, Count(p));
    if LastIsDown(s, n, w) {
      DownHasEvent(s, n, w);
      var l :| 0 <= l < n && s[l].target == w;
      OnTimeline(p, s, s[l]);
      var k := Belongs(p, Count(p), s[l]);
      SameVictim(p, k, Count(p));
      assert false;
    }
    assert w in p.workers;
  }

  // ---- an outage -----------------------------------------------------------------------------------------

  lemma PassedByTime(s: seq<FaultEvent>, t: real, e: FaultEvent)
    requires Sorted(s) && e in s && e.t <= t
    ensures e in s[..UpTo(s, t)]
  {
    UpToSplits(s, t);
    var n := UpTo(s, t);
    var i :| 0 <= i < |s| && s[i] == e;
    assert n < i ==> TimeOrder(s[n], s[i]);
  }

  /** No restart is the last event of its worker among those up to the start of occurrence
      `size - 1`: it has not come yet, or its own kill sorts after it. */
  lemma RestartNotLast(p: Plan, s: seq<FaultEvent>, end: real, w: string, j: nat, r: nat)
    requires IsTimeline(p, s) && r < Count(p) && end == Moment(p.fault, |p.workers| - 1)
    requires p.fault.restartDelay == 0.0 || p.fault.grace + p.fault.restartDelay > Steps(p.fault.every, |p.workers| - 1)
    requires IsLast(s, UpTo(s, end), w, j) && s[j].t <= end && VictimOf(p, r) == w
    ensures s[j] != RestartOf(p, r)
  {
    if p.fault.restartDelay > 0.0 {
      MomentsApart(p, 0, r);
    } else if KillOf(p, r).t <= end {
      assert KillOf(p, r) in s[..UpTo(s, end)] by {
        Contains(p, Count(p), r);
        OnTimeline(p, s, KillOf(p, r));
        PassedByTime(s, end, KillOf(p, r));
      }
      NotAfterLast(s, UpTo(s, end), w, j, KillOf(p, r));
    }
  }

  lemma FirstPassed(p: Plan, s: seq<FaultEvent>, k: nat, size: nat)
    requires IsTimeline(p, s) && k < size <= Count(p)
    ensures FirstOf(p, k) in s[..UpTo(s, Moment(p.fault, size - 1))] && FirstOf(p, k).target == VictimOf(p, k)
  {
    var end := Moment(p.fault, size - 1);
    assert FirstOf(p, k).t <= end by { MomentsApart(p, k, size - 1); }
    assert FirstOf(p, k) in s by {
      Contains(p, Count(p), k);
      OnTimeline(p, s, FirstOf(p, k));
    }
    hide FirstOf, Steps, Moment;
    PassedByTime(s, end, FirstOf(p, k));
  }

  lemma HitByThen(p: Plan, s: seq<FaultEvent>, w: string)
    requires IsTimeline(p, s) && |p.workers| <= Count(p) && w in p.workers
    ensures var n := UpTo(s, Moment(p.fault, |p.workers| - 1));
            exists l :: 0 <= l < n && s[l].target == w
  {
    hide IsTimeline, FirstOf, Moment, Count, VictimOf;
    var k := VictimInFirstRound(p, w);
    FirstPassed(p, s, k, |p.workers|);
    TargetPassed(s, UpTo(s, Moment(p.fault, |p.workers| - 1)), FirstOf(p, k));
  }

  lemma TargetPassed(s: seq<FaultEvent>, n: nat, e: FaultEvent)
    requires n <= |s| && e in s[..n]
    ensures exists l :: 0 <= l < n && s[l].target == e.target
  {
    var l :| 0 <= l < n && s[..n][l] == e;
    assert s[l].target == e.target;
  }

  /** Once a whole round has started, every worker whose restart cannot have come is down. */
  lemma StaysDown(p: Plan, s: seq<FaultEvent>, w: string)
    requires IsTimeline(p, s) && |p.workers| <= Count(p) && w in p.workers
    requires p.fault.restartDelay == 0.0 || p.fault.grace + p.fault.restartDelay > Steps(p.fault.every, |p.workers| - 1)
    ensures LastIsDown(s, UpTo(s, Moment(p.fault, |p.workers| - 1)), w)
  {
    var end := Moment(p.fault, |p.workers| - 1);
    var n := UpTo(s, end);
    HitByThen(p, s, w);
    var j := FindLast(s, n, w);
    UpToSplits(s, end);
    OnTimeline(p, s, s[j]);
    hide IsTimeline, Steps, Moment, LastIsDown, Raw;
    if !IsDown(s[j].action) {
      assert s[j] in Occurrences(p.fault, p.workers, p.offset, Count(p)) by { RawIs(p); }
      var r := Belongs(p, Count(p), s[j]);
      RestartNotLast(p, s, end, w, j, r);
    }
  }

  lemma RawIs(p: Plan)
    ensures Raw(p) == Occurrences(p.fault, p.workers, p.offset, Count(p))
  {
  }

  // ---- the criterion ---------------------------------------------------------------------------------------

  /** The condition on the parameters alone: too few occurrences to reach everyone, or restarts
      that take time but finish before the round comes back to the next worker. */
  predicate SomebodyStaysUp(p: Plan) {
    || Count(p) < |p.workers|
    || (p.fault.restartDelay > 0.0
        && p.fault.grace + p.fault.restartDelay <= Steps(p.fault.every, |p.workers| - 1))
  }

  /** A repeating kill produces no total outage exactly when somebody stays up: for every period,
      grace and restart delay (zero included), every fleet of distinct workers, every offset and
      every duration. */
  lemma ExactOutageCriterion(p: Plan, s: seq<FaultEvent>, windows: seq<Span>)
    requires IsTimeline(p, s) && IsTotalOutageReport(s, p.workers, p.duration, windows)
    ensures windows == [] <==> SomebodyStaysUp(p)
  {
    hide IsTimeline;
    if SomebodyStaysUp(p) {
      forall n | 0 <= n <= UpTo(s, p.duration) ensures !AllDown(s, n, p.workers) {
        if Count(p) < |p.workers| { TooFewOccurrences(p, s, n); } else { NeverAllDown(p, s, n); }
      }
    } else {
      var end := Moment(p.fault, |p.workers| - 1);
      TriggersBeforeEnd(p.fault, p.duration, |p.workers| - 1);
      UpToMonotone(s, end, p.duration);
      assert AllDown(s, UpTo(s, end), p.workers) by {
        forall w | w in p.workers ensures LastIsDown(s, UpTo(s, end), w) { StaysDown(p, s, w); }
      }
    }
  }

  lemma {:induction false} UpToMonotone(s: seq<FaultEvent>, t: real, u: real)
    requires t <= u
    ensures UpTo(s, t) <= UpTo(s, u)
  {
    if s != [] && s[0].t <= t { UpToMonotone(s[1..], t, u); }
  }

  /** The bound is `(n - 1) * every`. */
  lemma CriterionInSeconds(p: Plan)
    ensures Steps(p.fault.every, |p.workers| - 1) == (|p.workers| - 1) as real * p.fault.every
  {
    StepsIsProduct(p.fault.every, |p.workers| - 1);
  }

  /** Expanding such a fault and sweeping the result reports an outage exactly as the criterion
      says. */
  method PlanHasOutage(p: Plan) returns (outage: bool)
    requires p.duration > 0.0
    ensures outage <==> !SomebodyStaysUp(p)
  {
    hide SomebodyStaysUp, FullOrder, TimeOrder, IsOutageReport, IsTotalOutageReport, Occurrences;
    assert TargetKnown(p.fault, p.workers);
    var expanded := Expand([p.fault], p.duration, p.workers, [p.offset]);
    SingleFault(p);
    var events := expanded.value;
    TargetsAreWorkers(p, events);
    var windows := OutageWindows(events, p.workers, p.duration);
    ExactOutageCriterion(p, Timeline(events), windows);
    outage := windows != [];
  }

  lemma SingleFault(p: Plan)
    ensures AllEvents([p.fault], p.duration, p.workers, [p.offset]) == Raw(p)
  {
    hide Occurrences;
    assert [p.fault][..0] == [] && [p.offset][..0] == [];
    assert AllEvents([], p.duration, p.workers, []) == [];
  }

  lemma TargetsAreWorkers(p: Plan, events: seq<FaultEvent>)
    requires multiset(events) == multiset(Raw(p))
    ensures forall i :: 0 <= i < |events| ==> events[i].target in p.workers
  {
    hide Occurrences;
    forall i | 0 <= i < |events| ensures events[i].target in p.workers {
      assert events[i] in multiset(events);
      assert events[i] in Raw(p);
      var k := Belongs(p, Count(p), events[i]);
    }
  }
}
