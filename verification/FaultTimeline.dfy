/** Expanding a fault schedule into a sorted timeline (src/turboserve/chaos/faults.py). The draws
    of the seeded generator are inputs. */
module FaultTimeline {
  import opened Prelude
  import opened Sorting

  datatype FaultAction = Restart | PartitionEnd | Drain | Kill | PartitionStart

  /** Tie-break for equal timestamps: recoveries before disruptions. */
  function Order(a: FaultAction): (n: nat)
    ensures n < 2 <==> !IsDown(a)
  {
    match a
    case Restart => 0
    case PartitionEnd => 1
    case Drain => 2
    case Kill => 3
    case PartitionStart => 4
  }

  /** A replica hit by one of these gets no new requests. */
  predicate IsDown(a: FaultAction) { a.Drain? || a.Kill? || a.PartitionStart? }

  datatype FaultEvent = FaultEvent(t: real, action: FaultAction, target: string)

  /** Timeline order without the target: time, then action. */
  predicate TimeOrder(a: FaultEvent, b: FaultEvent) {
    a.t < b.t || (a.t == b.t && Order(a.action) <= Order(b.action))
  }

  /** Timeline order as `events` sorts it: time, action, target. */
  predicate FullOrder(a: FaultEvent, b: FaultEvent) {
    a.t < b.t || (a.t == b.t && (Order(a.action) < Order(b.action)
                                 || (Order(a.action) == Order(b.action) && StringLeq(a.target, b.target))))
  }

  lemma OrdersAreTotal()
    ensures TotalPreorder(TimeOrder) && TotalPreorder(FullOrder)
  {
    forall a, b ensures FullOrder(a, b) || FullOrder(b, a) {
      StringLeqTotal(a.target, b.target);
    }
    forall a, b, c | FullOrder(a, b) && FullOrder(b, c) ensures FullOrder(a, c) {
      if StringLeq(a.target, b.target) && StringLeq(b.target, c.target) {
        StringLeqTransitive(a.target, b.target, c.target);
      }
    }
  }

  // ---- faults -------------------------------------------------------------------------------

  datatype RawFault =
    | KillFault(every: real, start: Option<real>, grace: real, restartDelay: real, target: Option<string>)
    | PartitionFault(at: real, forS: real, target: Option<string>)
    | SteadyFault

  predicate ValidFault(f: RawFault) {
    match f
    case KillFault(every, start, grace, delay, _) =>
      every > 0.0 && (start.Some? ==> start.value >= 0.0) && grace >= 0.0 && delay >= 0.0
    case PartitionFault(_, forS, _) => forS > 0.0
    case SteadyFault => true
  }

  type Fault = f: RawFault | ValidFault(f) witness SteadyFault

  /** When a repeating kill first fires. */
  function FirstAt(f: Fault): real
    requires f.KillFault?
  {
    if f.start.None? then f.every else f.start.value
  }

  function Moment(f: Fault, k: nat): real
    requires f.KillFault?
  {
    FirstAt(f) + Steps(f.every, k)
  }

  /** The victim of the `k`-th occurrence: the fixed target, or round-robin from the offset. */
  function Victim(f: Fault, workers: seq<string>, offset: nat, k: nat): string
    requires f.KillFault? && workers != []
  {
    if f.target.Some? then f.target.value else workers[(offset + k) % |workers|]
  }

  /** Drain (if there is a grace period), kill and restart of one occurrence. */
  function Occurrence(f: Fault, moment: real, target: string): seq<FaultEvent>
    requires f.KillFault?
  {
    (if f.grace > 0.0 then [FaultEvent(moment, Drain, target)] else [])
    + [FaultEvent(moment + f.grace, Kill, target), FaultEvent(moment + f.grace + f.restartDelay, Restart, target)]
  }

  /** The events of the first `n` occurrences. */
  function Occurrences(f: Fault, workers: seq<string>, offset: nat, n: nat): seq<FaultEvent>
    requires f.KillFault? && workers != []
  {
    if n == 0 then []
    else Occurrences(f, workers, offset, n - 1) + Occurrence(f, Moment(f, n - 1), Victim(f, workers, offset, n - 1))
  }

  /** How many occurrences trigger before the end of the run. */
  function OccurrenceCount(f: Fault, duration: real): (n: nat)
    requires f.KillFault?
  {
    var n := Ceil((duration - FirstAt(f)) / f.every);
    if n < 0 then 0 else n
  }

  /** Exactly the occurrences that trigger before the end are generated. */
  lemma TriggersBeforeEnd(f: Fault, duration: real, k: nat)
    requires f.KillFault?
    ensures Moment(f, k) < duration <==> k < OccurrenceCount(f, duration)
  {
    StepsBelow(f.every, duration - FirstAt(f), k);
  }

  method KillEvents(f: Fault, duration: real, workers: seq<string>, offset: nat) returns (events: seq<FaultEvent>)
    requires f.KillFault? && workers != [] && offset < |workers|
    ensures events == Occurrences(f, workers, offset, OccurrenceCount(f, duration))
  {
    hide OccurrenceCount;
    events := [];
    var occurrence, moment := 0, FirstAt(f);
    TriggersBeforeEnd(f, duration, 0);
    while moment < duration
      invariant moment == Moment(f, occurrence)
      invariant events == Occurrences(f, workers, offset, occurrence)
      invariant occurrence <= OccurrenceCount(f, duration)
      invariant moment < duration <==> occurrence < OccurrenceCount(f, duration)
      decreases OccurrenceCount(f, duration) - occurrence
    {
      var target := if f.target.Some? then f.target.value else workers[(offset + occurrence) % |workers|];
      var killedAt := moment + f.grace;
      var triple := [];
      if f.grace > 0.0 {
        triple := triple + [FaultEvent(moment, Drain, target)];
      }
      triple := triple + [FaultEvent(killedAt, Kill, target)];
      triple := triple + [FaultEvent(killedAt + f.restartDelay, Restart, target)];
      assert triple == Occurrence(f, moment, target);
      events := events + triple;
      TriggersBeforeEnd(f, duration, occurrence + 1);
      occurrence := occurrence + 1;
      moment := moment + f.every;
    }
  }

  /** Start and end of one partition, if it falls inside the run. */
  function PartitionEvents(f: Fault, duration: real, workers: seq<string>, draw: nat): seq<FaultEvent>
    requires f.PartitionFault? && workers != []
  {
    if f.at >= duration then []
    else
      var target := if f.target.Some? then f.target.value else workers[draw % |workers|];
      [FaultEvent(f.at, PartitionStart, target), FaultEvent(f.at + f.forS, PartitionEnd, target)]
  }

  // ---- the timeline ------------------------------------------------------------------------------

  datatype FaultError = BadDuration | NoWorkers | UnknownTarget(target: string)

  function FaultTarget(f: Fault): Option<string> { if f.SteadyFault? then None else f.target }

  function FaultEvents(f: Fault, duration: real, workers: seq<string>, draw: nat): seq<FaultEvent>
    requires workers != []
  {
    match f
    case KillFault(_, _, _, _, _) => Occurrences(f, workers, draw, OccurrenceCount(f, duration))
    case PartitionFault(_, _, _) => PartitionEvents(f, duration, workers, draw)
    case SteadyFault => []
  }

  /** All events of a schedule, in declaration order. */
  function AllEvents(faults: seq<Fault>, duration: real, workers: seq<string>, draws: seq<nat>): seq<FaultEvent>
    requires workers != [] && |draws| == |faults|
  {
    if faults == [] then []
    else
      var n := |faults| - 1;
      AllEvents(faults[..n], duration, workers, draws[..n]) + FaultEvents(faults[n], duration, workers, draws[n])
  }

  predicate TargetKnown(f: Fault, workers: seq<string>) {
    FaultTarget(f).None? || FaultTarget(f).value in workers
  }

  /** Fault `i` is the first whose target is unknown. */
  ghost predicate FirstUnknown(faults: seq<Fault>, workers: seq<string>, i: nat) {
    i < |faults| && !TargetKnown(faults[i], workers) && forall j :: 0 <= j < i ==> TargetKnown(faults[j], workers)
  }

  /** Gather the events of every fault, stopping at the first unknown target, which the error names. */
  method Collect(faults: seq<Fault>, duration: real, workers: seq<string>, draws: seq<nat>)
    returns (res: Result<seq<FaultEvent>, FaultError>)
    requires workers != [] && |draws| == |faults| && (forall i :: 0 <= i < |draws| ==> draws[i] < |workers|)
    ensures res.Ok? <==> forall i :: 0 <= i < |faults| ==> TargetKnown(faults[i], workers)
    ensures res.Ok? ==> res.value == AllEvents(faults, duration, workers, draws)
    ensures res.Err? ==> exists i: nat :: FirstUnknown(faults, workers, i)
                                          && res.error == UnknownTarget(FaultTarget(faults[i]).value)
  {
    hide Occurrences, OccurrenceCount, PartitionEvents;
    var events := [];
    for i := 0 to |faults|
      invariant forall j :: 0 <= j < i ==> TargetKnown(faults[j], workers)
      invariant events == AllEvents(faults[..i], duration, workers, draws[..i])
    {
      var f := faults[i];
      if !TargetKnown(f, workers) {
        assert FirstUnknown(faults, workers, i);
        return Err(UnknownTarget(FaultTarget(f).value));
      }
      var more := [];
      match f {
        case KillFault(_, _, _, _, _) => more := KillEvents(f, duration, workers, draws[i]);
        case PartitionFault(_, _, _) => more := PartitionEvents(f, duration, workers, draws[i]);
        case SteadyFault =>
      }
      assert more == FaultEvents(f, duration, workers, draws[i]);
      assert faults[..i + 1][..i] == faults[..i] && draws[..i + 1][..i] == draws[..i];
      events := events + more;
    }
    assert faults[..|faults|] == faults && draws[..|draws|] == draws;
    return Ok(events);
  }

  /** Expand a schedule: exactly the events its faults give, sorted; or the error that the
      arguments deserve. */
  method Expand(faults: seq<Fault>, duration: real, workers: seq<string>, draws: seq<nat>)
    returns (res: Result<seq<FaultEvent>, FaultError>)
    requires |draws| == |faults| && (workers != [] ==> forall i :: 0 <= i < |draws| ==> draws[i] < |workers|)
    ensures res.Ok? <==> duration > 0.0 && workers != []
                         && forall i :: 0 <= i < |faults| ==> TargetKnown(faults[i], workers)
    ensures duration <= 0.0 ==> res == Err(BadDuration)
    ensures duration > 0.0 && workers == [] ==> res == Err(NoWorkers)
    ensures duration > 0.0 && workers != [] && res.Err? ==>
              exists i: nat :: FirstUnknown(faults, workers, i)
                               && res.error == UnknownTarget(FaultTarget(faults[i]).value)
    ensures res.Ok? ==>
              && SortedBy(FullOrder, res.value)
              && multiset(res.value) == multiset(AllEvents(faults, duration, workers, draws))
  {
    hide FullOrder, AllEvents;
    if duration <= 0.0 {
      return Err(BadDuration);
    }
    if workers == [] {
      return Err(NoWorkers);
    }
    res := Collect(faults, duration, workers, draws);
    if res.Ok? {
      OrdersAreTotal();
      SortSorts(FullOrder, res.value);
      SortPermutes(FullOrder, res.value);
      res := Ok(Sort(FullOrder, res.value));
    }
  }

  // ---- which events a schedule has ---------------------------------------------------------------

  /** One repeating kill's event: for some occurrence that triggers before the end, its drain (given a grace
      period), its kill after the grace period, or the restart after that. */
  ghost predicate KillCauses(f: Fault, duration: real, workers: seq<string>, offset: nat, x: FaultEvent, k: nat)
    requires f.KillFault? && workers != []
  {
    var moment := (if f.start.Some? then f.start.value else f.every) + k as real * f.every;
    && moment < duration
    && x.target == (if f.target.Some? then f.target.value else workers[(offset + k) % |workers|])
    && match x.action
       case Drain => f.grace > 0.0 && x.t == moment
       case Kill => x.t == moment + f.grace
       case Restart => x.t == moment + f.grace + f.restartDelay
       case PartitionStart => false
       case PartitionEnd => false
  }

  /** A fault's events, told without the order they are generated in. */
  ghost predicate Causes(f: Fault, duration: real, workers: seq<string>, draw: nat, x: FaultEvent)
    requires workers != []
  {
    match f
    case KillFault(_, _, _, _, _) => exists k: nat :: KillCauses(f, duration, workers, draw, x, k)
    case PartitionFault(at, forS, target) =>
      && at < duration && x.target == (if target.Some? then target.value else workers[draw % |workers|])
      && ((x.action.PartitionStart? && x.t == at) || (x.action.PartitionEnd? && x.t == at + forS))
    case SteadyFault => false
  }

  lemma OccurrenceCauses(f: Fault, duration: real, workers: seq<string>, offset: nat, x: FaultEvent, k: nat)
    requires f.KillFault? && workers != [] && k < OccurrenceCount(f, duration)
    ensures x in Occurrence(f, Moment(f, k), Victim(f, workers, offset, k))
            <==> KillCauses(f, duration, workers, offset, x, k)
  {
    TriggersBeforeEnd(f, duration, k);
    StepsIsProduct(f.every, k);
    hide OccurrenceCount;
    var e := Occurrence(f, Moment(f, k), Victim(f, workers, offset, k));
    if f.grace > 0.0 { assert e[0].action.Drain? && e[1].action.Kill? && e[2].action.Restart?; }
    else { assert e[0].action.Kill? && e[1].action.Restart?; }
  }

  lemma {:induction false} OccurrencesCause(f: Fault, duration: real, workers: seq<string>, offset: nat, x: FaultEvent,
                                            n: nat)
    requires f.KillFault? && workers != [] && n <= OccurrenceCount(f, duration)
    ensures x in Occurrences(f, workers, offset, n)
            <==> exists k: nat :: k < n && KillCauses(f, duration, workers, offset, x, k)
  {
    hide OccurrenceCount, Occurrence, KillCauses;
    if n > 0 {
      OccurrencesCause(f, duration, workers, offset, x, n - 1);
      OccurrenceCauses(f, duration, workers, offset, x, n - 1);
    }
  }

  /** A fault gives exactly the events it should: a kill those of its occurrences, a partition a start and an
      end, nothing once the run is over by then. */
  lemma FaultEventsExactly(f: Fault, duration: real, workers: seq<string>, draw: nat, x: FaultEvent)
    requires workers != []
    ensures x in FaultEvents(f, duration, workers, draw) <==> Causes(f, duration, workers, draw, x)
    ensures f.PartitionFault? ==> |FaultEvents(f, duration, workers, draw)| == if f.at < duration then 2 else 0
    ensures f.KillFault? ==> |FaultEvents(f, duration, workers, draw)|
                             == OccurrenceCount(f, duration) * if f.grace > 0.0 then 3 else 2
  {
    hide OccurrenceCount, Occurrences, KillCauses;
    if f.KillFault? {
      OccurrencesCause(f, duration, workers, draw, x, OccurrenceCount(f, duration));
      OccurrencesLength(f, workers, draw, OccurrenceCount(f, duration));
      forall k: nat | KillCauses(f, duration, workers, draw, x, k) ensures k < OccurrenceCount(f, duration) {
        KillInTime(f, duration, workers, draw, x, k);
      }
    }
  }

  lemma KillInTime(f: Fault, duration: real, workers: seq<string>, offset: nat, x: FaultEvent, k: nat)
    requires f.KillFault? && workers != [] && KillCauses(f, duration, workers, offset, x, k)
    ensures k < OccurrenceCount(f, duration)
  {
    TriggersBeforeEnd(f, duration, k);
    StepsIsProduct(f.every, k);
    hide OccurrenceCount;
  }

  lemma {:induction false} OccurrencesLength(f: Fault, workers: seq<string>, offset: nat, n: nat)
    requires f.KillFault? && workers != []
    ensures |Occurrences(f, workers, offset, n)| == n * if f.grace > 0.0 then 3 else 2
  {
    if n > 0 { OccurrencesLength(f, workers, offset, n - 1); }
  }

  /** A timeline has exactly the events that one of the schedule's faults gives. */
  lemma {:induction false} TimelineExactly(faults: seq<Fault>, duration: real, workers: seq<string>, draws: seq<nat>,
                                           x: FaultEvent)
    requires workers != [] && |draws| == |faults|
    ensures x in AllEvents(faults, duration, workers, draws)
            <==> exists i :: 0 <= i < |faults| && Causes(faults[i], duration, workers, draws[i], x)
  {
    hide FaultEvents, Causes;
    if faults != [] {
      var n := |faults| - 1;
      TimelineExactly(faults[..n], duration, workers, draws[..n], x);
      FaultEventsExactly(faults[n], duration, workers, draws[n], x);
      assert forall i :: 0 <= i < n ==> faults[..n][i] == faults[i] && draws[..n][i] == draws[i];
    }
  }
}
