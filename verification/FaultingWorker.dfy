/** `FaultingBackend` (src/turboserve/chaos/worker.py): a replica that can be drained, killed and
    revived while any number of its streams are running, in any interleaving. */
module FaultingWorkers {
  import opened Prelude

  // ---- the replica as an object -----------------------------------------------------------------

  /** The fields a stream or an operator can change. */
  datatype Replica = Replica(alive: bool, draining: bool, partitioned: bool, generation: nat,
                             requests: nat, refused: nat, aborted: nat, injected: nat)

  const HEALTHY := Replica(true, false, false, 0, 0, 0, 0, 0)

  predicate Accepting(r: Replica) { r.alive && !r.draining && !r.partitioned }

  /** Whether a stream that started at `generation` must be cut. */
  predicate Cut(r: Replica, generation: nat) { r.generation != generation || !r.alive }

  function AfterDrain(r: Replica): Replica { r.(draining := true) }

  /** A kill also advances the generation, which is how running streams learn of it. */
  function AfterKill(r: Replica): Replica { r.(alive := false, draining := true, generation := r.generation + 1) }

  function AfterRevive(r: Replica): Replica { r.(alive := true, draining := false) }

  class FaultingBackend {
    var alive: bool
    var draining: bool
    var partitioned: bool
    var generation: nat
    var requests: nat
    var refused: nat
    var aborted: nat
    var injected: nat

    ghost function Value(): Replica
      reads this
    {
      Replica(alive, draining, partitioned, generation, requests, refused, aborted, injected)
    }

    constructor ()
      ensures Value() == HEALTHY
    {
      alive, draining, partitioned, generation := true, false, false, 0;
      requests, refused, aborted, injected := 0, 0, 0, 0;
    }

    method Drain()
      modifies this
      ensures Value() == AfterDrain(old(Value()))
    {
      draining := true;
    }

    method Kill()
      modifies this
      ensures Value() == AfterKill(old(Value()))
    {
      alive := false;
      draining := true;
      generation := generation + 1;
    }

    method Revive()
      modifies this
      ensures Value() == AfterRevive(old(Value()))
    {
      alive := true;
      draining := false;
    }

    /** The start of `generate`: refuse, or admit at the current generation. */
    method Open() returns (admitted: Option<nat>)
      modifies this
      ensures admitted == if Accepting(old(Value())) then Some(old(generation)) else None
      ensures Value() == if admitted.Some? then old(Value()).(requests := old(requests) + 1)
                         else old(Value()).(refused := old(refused) + 1)
    {
      var mine := generation;
      if !alive {
        refused := refused + 1;
        return None;
      }
      if draining {
        refused := refused + 1;
        return None;
      }
      if partitioned {
        refused := refused + 1;
        return None;
      }
      requests := requests + 1;
      return Some(mine);
    }

    /** The injected fault before the first token. */
    method Inject()
      modifies this
      ensures Value() == old(Value()).(injected := old(injected) + 1)
    {
      injected := injected + 1;
    }

    /** The loop body: pass the inner event on, or abort the stream. */
    method Forward(mine: nat) returns (emit: bool)
      modifies this
      ensures emit <==> !Cut(old(Value()), mine)
      ensures Value() == if emit then old(Value()) else old(Value()).(aborted := old(aborted) + 1)
    {
      if generation != mine || !alive {
        aborted := aborted + 1;
        return false;
      }
      return true;
    }
  }

  // ---- every interleaving --------------------------------------------------------------------------

  /** A stream is open until it is aborted, fails before its first token, ends or is closed. */
  datatype StreamState = StreamState(generation: nat, startedAt: nat, open: bool)

  /** What happened, in order. */
  datatype Entry =
    | Started(stream: nat) | Refused | Emitted(stream: nat) | WasAborted(stream: nat) | Injected(stream: nat)
    | Ended(stream: nat) | Drained | Killed | Revived | Partitioned(on: bool)

  datatype System = System(replica: Replica, streams: seq<StreamState>, log: seq<Entry>)

  const START := System(HEALTHY, [], [])

  /** Moves of streams and operators; `EventArrives` is the inner backend producing an event for a
      stream, `EndStream` its normal end or the client closing it. */
  datatype Action =
    | OpenStream | EventArrives(stream: nat) | FaultInjected(stream: nat) | EndStream(stream: nat)
    | DrainIt | KillIt | ReviveIt | SetPartition(on: bool)

  predicate IsOpen(s: System, i: nat) { i < |s.streams| && s.streams[i].open }

  function Close(s: System, i: nat): seq<StreamState>
    requires i < |s.streams|
  {
    s.streams[i := s.streams[i].(open := false)]
  }

  function Step(s: System, a: Action): System {
    var r := s.replica;
    match a
    case OpenStream =>
      if Accepting(r)
      then System(r.(requests := r.requests + 1), s.streams + [StreamState(r.generation, |s.log|, true)],
                  s.log + [Started(|s.streams|)])
      else System(r.(refused := r.refused + 1), s.streams, s.log + [Refused])
    case EventArrives(i) =>
      if !IsOpen(s, i) then s
      else if Cut(r, s.streams[i].generation)
      then System(r.(aborted := r.aborted + 1), Close(s, i), s.log + [WasAborted(i)])
      else s.(log := s.log + [Emitted(i)])
    case FaultInjected(i) =>
      if !IsOpen(s, i) then s
      else System(r.(injected := r.injected + 1), Close(s, i), s.log + [Injected(i)])
    case EndStream(i) => if !IsOpen(s, i) then s else System(r, Close(s, i), s.log + [Ended(i)])
    case DrainIt => System(AfterDrain(r), s.streams, s.log + [Drained])
    case KillIt => System(AfterKill(r), s.streams, s.log + [Killed])
    case ReviveIt => System(AfterRevive(r), s.streams, s.log + [Revived])
    case SetPartition(on) => System(r.(partitioned := on), s.streams, s.log + [Partitioned(on)])
  }

  function Run(actions: seq<Action>): System {
    if actions == [] then START else Step(Run(actions[..|actions| - 1]), actions[|actions| - 1])
  }

  /** Kills among the first `n` log entries. */
  function Kills(log: seq<Entry>, n: nat): nat
    requires n <= |log|
  {
    if n == 0 then 0 else Kills(log, n - 1) + (if log[n - 1].Killed? then 1 else 0)
  }

  lemma {:induction false} KillsPrefix(log: seq<Entry>, more: seq<Entry>, n: nat)
    requires n <= |log|
    ensures Kills(log + more, n) == Kills(log, n)
  {
    if n > 0 { KillsPrefix(log, more, n - 1); }
  }

  /** A kill at `q` separates the counts on its two sides. */
  lemma {:induction false} KillsCount(log: seq<Entry>, p: nat, r: nat)
    requires p <= r <= |log|
    ensures Kills(log, p) <= Kills(log, r)
    ensures Kills(log, p) == Kills(log, r) <==> forall q :: p <= q < r ==> !log[q].Killed?
    decreases r
  {
    if p < r { KillsCount(log, p, r - 1); }
  }

  ghost predicate StreamSound(s: System, i: nat)
    requires i < |s.streams|
  {
    var st := s.streams[i];
    && st.startedAt < |s.log| && s.log[st.startedAt] == Started(i)
    && st.generation == Kills(s.log, st.startedAt)
    && (!s.replica.alive ==> st.generation < s.replica.generation)
  }

  /** What an entry about a stream says about the kills since that stream started. */
  ghost predicate EntrySound(s: System, k: nat)
    requires k < |s.log|
  {
    match s.log[k]
    case Started(i) => i < |s.streams| && s.streams[i].startedAt == k
    case Emitted(i) => i < |s.streams| && s.streams[i].startedAt < k && Kills(s.log, k) == s.streams[i].generation
    case WasAborted(i) => i < |s.streams| && s.streams[i].startedAt < k && Kills(s.log, k) > s.streams[i].generation
    case _ => true
  }

  ghost predicate Sound(s: System) {
    && s.replica.generation == Kills(s.log, |s.log|)
    && (forall i :: 0 <= i < |s.streams| ==> StreamSound(s, i))
    && (forall k :: 0 <= k < |s.log| ==> EntrySound(s, k))
  }

  lemma KeepsStreams(s: System, s': System, e: Entry)
    requires Sound(s) && s'.log == s.log + [e]
    requires |s.streams| <= |s'.streams|
    requires forall i :: 0 <= i < |s.streams| ==>
               s'.streams[i].generation == s.streams[i].generation && s'.streams[i].startedAt == s.streams[i].startedAt
    requires s'.replica.generation >= s.replica.generation
    requires !s'.replica.alive ==> !s.replica.alive || s'.replica.generation > s.replica.generation
    ensures forall i :: 0 <= i < |s.streams| ==> StreamSound(s', i)
    ensures forall k :: 0 <= k < |s.log| ==> EntrySound(s', k)
    ensures Kills(s'.log, |s.log|) == s.replica.generation
  {
    KillsPrefix(s.log, [e], |s.log|);
    forall i | 0 <= i < |s.streams| ensures StreamSound(s', i) {
      assert StreamSound(s, i);
      KillsPrefix(s.log, [e], s.streams[i].startedAt);
      KillsCount(s.log, s.streams[i].startedAt, |s.log|);
    }
    forall k | 0 <= k < |s.log| ensures EntrySound(s', k) {
      assert EntrySound(s, k);
      KillsPrefix(s.log, [e], k);
    }
  }

  lemma Extended(s: System, s': System, e: Entry)
    requires Sound(s) && s'.log == s.log + [e] && |s.streams| <= |s'.streams| <= |s.streams| + 1
    requires forall i :: 0 <= i < |s.streams| ==> StreamSound(s', i)
    requires forall k :: 0 <= k < |s.log| ==> EntrySound(s', k)
    requires Kills(s'.log, |s.log|) == s.replica.generation
    requires s'.replica.generation == s.replica.generation + (if e.Killed? then 1 else 0)
    requires |s'.streams| > |s.streams| ==> StreamSound(s', |s.streams|)
    requires EntrySound(s', |s.log|)
    ensures Sound(s')
  {
    hide StreamSound, EntrySound;
  }

  lemma StepSound(s: System, a: Action)
    requires Sound(s)
    ensures Sound(Step(s, a))
  {
    var s' := Step(s, a);
    if s' != s {
      var e := s'.log[|s.log|];
      KeepsStreams(s, s', e);
      match a {
        case OpenStream =>
        case EventArrives(i) =>
          assert StreamSound(s, i);
          KillsCount(s.log, s.streams[i].startedAt, |s.log|);
        case _ =>
      }
      assert EntrySound(s', |s.log|);
      Extended(s, s', e);
    }
  }

  lemma {:induction false} RunSound(actions: seq<Action>)
    ensures Sound(Run(actions))
  {
    hide Step, StreamSound, EntrySound;
    if actions != [] {
      RunSound(actions[..|actions| - 1]);
      StepSound(Run(actions[..|actions| - 1]), actions[|actions| - 1]);
    }
  }

  /** No stream survives a kill: in every interleaving, once a kill has followed a stream's start
      that stream emits nothing more, even if the replica was revived in between. */
  lemma NoEmissionAfterKill(actions: seq<Action>, i: nat, p: nat, q: nat, r: nat)
    requires var log := Run(actions).log;
             p < q < r < |log| && log[p] == Started(i) && log[q] == Killed
    ensures Run(actions).log[r] != Emitted(i)
  {
    RunSound(actions);
    var s := Run(actions);
    assert EntrySound(s, p) && EntrySound(s, r);
    assert i < |s.streams| && StreamSound(s, i);
    KillsCount(s.log, p, r);
  }

  /** Nothing but a kill cuts a stream: an aborted stream was started before some kill that came
      before the abort, so a drain, a partition or a revival alone never does it. */
  lemma OnlyKillsAbort(actions: seq<Action>, i: nat, r: nat)
    requires r < |Run(actions).log| && Run(actions).log[r] == WasAborted(i)
    ensures exists p: nat, q: nat :: p < q < r && Run(actions).log[p] == Started(i) && Run(actions).log[q] == Killed
  {
    RunSound(actions);
    var s := Run(actions);
    assert EntrySound(s, r);
    assert StreamSound(s, i);
    var p := s.streams[i].startedAt;
    KillsCount(s.log, p, r);
    var q :| p <= q < r && s.log[q].Killed?;
    assert q != p;
  }

  // ---- counters --------------------------------------------------------------------------------------

  /** Log entries that begin a call: admissions and refusals. */
  function Count(log: seq<Entry>, admitted: bool): nat {
    if log == [] then 0
    else
      var e := log[|log| - 1];
      Count(log[..|log| - 1], admitted) + (if (admitted && e.Started?) || (!admitted && e.Refused?) then 1 else 0)
  }

  function Calls(actions: seq<Action>): nat {
    if actions == [] then 0
    else Calls(actions[..|actions| - 1]) + (if actions[|actions| - 1].OpenStream? then 1 else 0)
  }

  ghost predicate Accounted(s: System, calls: nat) {
    && s.replica.requests + s.replica.refused == calls
    && s.replica.requests == |s.streams|
    && s.replica.requests == Count(s.log, true) && s.replica.refused == Count(s.log, false)
  }

  lemma CountAppend(log: seq<Entry>, e: Entry, admitted: bool)
    ensures Count(log + [e], admitted)
         == Count(log, admitted) + (if (admitted && e.Started?) || (!admitted && e.Refused?) then 1 else 0)
  {
    assert (log + [e])[..|log|] == log;
  }

  lemma StepAccounted(s: System, a: Action, calls: nat)
    requires Accounted(s, calls)
    ensures Accounted(Step(s, a), calls + (if a.OpenStream? then 1 else 0))
  {
    hide Accounted, Cut;
    var s' := Step(s, a);
    if |s'.log| > |s.log| {
      AccountedAppend(s, s', s'.log[|s.log|], calls);
    }
  }

  lemma AccountedAppend(s: System, s': System, e: Entry, calls: nat)
    requires Accounted(s, calls) && s'.log == s.log + [e]
    requires s'.replica.requests == s.replica.requests + (if e.Started? then 1 else 0)
    requires s'.replica.refused == s.replica.refused + (if e.Refused? then 1 else 0)
    requires |s'.streams| == |s.streams| + (if e.Started? then 1 else 0)
    ensures Accounted(s', calls + (if e.Started? || e.Refused? then 1 else 0))
  {
    CountAppend(s.log, e, true);
    CountAppend(s.log, e, false);
  }

  /** Every call is either admitted or refused, and counted as such. */
  lemma {:induction false} CallsAccountedFor(actions: seq<Action>)
    ensures Accounted(Run(actions), Calls(actions))
  {
    hide Step;
    if actions != [] {
      CallsAccountedFor(actions[..|actions| - 1]);
      StepAccounted(Run(actions[..|actions| - 1]), actions[|actions| - 1], Calls(actions[..|actions| - 1]));
    }
  }

  // ---- who is refused -----------------------------------------------------------------------------------

  /** Drained or killed, and not revived since. */
  ghost predicate OutOfService(log: seq<Entry>) {
    exists i :: 0 <= i < |log| && (log[i].Drained? || log[i].Killed?) && forall j :: i < j < |log| ==> !log[j].Revived?
  }

  /** Killed, and not revived since. */
  ghost predicate Dead(log: seq<Entry>) {
    exists i :: 0 <= i < |log| && log[i].Killed? && forall j :: i < j < |log| ==> !log[j].Revived?
  }

  /** The last word on partitions was that there is one. */
  ghost predicate CutOff(log: seq<Entry>) {
    exists i :: 0 <= i < |log| && log[i] == Partitioned(true) && forall j :: i < j < |log| ==> !log[j].Partitioned?
  }

  ghost predicate Told(s: System) {
    && (s.replica.draining <==> OutOfService(s.log)) && (!s.replica.alive <==> Dead(s.log))
    && (s.replica.partitioned <==> CutOff(s.log))
  }

  lemma OutOfServiceMore(log: seq<Entry>, e: Entry)
    ensures OutOfService(log + [e]) <==> e.Drained? || e.Killed? || (!e.Revived? && OutOfService(log))
    ensures Dead(log + [e]) <==> e.Killed? || (!e.Revived? && Dead(log))
  {
    var more := log + [e];
    assert more[|log|] == e;
    if !e.Revived? && OutOfService(log) {
      var i :| 0 <= i < |log| && (log[i].Drained? || log[i].Killed?)
               && forall j :: i < j < |log| ==> !log[j].Revived?;
      assert more[i] == log[i];
    }
    if !e.Revived? && Dead(log) {
      var i :| 0 <= i < |log| && log[i].Killed? && forall j :: i < j < |log| ==> !log[j].Revived?;
      assert more[i] == log[i];
    }
    assert forall j :: 0 <= j < |log| ==> more[j] == log[j];
  }

  lemma CutOffMore(log: seq<Entry>, e: Entry)
    ensures CutOff(log + [e]) <==> if e.Partitioned? then e.on else CutOff(log)
  {
    var more := log + [e];
    assert more[|log|] == e;
    if !e.Partitioned? && CutOff(log) {
      var i :| 0 <= i < |log| && log[i] == Partitioned(true) && forall j :: i < j < |log| ==> !log[j].Partitioned?;
      assert more[i] == log[i];
    }
    assert forall j :: 0 <= j < |log| ==> more[j] == log[j];
  }

  lemma StepTold(s: System, a: Action)
    requires Told(s)
    ensures Told(Step(s, a))
  {
    hide OutOfService, Dead, CutOff;
    var s' := Step(s, a);
    if s' != s {
      OutOfServiceMore(s.log, s'.log[|s.log|]);
      CutOffMore(s.log, s'.log[|s.log|]);
    }
  }

  lemma {:induction false} RunTold(actions: seq<Action>)
    ensures Told(Run(actions))
  {
    hide Step;
    if actions != [] {
      RunTold(actions[..|actions| - 1]);
      StepTold(Run(actions[..|actions| - 1]), actions[|actions| - 1]);
    }
  }

  /** A call is refused if and only if the replica was drained or killed and not revived since, or is
      partitioned; otherwise a stream starts. */
  lemma RefusedExactly(actions: seq<Action>)
    ensures var s, t := Run(actions), Run(actions + [OpenStream]);
            && t.log == s.log + [if OutOfService(s.log) || CutOff(s.log) then Refused else Started(|s.streams|)]
            && |t.streams| == |s.streams| + if OutOfService(s.log) || CutOff(s.log) then 0 else 1
  {
    hide OutOfService, CutOff;
    assert (actions + [OpenStream])[..|actions|] == actions;
    RunTold(actions);
    DeadIsOut(Run(actions).log);
  }

  lemma DeadIsOut(log: seq<Entry>)
    ensures Dead(log) ==> OutOfService(log)
  {}
}
