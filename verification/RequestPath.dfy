/** `Router.generate` (src/turboserve/gateway/router.py): one request over a pool of replicas,
    retried only before its first event. Everything outside the router is an input: what other
    requests did to the pool meanwhile, probe verdicts, draws, and each replica's stream. */
module RequestPath {
  import opened Prelude
  import opened LaneWindows
  import opened Selection
  import opened Limits

  /** A backend's event; only its error flag and identity matter here. */
  datatype TokenEvent = TokenEvent(id: int, finished: bool, isError: bool)

  /** A `BackendError`: may another replica serve the request, and is it of the class that does
      not condemn the replica. */
  datatype BackendFailure = BackendFailure(retryable: bool, rejectsRequest: bool)

  /** How a backend's stream ends: normally, with a backend error, or with any other exception. */
  datatype Ending = Stops | Raises(failure: BackendFailure) | Crashes

  datatype Stream = Stream(events: seq<TokenEvent>, ending: Ending)

  /** The router's opinion of one replica as other requests left it. */
  datatype Health = Health(healthy: bool, checkedAt: Option<real>, failures: nat, served: nat)

  /** Everything one attempt depends on. */
  datatype AttemptEnv = AttemptEnv(health: seq<Health>, now: real, probes: seq<bool>, weight: Option<real>,
                                   laneDraw: real, pickDraw: real, streams: seq<Stream>, endedAt: real)

  predicate ValidEnv(env: AttemptEnv, n: nat) {
    && |env.health| == |env.probes| == |env.streams| == n
    && 0.0 <= env.laneDraw < 1.0 && 0.0 <= env.pickDraw < 1.0
  }

  /** What the client receives: a backend's event, or the router's own failure terminator. */
  datatype Payload = FromBackend(event: TokenEvent) | FailureEvent

  datatype RoutedEvent = RoutedEvent(payload: Payload, backend: string, lane: Lane, attempt: nat)

  datatype RaisedError = RateLimited | NoHealthyBackend | BackendRaised(failure: BackendFailure) | WrappedCrash

  datatype Exit = Returned | Raised(error: RaisedError) | ClosedByClient

  /** One report to the canary controller. */
  datatype Observation = Observation(lane: Lane, ok: bool)

  /** What a run did: events sent, how it ended, reports made, and the replica of each attempt. */
  datatype Trace = Trace(sent: seq<RoutedEvent>, exit: Exit, observed: seq<Observation>, attempts: seq<nat>)

  /** 1 or more. */
  type Positive = n: nat | n >= 1 witness 1

  /** What the client does: reads to the end; leaves with the `pulls`-th event in hand; or leaves
      before it got anything from attempt `attempt`, either while that attempt's replica is being
      selected, with `probed` replicas looked at so far, or while it waits for the replica's first
      event. */
  datatype Client =
    | Reads
    | Takes(pulls: Positive)
    | LeavesSelecting(attempt: Positive, probed: nat)
    | LeavesWaiting(attempt: Positive)

  /** The client leaves now that it holds `n` events. */
  predicate LeavesAfter(client: Client, n: nat) { client.Takes? && client.pulls == n }

  predicate LeavesDuringSelection(client: Client, attempt: nat) {
    client.LeavesSelecting? && client.attempt == attempt
  }

  predicate LeavesDuringWait(client: Client, attempt: nat) { client.LeavesWaiting? && client.attempt == attempt }

  // ---- what every run must look like ---------------------------------------------------------------

  function Tag(events: seq<TokenEvent>, name: string, lane: Lane, attempt: nat): (r: seq<RoutedEvent>)
    ensures |r| == |events|
    ensures forall i :: 0 <= i < |r| ==> r[i] == RoutedEvent(FromBackend(events[i]), name, lane, attempt)
  {
    seq(|events|, i requires 0 <= i < |events| => RoutedEvent(FromBackend(events[i]), name, lane, attempt))
  }

  ghost predicate DistinctReplicas(pool: seq<Entry>, attempts: seq<nat>) {
    && (forall i :: 0 <= i < |attempts| ==> attempts[i] < |pool|)
    && (forall i, j :: 0 <= i < j < |attempts| ==> pool[attempts[i]].name != pool[attempts[j]].name)
  }

  /** An attempt that sent nothing and may be retried. */
  ghost predicate RetriedAway(envs: seq<AttemptEnv>, i: nat, replica: nat)
    requires i < |envs| && replica < |envs[i].streams|
  {
    var s := envs[i].streams[replica];
    s.events == [] && s.ending.Raises? && s.ending.failure.retryable
  }

  ghost predicate WellFed(pool: seq<Entry>, envs: seq<AttemptEnv>, attempts: seq<nat>) {
    && |attempts| <= |envs| && (forall i :: 0 <= i < |attempts| ==> attempts[i] < |pool|)
    && (forall i :: 0 <= i < |envs| ==> ValidEnv(envs[i], |pool|))
  }

  /** The error a run raises after an attempt whose stream ended this way before any event. */
  predicate Explains(ending: Ending, error: RaisedError) {
    match error
    case BackendRaised(f) => ending == Raises(f)
    case WrappedCrash => ending.Crashes?
    case NoHealthyBackend => ending.Raises? && ending.failure.retryable
    case RateLimited => false
  }

  /** What one attempt on a replica delivered: a prefix of its stream, followed by at most one
      failure event, and then only if that stream failed after its last event. */
  ghost predicate Delivered(name: string, lane: Lane, s: Stream, attempt: nat,
                            sent: seq<RoutedEvent>, exit: Exit)
  {
    var all := Tag(s.events, name, lane, attempt);
    var failed := all + [RoutedEvent(FailureEvent, name, lane, attempt)];
    match exit
    case ClosedByClient =>
      || (exists n :: 0 <= n <= |s.events| && sent == Tag(s.events[..n], name, lane, attempt))
      || (s.events != [] && !s.ending.Stops? && sent == failed)
    case Raised(error) => sent == [] && s.events == [] && Explains(s.ending, error)
    case Returned =>
      if s.ending.Stops? then sent == all else s.events != [] && sent == failed
  }

  /** The last attempt delivered everything the client got. */
  ghost predicate FromOneStream(pool: seq<Entry>, envs: seq<AttemptEnv>, t: Trace)
    requires WellFed(pool, envs, t.attempts)
  {
    if t.attempts == [] then t.sent == [] && !t.exit.Returned?
    else
      var k := |t.attempts|;
      var replica := t.attempts[k - 1];
      Delivered(pool[replica].name, pool[replica].lane, envs[k - 1].streams[replica], k, t.sent, t.exit)
  }

  /** One replica per client stream. */
  ghost predicate OneReplica(pool: seq<Entry>, envs: seq<AttemptEnv>, maxAttempts: nat, t: Trace) {
    && WellFed(pool, envs, t.attempts)
    && DistinctReplicas(pool, t.attempts)
    && |t.attempts| <= maxAttempts
    && (forall i :: 0 <= i < |t.attempts| - 1 ==> RetriedAway(envs, i, t.attempts[i]))
    && FromOneStream(pool, envs, t)
    && (t.exit.Raised? ==> t.sent == [])
    && (t.exit.Raised? && t.exit.error.BackendRaised? && t.exit.error.failure.retryable ==>
          |t.attempts| == maxAttempts)
    && (t.exit == Raised(NoHealthyBackend) ==> |t.attempts| < maxAttempts)
  }

  predicate CarriesError(events: seq<TokenEvent>) {
    exists i :: 0 <= i < |events| && events[i].isError
  }

  /** Whether an attempt counts as a success: its stream stopped by itself and reported no error. */
  predicate Succeeded(s: Stream) { s.ending.Stops? && !CarriesError(s.events) }

  /** Unless the client closed the stream, each attempt was reported once, on its own lane, and
      as the success or failure it was. */
  ghost predicate AttemptsReported(pool: seq<Entry>, envs: seq<AttemptEnv>, observed: seq<Observation>,
                                   attempts: seq<nat>)
    requires WellFed(pool, envs, attempts)
  {
    && |observed| == |attempts|
    && forall i :: 0 <= i < |attempts| ==>
         observed[i] == Observation(pool[attempts[i]].lane, Succeeded(envs[i].streams[attempts[i]]))
  }

  /** Attempts are reported in order, each once, on its own lane, as what it was; only the last may
      be missing. */
  ghost predicate ReportedSoFar(pool: seq<Entry>, envs: seq<AttemptEnv>, t: Trace)
    requires WellFed(pool, envs, t.attempts)
  {
    && |t.attempts| - 1 <= |t.observed| <= |t.attempts|
    && AttemptsReported(pool, envs, t.observed, t.attempts[..|t.observed|])
  }

  /** A client that leaves before anything came from an attempt: nothing was sent, every earlier
      attempt was retried away and reported, the one being waited for is neither reported nor
      followed by another. */
  ghost predicate LeftBefore(envs: seq<AttemptEnv>, client: Client, t: Trace)
    requires |t.attempts| <= |envs|
    requires forall i :: 0 <= i < |t.attempts| ==> t.attempts[i] < |envs[i].streams|
  {
    && (client.LeavesSelecting? || client.LeavesWaiting?)
    && t.sent == [] && |t.observed| == client.attempt - 1
    && |t.attempts| == (if client.LeavesSelecting? then client.attempt - 1 else client.attempt)
    && forall i :: 0 <= i < client.attempt - 1 ==> RetriedAway(envs, i, t.attempts[i])
  }

  /** How a run ends for this client: gone exactly where it said, or served before it got there. */
  ghost predicate EndsFor(envs: seq<AttemptEnv>, client: Client, t: Trace)
    requires |t.attempts| <= |envs|
    requires forall i :: 0 <= i < |t.attempts| ==> t.attempts[i] < |envs[i].streams|
  {
    match client
    case Reads => !t.exit.ClosedByClient?
    case Takes(pulls) => t.exit.ClosedByClient? <==> |t.sent| == pulls
    case _ => if t.exit.ClosedByClient? then LeftBefore(envs, client, t) else |t.attempts| < client.attempt
  }

  // ---- small facts ------------------------------------------------------------------------------------

  /** The pool after other requests had their say about its health. */
  function Disturbed(pool: seq<Entry>, health: seq<Health>): (r: seq<Entry>)
    requires |health| == |pool|
    ensures |r| == |pool|
    ensures forall i :: 0 <= i < |pool| ==>
              r[i] == pool[i].(healthy := health[i].healthy, checkedAt := health[i].checkedAt,
                               failures := health[i].failures, served := health[i].served)
  {
    seq(|pool|, i requires 0 <= i < |pool| =>
      pool[i].(healthy := health[i].healthy, checkedAt := health[i].checkedAt,
               failures := health[i].failures, served := health[i].served))
  }

  /** The pool as a selection finds it: what others left of each verdict younger than `ttl`, and a
      fresh probe of everybody else. */
  ghost function Beheld(pool: seq<Entry>, env: AttemptEnv, ttl: real): (r: seq<Entry>)
    requires ValidEnv(env, |pool|)
    ensures |r| == |pool|
    ensures forall i :: 0 <= i < |pool| ==>
              var h, probe := env.health[i], env.probes[i];
              var recent := h.checkedAt.Some? && env.now - h.checkedAt.value < ttl;
              r[i] == pool[i].(healthy := if recent then h.healthy else probe,
                               checkedAt := if recent then h.checkedAt else Some(env.now),
                               failures := if !recent && probe then 0 else h.failures, served := h.served)
  {
    seq(|pool|, i requires 0 <= i < |pool| =>
      var h, probe := env.health[i], env.probes[i];
      var recent := h.checkedAt.Some? && env.now - h.checkedAt.value < ttl;
      pool[i].(healthy := if recent then h.healthy else probe,
               checkedAt := if recent then h.checkedAt else Some(env.now),
               failures := if !recent && probe then 0 else h.failures, served := h.served))
  }

  lemma BeheldSame(a: seq<Entry>, b: seq<Entry>, env: AttemptEnv, ttl: real)
    requires SameReplicas(a, b) && ValidEnv(env, |a|)
    ensures Beheld(a, env, ttl) == Beheld(b, env, ttl)
  {
    assert forall i :: 0 <= i < |a| ==> Beheld(a, env, ttl)[i] == Beheld(b, env, ttl)[i];
  }

  function Names(pool: seq<Entry>, attempts: seq<nat>): (r: set<string>)
    requires forall i :: 0 <= i < |attempts| ==> attempts[i] < |pool|
    ensures forall i :: 0 <= i < |attempts| ==> pool[attempts[i]].name in r
  {
    if attempts == [] then {} else Names(pool, attempts[..|attempts| - 1]) + {pool[attempts[|attempts| - 1]].name}
  }

  /** The last attempt's replica was chosen rightly among those its selection found healthy and that had
      not been tried. */
  ghost predicate LastChosen(pool: seq<Entry>, envs: seq<AttemptEnv>, ttl: real, forced: Option<Lane>,
                             attempts: seq<nat>)
    requires WellFed(pool, envs, attempts) && attempts != []
  {
    var n := |attempts| - 1;
    Chosen(Beheld(pool, envs[n], ttl), Names(pool, attempts[..n]), forced, envs[n].weight, envs[n].laneDraw,
           envs[n].pickDraw, attempts[n])
  }

  /** Every attempt's was. */
  ghost predicate RightlyChosen(pool: seq<Entry>, envs: seq<AttemptEnv>, ttl: real, forced: Option<Lane>,
                                attempts: seq<nat>)
    requires WellFed(pool, envs, attempts)
  {
    attempts == []
    || (LastChosen(pool, envs, ttl, forced, attempts)
        && RightlyChosen(pool, envs, ttl, forced, attempts[..|attempts| - 1]))
  }

  /** One more attempt is made, for a client that waits, and its selection finds nobody untried
      healthy. */
  ghost predicate NobodyLeft(pool: seq<Entry>, envs: seq<AttemptEnv>, ttl: real, client: Client, attempts: seq<nat>)
    requires WellFed(pool, envs, attempts)
  {
    var n := |attempts|;
    && n < |envs| && (forall i :: 0 <= i < n ==> RetriedAway(envs, i, attempts[i]))
    && !LeavesDuringWait(client, n) && !LeavesDuringSelection(client, n + 1)
    && var view := Beheld(pool, envs[n], ttl);
       forall k :: 0 <= k < |pool| ==> !Usable(view[k], Names(pool, attempts))
  }

  /** A served replica: one request more, out if its stream failed in transport before the client left,
      and without failures to its name if it succeeded. */
  ghost predicate Marked(before: Entry, after: Entry, stream: Stream, reported: bool, now: real) {
    if reported && stream.ending.Raises? && !stream.ending.failure.rejectsRequest then
      after == before.(served := before.served + 1, failures := before.failures + 1, healthy := false,
                       checkedAt := Some(now))
    else after == before.(served := before.served + 1,
                          failures := if reported && Succeeded(stream) then 0 else before.failures)
  }

  /** Nothing happened to a pool but that replica `k` was served. */
  ghost predicate OneServed(view: seq<Entry>, after: seq<Entry>, env: AttemptEnv, k: nat, reported: bool)
    requires k < |view| && ValidEnv(env, |view|)
  {
    && |after| == |view| && after == view[k := after[k]]
    && Marked(view[k], after[k], env.streams[k], reported, env.endedAt)
  }

  /** What the run leaves of the pool: as its last selection found it, but for the replica served last
      and those not yet looked at when the client left. */
  ghost predicate LeftBehind(pool: seq<Entry>, after: seq<Entry>, envs: seq<AttemptEnv>, ttl: real, client: Client,
                             t: Trace)
    requires WellFed(pool, envs, t.attempts)
  {
    var n := |t.attempts|;
    if t.exit == Raised(NoHealthyBackend) then n < |envs| && after == Beheld(pool, envs[n], ttl)
    else if t.exit.ClosedByClient? && client.LeavesSelecting? then
      && n < |envs| && |after| == |pool|
      && forall i :: 0 <= i < |pool| ==>
           after[i] == if i < client.probed then Beheld(pool, envs[n], ttl)[i] else Disturbed(pool, envs[n].health)[i]
    else
      0 < n && OneServed(Beheld(pool, envs[n - 1], ttl), after, envs[n - 1], t.attempts[n - 1], |t.observed| == n)
  }

  /** Same replicas, whatever their health. */
  ghost predicate SameReplicas(a: seq<Entry>, b: seq<Entry>) {
    && |a| == |b|
    && forall i :: 0 <= i < |a| ==>
         a[i].name == b[i].name && a[i].lane == b[i].lane && a[i].weight == b[i].weight
  }

  /** Take a replica out after a failure, unless the failure only rejects the request. */
  function MarkFailure(e: Entry, f: BackendFailure, now: real): Entry {
    if f.rejectsRequest then e
    else e.(failures := e.failures + 1, healthy := false, checkedAt := Some(now))
  }

  function Elements(s: seq<nat>): (r: set<nat>)
    ensures forall x :: x in r <==> x in s
  {
    if s == [] then {} else Elements(s[..|s| - 1]) + {s[|s| - 1]}
  }

  lemma {:induction false} DistinctCount(s: seq<nat>)
    requires forall i, j :: 0 <= i < j < |s| ==> s[i] != s[j]
    ensures |Elements(s)| == |s|
  {
    if s != [] {
      DistinctCount(s[..|s| - 1]);
      assert s[|s| - 1] !in s[..|s| - 1];
    }
  }

  lemma PigeonHole(attempts: seq<nat>, n: nat)
    requires forall i :: 0 <= i < |attempts| ==> attempts[i] < n
    requires forall i, j :: 0 <= i < j < |attempts| ==> attempts[i] != attempts[j]
    ensures |attempts| <= n
  {
    DistinctCount(attempts);
    BoundedCount(n, Elements(attempts));
  }

  lemma {:induction false} BoundedCount(n: nat, s: set<nat>)
    requires forall x :: x in s ==> x < n
    ensures |s| <= n
  {
    if n == 0 {
      assert s == {};
    } else {
      BoundedCount(n - 1, s - {n - 1});
    }
  }

  /** Attempts never outnumber the pool. */
  lemma AttemptsBounded(pool: seq<Entry>, attempts: seq<nat>)
    requires DistinctReplicas(pool, attempts)
    ensures |attempts| <= |pool|
  {
    forall i, j | 0 <= i < j < |attempts| ensures attempts[i] != attempts[j] {
      assert pool[attempts[i]].name != pool[attempts[j]].name;
    }
    PigeonHole(attempts, |pool|);
  }

  // ---- the router ----------------------------------------------------------------------------------------

  /** How an attempt's stream left the inner loop. */
  datatype Pumped = Drained | Closed

  class Router {
    var pool: seq<Entry>
    const ttl: real
    const maxAttempts: nat

    ghost predicate Valid()
      reads this
    {
      ValidPool(pool) && maxAttempts >= 1
    }

    constructor (pool: seq<Entry>, ttl: real, maxAttempts: nat)
      requires ValidPool(pool) && maxAttempts >= 1
      ensures Valid() && this.pool == pool && this.maxAttempts == maxAttempts
    {
      this.pool, this.ttl, this.maxAttempts := pool, ttl, maxAttempts;
    }

    /** Refresh stale verdicts, then choose a replica that has not been tried, from the lane the
        caller, the controller's weight and the draw ask for if it has one. */
    method SelectReplica(env: AttemptEnv, tried: set<string>, forced: Option<Lane>) returns (chosen: Option<nat>)
      requires Valid() && ValidEnv(env, |pool|)
      modifies this
      ensures Valid() && SameReplicas(pool, old(pool))
      ensures pool == Beheld(old(pool), env, ttl)
      ensures chosen.None? <==> forall i :: 0 <= i < |pool| ==> !Usable(pool[i], tried)
      ensures chosen.Some? ==> Chosen(pool, tried, forced, env.weight, env.laneDraw, env.pickDraw, chosen.value)
    {
      hide Chosen, Usable;
      pool := RefreshPool(Disturbed(pool, env.health), env.now, ttl, env.probes, |pool|);
      chosen := Select(pool, tried, forced, env.weight, env.laneDraw, env.pickDraw);
    }

    /** Pass a backend's events on until they run out or the client leaves with its last one. */
    method Pump(events: seq<TokenEvent>, name: string, lane: Lane, attempt: nat, client: Client)
      returns (sent: seq<RoutedEvent>, started: bool, streamError: bool, left: Pumped)
      ensures left.Drained? ==> sent == Tag(events, name, lane, attempt) && (streamError <==> CarriesError(events))
      ensures left.Closed? ==> LeavesAfter(client, |sent|) && |sent| <= |events|
      ensures left.Closed? ==> sent == Tag(events[..|sent|], name, lane, attempt)
      ensures started <==> sent != []
      ensures client.Takes? ==> |sent| <= client.pulls && (left.Drained? ==> |sent| < client.pulls)
    {
      sent, started, streamError := [], false, false;
      var i := 0;
      while i < |events|
        invariant 0 <= i <= |events| && |sent| == i && sent == Tag(events[..i], name, lane, attempt)
        invariant started <==> sent != []
        invariant streamError <==> CarriesError(events[..i])
        invariant client.Takes? ==> i < client.pulls
      {
        started := true;
        streamError := streamError || events[i].isError;
        assert events[..i + 1] == events[..i] + [events[i]];
        assert streamError <==> CarriesError(events[..i + 1]);
        sent := sent + [RoutedEvent(FromBackend(events[i]), name, lane, attempt)];
        i := i + 1;
        if LeavesAfter(client, i) {
          return sent, started, streamError, Closed;
        }
      }
      assert events[..i] == events;
      left := Drained;
    }

    /** Serve one request. `forced` is a lane the caller insists on. The slot is held from before
        the first attempt until the run ends, however and whenever it ends. */
    method Generate(envs: seq<AttemptEnv>, forced: Option<Lane>, client: Client, limiter: TenantLimiter?)
      returns (t: Trace)
      requires Valid() && |envs| == maxAttempts && (forall i :: 0 <= i < |envs| ==> ValidEnv(envs[i], |pool|))
      modifies this, limiter
      ensures Valid() && SameReplicas(pool, old(pool))
      ensures OneReplica(old(pool), envs, maxAttempts, t)
      ensures |t.attempts| <= maxAttempts && |t.attempts| <= |old(pool)|
      ensures RightlyChosen(old(pool), envs, ttl, forced, t.attempts)
      ensures t.exit == Raised(NoHealthyBackend)
              <==> t.exit != Raised(RateLimited) && NobodyLeft(old(pool), envs, ttl, client, t.attempts)
      ensures t.exit != Raised(RateLimited) ==> LeftBehind(old(pool), pool, envs, ttl, client, t)
      ensures t.exit == Raised(RateLimited) ==> pool == old(pool)
      ensures ReportedSoFar(old(pool), envs, t)
      ensures !t.exit.ClosedByClient? ==> AttemptsReported(old(pool), envs, t.observed, t.attempts)
      ensures t.exit != Raised(RateLimited) ==> EndsFor(envs, client, t)
      ensures t.exit == Raised(RateLimited) <==>
                limiter != null && limiter.maxConcurrency.Some? && old(limiter.inFlight) >= limiter.maxConcurrency.value
      ensures t.exit == Raised(RateLimited) ==> t.attempts == []
      ensures limiter != null ==> limiter.inFlight == old(limiter.inFlight)
    {
      assert RightlyChosen(pool, envs, ttl, forced, []);
      if limiter != null {
        var ok := limiter.TryAcquireSlot();
        if !ok {
          limiter.rejected := limiter.rejected + 1;
          return Trace([], Raised(RateLimited), [], []);
        }
      }
      hide RightlyChosen, NobodyLeft, LeftBehind, RunDone;
      t := Attempts(envs, forced, client);
      DoneMeans(old(pool), pool, envs, ttl, forced, client, maxAttempts, t);
      AttemptsBounded(old(pool), t.attempts);
      if limiter != null {
        limiter.ReleaseSlot();
      }
    }

    /** One attempt: choose a replica, pass its events on, and deal with how its stream ends. */
    method TryOnce(env: AttemptEnv, tried: set<string>, forced: Option<Lane>, client: Client, attempt: nat)
      returns (o: Tried)
      requires Valid() && ValidEnv(env, |pool|)
      modifies this
      ensures Valid() && SameReplicas(pool, old(pool))
      ensures Attempted(old(pool), pool, env, ttl, tried, forced, client, attempt, o)
    {
      hide Chosen, Usable, Concluded, Settled, Attempted;
      ghost var view := Beheld(pool, env, ttl);
      if LeavesDuringSelection(client, attempt) {
        SelectionLeft(pool, env, ttl, tried, forced, client, attempt);
        pool := RefreshPool(Disturbed(pool, env.health), env.now, ttl, env.probes, client.probed);
        return LeftSelecting;
      }
      var chosen := SelectReplica(env, tried, forced);
      if chosen.None? {
        SelectedNobody(old(pool), env, ttl, tried, forced, client, attempt);
        return NoReplica;
      }
      var k := chosen.value;
      ChosenUntried(view, tried, forced, env, k);
      pool := pool[k := pool[k].(served := pool[k].served + 1)];
      if LeavesDuringWait(client, attempt) {
        WaitLeft(old(pool), env, ttl, tried, forced, client, attempt, k);
        return LeftWaiting(k);
      }
      ghost var served := pool[k];
      o := Serve(k, env.streams[k], client, attempt, env.endedAt);
      assert pool == view[k := pool[k]];
      ServedBy(old(pool), served, pool, env, ttl, tried, forced, client, attempt, o);
    }

    /** Pass one replica's stream on and act on its end. */
    method Serve(k: nat, stream: Stream, client: Client, attempt: nat, now: real) returns (o: Tried)
      requires Valid() && k < |pool|
      modifies this
      ensures Valid() && SameReplicas(pool, old(pool))
      ensures (o.Retry? || o.Ended?) && o.replica == k
      ensures Concluded(old(pool)[k].name, old(pool)[k].lane, stream, client, attempt, o)
      ensures pool == old(pool)[k := pool[k]]
      ensures Settled(old(pool)[k], pool[k], stream.ending, o, now)
    {
      var entry := pool[k];
      var sent, started, streamError, left := Pump(stream.events, entry.name, entry.lane, attempt, client);
      if left.Closed? {
        return Ended(k, sent, ClosedByClient, None);
      }
      match stream.ending {
        case Raises(f) =>
          pool := pool[k := MarkFailure(pool[k], f, now)];
          if started {
            sent := sent + [RoutedEvent(FailureEvent, entry.name, entry.lane, attempt)];
            return Ended(k, sent, if LeavesAfter(client, |sent|) then ClosedByClient else Returned, Some(false));
          }
          if !f.retryable {
            return Ended(k, [], Raised(BackendRaised(f)), Some(false));
          }
          return Retry(k, f);
        case Crashes =>
          if !started {
            return Ended(k, [], Raised(WrappedCrash), Some(false));
          }
          sent := sent + [RoutedEvent(FailureEvent, entry.name, entry.lane, attempt)];
          return Ended(k, sent, if LeavesAfter(client, |sent|) then ClosedByClient else Returned, Some(false));
        case Stops =>
          if streamError {
            return Ended(k, sent, Returned, Some(false));
          }
          pool := pool[k := pool[k].(failures := 0)];
          return Ended(k, sent, Returned, Some(true));
      }
    }

    /** The retry loop inside the slot. */
    method Attempts(envs: seq<AttemptEnv>, forced: Option<Lane>, client: Client) returns (t: Trace)
      requires Valid() && |envs| == maxAttempts && (forall i :: 0 <= i < |envs| ==> ValidEnv(envs[i], |pool|))
      modifies this
      ensures Valid() && SameReplicas(pool, old(pool))
      ensures RunDone(old(pool), pool, envs, ttl, forced, client, maxAttempts, t)
    {
      hide RunDone, Ongoing, Attempted, WellFed;
      ghost var replicas := pool;
      var tried: set<string> := {};
      var observed: seq<Observation> := [];
      var attempts: seq<nat> := [];
      var lastError: Option<BackendFailure> := None;
      NothingTried(replicas, envs, ttl, forced, client);
      for attempt := 1 to maxAttempts + 1
        invariant |attempts| == attempt - 1
        invariant Valid() && SameReplicas(pool, replicas)
        invariant Ongoing(replicas, pool, envs, ttl, forced, client, tried, observed, attempts, lastError)
      {
        ghost var before := pool;
        var o := TryOnce(envs[attempt - 1], tried, forced, client, attempt);
        SameAttempt(before, replicas, pool, envs[attempt - 1], ttl, tried, forced, client, attempt, o);
        OngoingFed(replicas, before, envs, ttl, forced, client, tried, observed, attempts, lastError);
        match o {
          case NoReplica =>
            t := Trace([], Raised(NoHealthyBackend), observed, attempts);
            GaveUp(replicas, before, pool, envs, ttl, forced, client, tried, observed, attempts, lastError);
          case LeftSelecting =>
            t := Trace([], ClosedByClient, observed, attempts);
            LeftWhileSelecting(replicas, before, pool, envs, ttl, forced, client, tried, observed, attempts, lastError);
          case LeftWaiting(k) =>
            t := Trace([], ClosedByClient, observed, attempts + [k]);
            LeftWhileWaiting(replicas, before, pool, envs, ttl, forced, client, tried, observed, attempts, lastError,
                             k);
          case Retry(k, f) =>
            Retried(replicas, before, pool, envs, ttl, forced, client, tried, observed, attempts, lastError, k, f);
            tried := tried + {pool[k].name};
            attempts := attempts + [k];
            observed := observed + [Observation(pool[k].lane, false)];
            lastError := Some(f);
            continue;
          case Ended(k, sent, exit, reported) =>
            EndedBy(replicas, before, pool, envs, ttl, forced, client, tried, observed, attempts, lastError, o);
            t := Trace(sent, exit, Report(observed, pool[k].lane, reported), attempts + [k]);
        }
        return;
      }
      OngoingFed(replicas, pool, envs, ttl, forced, client, tried, observed, attempts, lastError);
      t := Trace([], Raised(BackendRaised(lastError.value)), observed, attempts);
      OutOfAttempts(replicas, pool, envs, ttl, forced, client, tried, observed, attempts, lastError);
    }
  }

  // ---- the loop's invariant ---------------------------------------------------------------------

  /** What one attempt came to; `reported` is the success flag told to the canary controller. */
  datatype Tried =
    | NoReplica
    | LeftSelecting
    | LeftWaiting(replica: nat)
    | Retry(replica: nat, failure: BackendFailure)
    | Ended(replica: nat, sent: seq<RoutedEvent>, exit: Exit, reported: Option<bool>)
  {
    predicate HasReplica() { !NoReplica? && !LeftSelecting? }
  }

  /** What a stream that was pumped to its end, or left by the client, comes to. */
  ghost predicate Concluded(name: string, lane: Lane, s: Stream, client: Client, attempt: nat, o: Tried)
    requires o.Retry? || o.Ended?
  {
    if o.Retry? then s == Stream([], Raises(o.failure)) && o.failure.retryable
    else
      && Delivered(name, lane, s, attempt, o.sent, o.exit)
      && o.exit != Raised(RateLimited) && o.exit != Raised(NoHealthyBackend)
      && (o.exit.Raised? && o.exit.error.BackendRaised? ==> !o.exit.error.failure.retryable)
      && (o.exit.ClosedByClient? <==> LeavesAfter(client, |o.sent|))
      && (o.reported.Some? ==> o.reported.value == Succeeded(s))
      && (!o.exit.ClosedByClient? ==> o.reported.Some?)
  }

  /** Only a transport failure that the router saw takes the replica out. */
  predicate Condemned(ending: Ending, o: Tried) {
    (o.Retry? || (o.Ended? && o.reported.Some?)) && ending.Raises? && !ending.failure.rejectsRequest
  }

  /** What the end of its stream does to a replica. */
  ghost predicate Settled(before: Entry, after: Entry, ending: Ending, o: Tried, now: real) {
    after == if Condemned(ending, o)
             then before.(failures := before.failures + 1, healthy := false, checkedAt := Some(now))
             else before.(failures := if o.Ended? && o.reported == Some(true) then 0 else before.failures)
  }

  /** What one attempt leaves of the pool. */
  ghost predicate TryLeaves(pool: seq<Entry>, after: seq<Entry>, env: AttemptEnv, ttl: real, client: Client, o: Tried)
    requires ValidEnv(env, |pool|) && (o.HasReplica() ==> o.replica < |pool|)
  {
    var view := Beheld(pool, env, ttl);
    && |after| == |pool|
    && match o
       case NoReplica => after == view
       case LeftSelecting =>
         && client.LeavesSelecting?
         && forall i :: 0 <= i < |pool| ==>
              after[i] == if i < client.probed then view[i] else Disturbed(pool, env.health)[i]
       case LeftWaiting(k) => OneServed(view, after, env, k, false)
       case Retry(k, _) => OneServed(view, after, env, k, true)
       case Ended(k, _, _, reported) => OneServed(view, after, env, k, reported.Some?)
  }

  /** One attempt: a client gone while selecting, nobody to try, or a rightly chosen untried replica and
      what came of it. */
  ghost predicate Attempted(pool: seq<Entry>, after: seq<Entry>, env: AttemptEnv, ttl: real, tried: set<string>,
                            forced: Option<Lane>, client: Client, attempt: nat, o: Tried)
    requires ValidEnv(env, |pool|)
  {
    var view := Beheld(pool, env, ttl);
    && (o.LeftSelecting? <==> LeavesDuringSelection(client, attempt))
    && (o.NoReplica? <==>
          !LeavesDuringSelection(client, attempt) && forall i :: 0 <= i < |pool| ==> !Usable(view[i], tried))
    && (o.HasReplica() ==>
          && o.replica < |pool| && pool[o.replica].name !in tried
          && Chosen(view, tried, forced, env.weight, env.laneDraw, env.pickDraw, o.replica))
    && (o.LeftWaiting? <==> o.HasReplica() && LeavesDuringWait(client, attempt))
    && (o.Retry? || o.Ended? ==>
          var entry := pool[o.replica];
          Concluded(entry.name, entry.lane, env.streams[o.replica], client, attempt, o))
    && TryLeaves(pool, after, env, ttl, client, o)
  }

  lemma ChosenUntried(view: seq<Entry>, tried: set<string>, forced: Option<Lane>, env: AttemptEnv, k: nat)
    requires Chosen(view, tried, forced, env.weight, env.laneDraw, env.pickDraw, k)
    ensures k < |view| && view[k].name !in tried && Usable(view[k], tried)
  {}

  lemma SelectionLeft(pool: seq<Entry>, env: AttemptEnv, ttl: real, tried: set<string>, forced: Option<Lane>,
                      client: Client, attempt: nat)
    requires ValidEnv(env, |pool|) && LeavesDuringSelection(client, attempt)
    ensures Attempted(pool, RefreshPool(Disturbed(pool, env.health), env.now, ttl, env.probes, client.probed), env, ttl,
                      tried, forced, client, attempt, LeftSelecting)
  {}

  lemma SelectedNobody(pool: seq<Entry>, env: AttemptEnv, ttl: real, tried: set<string>, forced: Option<Lane>,
                       client: Client, attempt: nat)
    requires ValidEnv(env, |pool|) && !LeavesDuringSelection(client, attempt)
    requires forall i :: 0 <= i < |pool| ==> !Usable(Beheld(pool, env, ttl)[i], tried)
    ensures Attempted(pool, Beheld(pool, env, ttl), env, ttl, tried, forced, client, attempt, NoReplica)
  {}

  lemma WaitLeft(pool: seq<Entry>, env: AttemptEnv, ttl: real, tried: set<string>, forced: Option<Lane>,
                 client: Client, attempt: nat, k: nat)
    requires ValidEnv(env, |pool|) && LeavesDuringWait(client, attempt)
    requires var view := Beheld(pool, env, ttl);
             && Chosen(view, tried, forced, env.weight, env.laneDraw, env.pickDraw, k)
             && k < |view| && view[k].name !in tried && Usable(view[k], tried)
    ensures var view := Beheld(pool, env, ttl);
            Attempted(pool, view[k := view[k].(served := view[k].served + 1)], env, ttl, tried, forced, client,
                      attempt, LeftWaiting(k))
  {
    hide Chosen, Concluded, Usable;
  }

  lemma ServedBy(pool: seq<Entry>, served: Entry, after: seq<Entry>, env: AttemptEnv, ttl: real, tried: set<string>,
                 forced: Option<Lane>, client: Client, attempt: nat, o: Tried)
    requires ValidEnv(env, |pool|) && !LeavesDuringSelection(client, attempt) && !LeavesDuringWait(client, attempt)
    requires (o.Retry? || o.Ended?) && o.replica < |pool|
    requires var view, k := Beheld(pool, env, ttl), o.replica;
             && Chosen(view, tried, forced, env.weight, env.laneDraw, env.pickDraw, k)
             && view[k].name !in tried && Usable(view[k], tried)
             && |after| == |view| && after == view[k := after[k]]
             && served == view[k].(served := view[k].served + 1)
             && Settled(served, after[k], env.streams[k].ending, o, env.endedAt)
             && Concluded(view[k].name, view[k].lane, env.streams[k], client, attempt, o)
    ensures Attempted(pool, after, env, ttl, tried, forced, client, attempt, o)
  {
    hide Chosen, Usable, Delivered;
  }

  function Report(observed: seq<Observation>, lane: Lane, ok: Option<bool>): seq<Observation> {
    if ok.Some? then observed + [Observation(lane, ok.value)] else observed
  }

  ghost predicate RetryingSoFar(pool: seq<Entry>, envs: seq<AttemptEnv>, tried: set<string>,
                                observed: seq<Observation>, attempts: seq<nat>) {
    && WellFed(pool, envs, attempts) && DistinctReplicas(pool, attempts)
    && (forall i :: 0 <= i < |attempts| ==> pool[attempts[i]].name in tried)
    && (forall i :: 0 <= i < |attempts| ==> RetriedAway(envs, i, attempts[i]))
    && AttemptsReported(pool, envs, observed, attempts)
  }

  /** The error kept for when attempts run out is the last attempt's. */
  ghost predicate LastFailure(pool: seq<Entry>, envs: seq<AttemptEnv>, attempts: seq<nat>, f: Option<BackendFailure>)
    requires WellFed(pool, envs, attempts)
  {
    if attempts == [] then f.None?
    else f.Some? && envs[|attempts| - 1].streams[attempts[|attempts| - 1]].ending == Raises(f.value)
  }

  /** Only a replica's name, lane and weight matter to an attempt, not the health its opinion of it had. */
  lemma SameAttempt(a: seq<Entry>, b: seq<Entry>, after: seq<Entry>, env: AttemptEnv, ttl: real, tried: set<string>,
                    forced: Option<Lane>, client: Client, attempt: nat, o: Tried)
    requires SameReplicas(a, b) && ValidEnv(env, |a|)
    requires Attempted(a, after, env, ttl, tried, forced, client, attempt, o)
    ensures Attempted(b, after, env, ttl, tried, forced, client, attempt, o)
  {
    BeheldSame(a, b, env, ttl);
    assert Disturbed(a, env.health) == Disturbed(b, env.health);
    hide OneServed, Beheld, Disturbed, Concluded, Chosen, Usable;
  }

  lemma ChosenMore(pool: seq<Entry>, envs: seq<AttemptEnv>, ttl: real, forced: Option<Lane>, attempts: seq<nat>, k: nat)
    requires WellFed(pool, envs, attempts) && |attempts| < |envs| && RightlyChosen(pool, envs, ttl, forced, attempts)
    requires k < |pool|
    requires var env := envs[|attempts|];
             Chosen(Beheld(pool, env, ttl), Names(pool, attempts), forced, env.weight, env.laneDraw, env.pickDraw, k)
    ensures WellFed(pool, envs, attempts + [k]) && RightlyChosen(pool, envs, ttl, forced, attempts + [k])
    ensures Names(pool, attempts + [k]) == Names(pool, attempts) + {pool[k].name}
  {
    hide Chosen, Beheld;
    var more := attempts + [k];
    assert more[..|more| - 1] == attempts && more[|attempts|] == k;
  }

  /** The loop's state before an attempt: everybody so far was rightly chosen, retried away and reported. */
  ghost predicate Ongoing(pool: seq<Entry>, now: seq<Entry>, envs: seq<AttemptEnv>, ttl: real, forced: Option<Lane>,
                          client: Client, tried: set<string>, observed: seq<Observation>, attempts: seq<nat>,
                          lastError: Option<BackendFailure>)
  {
    var n := |attempts|;
    && RetryingSoFar(pool, envs, tried, observed, attempts) && LastFailure(pool, envs, attempts, lastError)
    && tried == Names(pool, attempts) && RightlyChosen(pool, envs, ttl, forced, attempts)
    && (client.LeavesSelecting? || client.LeavesWaiting? ==> n < client.attempt)
    && (0 < n ==> OneServed(Beheld(pool, envs[n - 1], ttl), now, envs[n - 1], attempts[n - 1], true))
  }

  /** Everything a finished run promises. */
  ghost predicate RunDone(pool: seq<Entry>, after: seq<Entry>, envs: seq<AttemptEnv>, ttl: real, forced: Option<Lane>,
                          client: Client, maxAttempts: nat, t: Trace)
  {
    && OneReplica(pool, envs, maxAttempts, t) && ReportedSoFar(pool, envs, t)
    && (!t.exit.ClosedByClient? ==> AttemptsReported(pool, envs, t.observed, t.attempts))
    && t.exit != Raised(RateLimited) && EndsFor(envs, client, t)
    && RightlyChosen(pool, envs, ttl, forced, t.attempts)
    && (t.exit == Raised(NoHealthyBackend) <==> NobodyLeft(pool, envs, ttl, client, t.attempts))
    && LeftBehind(pool, after, envs, ttl, client, t)
  }

  lemma DoneMeans(pool: seq<Entry>, after: seq<Entry>, envs: seq<AttemptEnv>, ttl: real, forced: Option<Lane>,
                  client: Client, maxAttempts: nat, t: Trace)
    requires RunDone(pool, after, envs, ttl, forced, client, maxAttempts, t)
    ensures OneReplica(pool, envs, maxAttempts, t) && ReportedSoFar(pool, envs, t)
    ensures !t.exit.ClosedByClient? ==> AttemptsReported(pool, envs, t.observed, t.attempts)
    ensures t.exit != Raised(RateLimited) && EndsFor(envs, client, t)
    ensures RightlyChosen(pool, envs, ttl, forced, t.attempts)
    ensures t.exit == Raised(NoHealthyBackend) <==> NobodyLeft(pool, envs, ttl, client, t.attempts)
    ensures LeftBehind(pool, after, envs, ttl, client, t)
  {
    hide ReportedSoFar, AttemptsReported, EndsFor, RightlyChosen, NobodyLeft, LeftBehind;
  }

  lemma OngoingFed(pool: seq<Entry>, now: seq<Entry>, envs: seq<AttemptEnv>, ttl: real, forced: Option<Lane>,
                   client: Client, tried: set<string>, observed: seq<Observation>, attempts: seq<nat>,
                   lastError: Option<BackendFailure>)
    requires Ongoing(pool, now, envs, ttl, forced, client, tried, observed, attempts, lastError)
    ensures WellFed(pool, envs, attempts) && (attempts != [] ==> lastError.Some?)
  {}

  lemma GaveUp(pool: seq<Entry>, before: seq<Entry>, after: seq<Entry>, envs: seq<AttemptEnv>, ttl: real,
               forced: Option<Lane>, client: Client, tried: set<string>, observed: seq<Observation>,
               attempts: seq<nat>, lastError: Option<BackendFailure>)
    requires Ongoing(pool, before, envs, ttl, forced, client, tried, observed, attempts, lastError)
    requires |attempts| < |envs| && WellFed(pool, envs, attempts)
    requires Attempted(pool, after, envs[|attempts|], ttl, tried, forced, client, |attempts| + 1, NoReplica)
    ensures RunDone(pool, after, envs, ttl, forced, client, |envs|,
                    Trace([], Raised(NoHealthyBackend), observed, attempts))
  {
    hide OneServed, RightlyChosen, Names, Beheld, Usable, OneReplica, ReportedSoFar, AttemptsReported;
    hide LastFailure, RetriedAway;
    NothingDelivered(pool, envs, tried, observed, attempts, |envs|, NoHealthyBackend);
  }

  lemma LeftWhileSelecting(pool: seq<Entry>, before: seq<Entry>, after: seq<Entry>, envs: seq<AttemptEnv>, ttl: real,
                           forced: Option<Lane>, client: Client, tried: set<string>, observed: seq<Observation>,
                           attempts: seq<nat>, lastError: Option<BackendFailure>)
    requires Ongoing(pool, before, envs, ttl, forced, client, tried, observed, attempts, lastError)
    requires |attempts| < |envs| && WellFed(pool, envs, attempts)
    requires Attempted(pool, after, envs[|attempts|], ttl, tried, forced, client, |attempts| + 1, LeftSelecting)
    ensures RunDone(pool, after, envs, ttl, forced, client, |envs|, Trace([], ClosedByClient, observed, attempts))
  {
    hide OneServed, RightlyChosen, Names, Beheld, Usable, OneReplica, ReportedSoFar, AttemptsReported;
    hide LastFailure, RetriedAway;
    GoneWhileSelecting(pool, envs, tried, observed, attempts, |envs|);
  }

  lemma LeftWhileWaiting(pool: seq<Entry>, before: seq<Entry>, after: seq<Entry>, envs: seq<AttemptEnv>, ttl: real,
                         forced: Option<Lane>, client: Client, tried: set<string>, observed: seq<Observation>,
                         attempts: seq<nat>, lastError: Option<BackendFailure>, k: nat)
    requires Ongoing(pool, before, envs, ttl, forced, client, tried, observed, attempts, lastError)
    requires |attempts| < |envs| && WellFed(pool, envs, attempts)
    requires Attempted(pool, after, envs[|attempts|], ttl, tried, forced, client, |attempts| + 1, LeftWaiting(k))
    ensures RunDone(pool, after, envs, ttl, forced, client, |envs|,
                    Trace([], ClosedByClient, observed, attempts + [k]))
  {
    hide OneServed, RightlyChosen, Names, Beheld, Usable, Chosen, OneReplica, ReportedSoFar, AttemptsReported;
    hide LastFailure, RetriedAway;
    GoneWhileWaiting(pool, envs, tried, observed, attempts, |envs|, k);
    ChosenMore(pool, envs, ttl, forced, attempts, k);
  }

  lemma Retried(pool: seq<Entry>, before: seq<Entry>, after: seq<Entry>, envs: seq<AttemptEnv>, ttl: real,
                forced: Option<Lane>, client: Client, tried: set<string>, observed: seq<Observation>,
                attempts: seq<nat>, lastError: Option<BackendFailure>, k: nat, f: BackendFailure)
    requires Ongoing(pool, before, envs, ttl, forced, client, tried, observed, attempts, lastError)
    requires |attempts| < |envs| && WellFed(pool, envs, attempts)
    requires Attempted(pool, after, envs[|attempts|], ttl, tried, forced, client, |attempts| + 1, Retry(k, f))
    ensures k < |pool|
    ensures Ongoing(pool, after, envs, ttl, forced, client, tried + {pool[k].name},
                    observed + [Observation(pool[k].lane, false)], attempts + [k], Some(f))
  {
    hide OneServed, RightlyChosen, Names, Beheld, Usable, Chosen, AttemptsReported, RetryingSoFar, Concluded;
    hide RetriedAway, Succeeded;
    RetriedSo(pool[k].name, pool[k].lane, envs, |attempts|, client, k, f);
    RetryContinues(pool, envs, tried, observed, attempts, k);
    ChosenMore(pool, envs, ttl, forced, attempts, k);
  }

  lemma EndedBy(pool: seq<Entry>, before: seq<Entry>, after: seq<Entry>, envs: seq<AttemptEnv>, ttl: real,
                forced: Option<Lane>, client: Client, tried: set<string>, observed: seq<Observation>,
                attempts: seq<nat>, lastError: Option<BackendFailure>, o: Tried)
    requires Ongoing(pool, before, envs, ttl, forced, client, tried, observed, attempts, lastError) && o.Ended?
    requires |attempts| < |envs| && WellFed(pool, envs, attempts)
    requires Attempted(pool, after, envs[|attempts|], ttl, tried, forced, client, |attempts| + 1, o)
    ensures o.replica < |pool|
    ensures RunDone(pool, after, envs, ttl, forced, client, |envs|,
                    Trace(o.sent, o.exit, Report(observed, pool[o.replica].lane, o.reported),
                          attempts + [o.replica]))
  {
    hide OneServed, RightlyChosen, Names, Beheld, Usable, Chosen, OneReplica, ReportedSoFar, AttemptsReported;
    hide LastFailure, RetriedAway, Concluded, Delivered, Succeeded;
    var k := o.replica;
    EndedSo(pool[k].name, pool[k].lane, envs, client, |attempts|, o);
    LastAttempt(pool, envs, tried, observed, attempts, |envs|, k, o.sent, o.exit, o.reported);
    ChosenMore(pool, envs, ttl, forced, attempts, k);
    var t := Trace(o.sent, o.exit, Report(observed, pool[k].lane, o.reported), attempts + [k]);
    assert EndsFor(envs, client, t);
    assert LeftBehind(pool, after, envs, ttl, client, t);
    assert !NobodyLeft(pool, envs, ttl, client, t.attempts);
  }

  lemma OutOfAttempts(pool: seq<Entry>, after: seq<Entry>, envs: seq<AttemptEnv>, ttl: real, forced: Option<Lane>,
                      client: Client, tried: set<string>, observed: seq<Observation>, attempts: seq<nat>,
                      lastError: Option<BackendFailure>)
    requires Ongoing(pool, after, envs, ttl, forced, client, tried, observed, attempts, lastError)
    requires |attempts| == |envs| > 0 && lastError.Some?
    ensures RunDone(pool, after, envs, ttl, forced, client, |envs|,
                    Trace([], Raised(BackendRaised(lastError.value)), observed, attempts))
  {
    hide OneServed, RightlyChosen, Names, Beheld, OneReplica, ReportedSoFar, RetriedAway;
    NothingDelivered(pool, envs, tried, observed, attempts, |envs|, BackendRaised(lastError.value));
    var t := Trace([], Raised(BackendRaised(lastError.value)), observed, attempts);
    assert LeftBehind(pool, after, envs, ttl, client, t);
    assert !NobodyLeft(pool, envs, ttl, client, attempts);
    hide LeftBehind, NobodyLeft, AttemptsReported;
    assert RunDone(pool, after, envs, ttl, forced, client, |envs|, t);
  }

  /** What ends a run is not retried away. */
  lemma EndedSo(name: string, lane: Lane, envs: seq<AttemptEnv>, client: Client, n: nat, o: Tried)
    requires o.Ended? && n < |envs| && o.replica < |envs[n].streams|
    requires Concluded(name, lane, envs[n].streams[o.replica], client, n + 1, o)
    ensures !RetriedAway(envs, n, o.replica)
    ensures Delivered(name, lane, envs[n].streams[o.replica], n + 1, o.sent, o.exit)
    ensures o.exit != Raised(RateLimited) && o.exit != Raised(NoHealthyBackend)
    ensures o.exit.Raised? && o.exit.error.BackendRaised? ==> !o.exit.error.failure.retryable
    ensures o.exit.ClosedByClient? <==> LeavesAfter(client, |o.sent|)
    ensures o.reported.Some? ==> o.reported.value == Succeeded(envs[n].streams[o.replica])
    ensures !o.exit.ClosedByClient? ==> o.reported.Some?
  {
    hide Succeeded;
  }

  lemma RetriedSo(name: string, lane: Lane, envs: seq<AttemptEnv>, n: nat, client: Client, k: nat, f: BackendFailure)
    requires n < |envs| && k < |envs[n].streams|
    requires Concluded(name, lane, envs[n].streams[k], client, n + 1, Retry(k, f))
    ensures RetriedAway(envs, n, k) && envs[n].streams[k].ending == Raises(f) && !Succeeded(envs[n].streams[k])
  {}

  lemma MoreAttempts(pool: seq<Entry>, envs: seq<AttemptEnv>, tried: set<string>,
                     observed: seq<Observation>, attempts: seq<nat>, k: nat, ok: bool)
    requires RetryingSoFar(pool, envs, tried, observed, attempts) && |attempts| < |envs|
    requires k < |pool| && pool[k].name !in tried && ok == Succeeded(envs[|attempts|].streams[k])
    ensures WellFed(pool, envs, attempts + [k]) && DistinctReplicas(pool, attempts + [k])
    ensures AttemptsReported(pool, envs, observed + [Observation(pool[k].lane, ok)], attempts + [k])
  {
  }

  lemma RetryContinues(pool: seq<Entry>, envs: seq<AttemptEnv>, tried: set<string>,
                       observed: seq<Observation>, attempts: seq<nat>, k: nat)
    requires RetryingSoFar(pool, envs, tried, observed, attempts) && |attempts| < |envs|
    requires k < |pool| && pool[k].name !in tried && RetriedAway(envs, |attempts|, k)
    ensures RetryingSoFar(pool, envs, tried + {pool[k].name}, observed + [Observation(pool[k].lane, false)],
                          attempts + [k])
  {
    MoreAttempts(pool, envs, tried, observed, attempts, k, false);
  }

  lemma NothingTried(pool: seq<Entry>, envs: seq<AttemptEnv>, ttl: real, forced: Option<Lane>, client: Client)
    requires forall i :: 0 <= i < |envs| ==> ValidEnv(envs[i], |pool|)
    ensures Ongoing(pool, pool, envs, ttl, forced, client, {}, [], [], None)
  {}

  lemma NothingDelivered(pool: seq<Entry>, envs: seq<AttemptEnv>, tried: set<string>,
                         observed: seq<Observation>, attempts: seq<nat>, maxAttempts: nat, error: RaisedError)
    requires RetryingSoFar(pool, envs, tried, observed, attempts)
    requires error.NoHealthyBackend? || error.BackendRaised?
    requires error.NoHealthyBackend? ==> |attempts| < maxAttempts
    requires error.BackendRaised? ==>
               |attempts| == maxAttempts > 0 && LastFailure(pool, envs, attempts, Some(error.failure))
    ensures var t := Trace([], Raised(error), observed, attempts);
            && OneReplica(pool, envs, maxAttempts, t) && ReportedSoFar(pool, envs, t)
            && AttemptsReported(pool, envs, observed, attempts)
  {
    assert attempts[..|observed|] == attempts;
  }

  lemma GoneWhileSelecting(pool: seq<Entry>, envs: seq<AttemptEnv>, tried: set<string>,
                           observed: seq<Observation>, attempts: seq<nat>, maxAttempts: nat)
    requires RetryingSoFar(pool, envs, tried, observed, attempts) && |attempts| < maxAttempts
    ensures var t := Trace([], ClosedByClient, observed, attempts);
            && OneReplica(pool, envs, maxAttempts, t) && ReportedSoFar(pool, envs, t)
            && |observed| == |attempts|
            && forall i :: 0 <= i < |attempts| ==> RetriedAway(envs, i, attempts[i])
  {
    assert attempts[..|observed|] == attempts;
    if attempts != [] {
      var k := |attempts| - 1;
      var entry, s := pool[attempts[k]], envs[k].streams[attempts[k]];
      assert s.events[..0] == [] && Tag([], entry.name, entry.lane, k + 1) == [];
      assert Delivered(entry.name, entry.lane, s, k + 1, [], ClosedByClient);
    }
  }

  lemma GoneWhileWaiting(pool: seq<Entry>, envs: seq<AttemptEnv>, tried: set<string>,
                         observed: seq<Observation>, attempts: seq<nat>, maxAttempts: nat, k: nat)
    requires RetryingSoFar(pool, envs, tried, observed, attempts) && |attempts| < |envs| == maxAttempts
    requires k < |pool| && pool[k].name !in tried
    ensures var t := Trace([], ClosedByClient, observed, attempts + [k]);
            && OneReplica(pool, envs, maxAttempts, t) && ReportedSoFar(pool, envs, t)
            && |observed| == |attempts|
            && forall i :: 0 <= i < |attempts| ==> RetriedAway(envs, i, t.attempts[i])
  {
    var s := envs[|attempts|].streams[k];
    assert s.events[..0] == [] && Tag([], pool[k].name, pool[k].lane, |attempts| + 1) == [];
    LastAttempt(pool, envs, tried, observed, attempts, maxAttempts, k, [], ClosedByClient, None);
  }

  lemma LastAttempt(pool: seq<Entry>, envs: seq<AttemptEnv>, tried: set<string>, observed: seq<Observation>,
                    attempts: seq<nat>, maxAttempts: nat, k: nat, sent: seq<RoutedEvent>, exit: Exit,
                    reported: Option<bool>)
    requires RetryingSoFar(pool, envs, tried, observed, attempts) && |attempts| < |envs| == maxAttempts
    requires k < |pool| && pool[k].name !in tried
    requires Delivered(pool[k].name, pool[k].lane, envs[|attempts|].streams[k], |attempts| + 1, sent, exit)
    requires reported.Some? ==> reported.value == Succeeded(envs[|attempts|].streams[k])
    requires !exit.ClosedByClient? ==> reported.Some?
    requires exit.Raised? ==>
               && !exit.error.NoHealthyBackend?
               && (exit.error.BackendRaised? ==> !exit.error.failure.retryable)
    ensures var t := Trace(sent, exit, Report(observed, pool[k].lane, reported), attempts + [k]);
            && OneReplica(pool, envs, maxAttempts, t) && ReportedSoFar(pool, envs, t)
            && |observed| == |attempts|
            && (!exit.ClosedByClient? ==> AttemptsReported(pool, envs, t.observed, t.attempts))
            && forall i :: 0 <= i < |attempts| ==> RetriedAway(envs, i, t.attempts[i])
  {
    hide Succeeded;
    MoreAttempts(pool, envs, tried, observed, attempts, k, Succeeded(envs[|attempts|].streams[k]));
    assert exit.Raised? ==> sent == [];
    hide Delivered;
    assert (attempts + [k])[..|attempts|] == attempts && (attempts + [k])[..|attempts| + 1] == attempts + [k];
    forall i | 0 <= i < |attempts| ensures RetriedAway(envs, i, (attempts + [k])[i]) {
      assert RetriedAway(envs, i, attempts[i]);
    }
  }
}
