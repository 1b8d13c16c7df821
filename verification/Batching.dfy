/** `batch_records` (scripts/project_h100_results.py): a blocking server that takes whole batches
    from a closed loop of clients. */
module Batching {
  /** Tokens of the longest of these requests. */
  function Longest(counts: seq<nat>): (m: nat)
    ensures forall i :: 0 <= i < |counts| ==> counts[i] <= m
    ensures counts != [] ==> exists i :: 0 <= i < |counts| && counts[i] == m
  {
    if counts == [] then 0
    else
      var m := Longest(counts[..|counts| - 1]);
      if counts[|counts| - 1] >= m then counts[|counts| - 1] else m
  }

  /** Tokens of a padded batch: every member costs as much as the longest. */
  function Padded(counts: seq<nat>): nat { |counts| * Longest(counts) }

  /** The time that takes. */
  function BatchTime(counts: seq<nat>, rate: real): (t: real)
    requires rate > 0.0
    ensures t >= 0.0
  {
    NotNegative(Padded(counts) as real, rate);
    Padded(counts) as real / rate
  }

  lemma NotNegative(x: real, rate: real)
    requires x >= 0.0 && rate > 0.0
    ensures x / rate >= 0.0
  {
  }

  /** A batch costs its members times the tokens of the longest. */
  lemma PaddedExactly(counts: seq<nat>, longest: nat)
    requires longest in counts && forall n :: n in counts ==> n <= longest
    ensures Padded(counts) == |counts| * longest
  {
    assert Longest(counts) == longest by {
      forall i | 0 <= i < |counts| ensures counts[i] <= longest { assert counts[i] in counts; }
    }
    hide Longest;
  }

  /** At `rate` tokens a second that is what it yields in its time. */
  lemma BatchTimeExactly(counts: seq<nat>, rate: real)
    requires rate > 0.0
    ensures BatchTime(counts, rate) * rate == Padded(counts) as real
  {
    hide Padded;
    Restored(Padded(counts) as real, rate);
  }

  lemma Restored(x: real, rate: real)
    requires rate > 0.0
    ensures x / rate * rate == x
  {}

  /** One batch: requests `first .. first + size`, running from `start` to `end`. */
  datatype Batch = Batch(first: nat, size: nat, start: real, end: real)

  /** Send and completion times, indexed by request: the dictionaries are filled key by key. */
  datatype Times = Times(sentAt: seq<real>, doneAt: seq<real>)

  /** Requests are sent and completed in order and by `now`; a request is sent only once the one
      `c` places before it is complete. */
  ghost predicate InOrder(t: Times, c: nat, now: real) {
    && |t.doneAt| <= |t.sentAt| <= |t.doneAt| + c && now >= 0.0
    && (forall i :: 0 <= i < |t.sentAt| ==> 0.0 <= t.sentAt[i] <= now)
    && (forall i :: 0 <= i < |t.doneAt| ==> t.sentAt[i] <= t.doneAt[i] <= now)
    && (forall i, j :: 0 <= i < j < |t.sentAt| ==> t.sentAt[i] <= t.sentAt[j])
    && (forall i, j :: 0 <= i < j < |t.doneAt| ==> t.doneAt[i] <= t.doneAt[j])
    && (forall i, j :: 0 <= i && i + c <= j < |t.sentAt| ==> t.doneAt[i] <= t.sentAt[j])
  }

  /** When there is a slot for request `j`: from the start for the first `c`, and for any other one the moment
      the one `c` places before it completes. */
  function SlotAt(t: Times, c: nat, j: nat): real
    requires j < |t.doneAt| + c
  {
    if j < c then 0.0 else t.doneAt[j - c]
  }

  /** Nobody waits with a slot free. */
  ghost predicate Prompt(t: Times, c: nat) {
    && |t.sentAt| <= |t.doneAt| + c
    && forall j: nat :: j < |t.sentAt| ==> t.sentAt[j] == SlotAt(t, c, j)
  }

  /** Whoever else there is a slot for has got it now. */
  ghost predicate Due(t: Times, c: nat, n: nat, now: real) {
    forall j: nat :: |t.sentAt| <= j < n && j < |t.doneAt| + c ==> SlotAt(t, c, j) == now
  }

  lemma SendPromptly(t: Times, c: nat, n: nat, now: real)
    requires Prompt(t, c) && Due(t, c, n, now) && |t.sentAt| < n && |t.sentAt| < |t.doneAt| + c
    ensures var t' := t.(sentAt := t.sentAt + [now]); Prompt(t', c) && Due(t', c, n, now)
  {
    var t' := t.(sentAt := t.sentAt + [now]);
    forall j: nat | j < |t.doneAt| + c ensures SlotAt(t', c, j) == SlotAt(t, c, j) {}
  }

  lemma SendOne(t: Times, c: nat, now: real)
    requires InOrder(t, c, now) && |t.sentAt| < |t.doneAt| + c
    ensures InOrder(t.(sentAt := t.sentAt + [now]), c, now)
  {
  }

  lemma CompleteOne(t: Times, c: nat, now: real)
    requires InOrder(t, c, now) && |t.doneAt| < |t.sentAt|
    ensures InOrder(t.(doneAt := t.doneAt + [now]), c, now)
  {
  }

  lemma TimePasses(t: Times, c: nat, now: real, later: real)
    requires InOrder(t, c, now) && now <= later
    ensures InOrder(t, c, later)
  {
  }

  /** The queue: the requests sent and not completed, in order. */
  ghost predicate IsQueue(waiting: seq<nat>, done: nat, sent: nat) {
    done <= sent && |waiting| == sent - done && forall k :: 0 <= k < |waiting| ==> waiting[k] == done + k
  }

  /** Later times extend earlier ones; what was sent in between was sent at or after `now`. */
  ghost predicate Extends(t: Times, t': Times, now: real) {
    && |t.sentAt| <= |t'.sentAt| && t'.sentAt[..|t.sentAt|] == t.sentAt
    && |t.doneAt| <= |t'.doneAt| && t'.doneAt[..|t.doneAt|] == t.doneAt
    && (forall i :: |t.sentAt| <= i < |t'.sentAt| ==> t'.sentAt[i] >= now)
  }

  // ---- one round ------------------------------------------------------------------------------

  /** Send while slots are free: each new request at `now`, in order. */
  method SendWhileFree(n: nat, c: nat, free: nat, t: Times, waiting: seq<nat>, now: real)
    returns (free': nat, t': Times, waiting': seq<nat>)
    requires InOrder(t, c, now) && |t.sentAt| <= n && free + (|t.sentAt| - |t.doneAt|) == c
    requires IsQueue(waiting, |t.doneAt|, |t.sentAt|) && Prompt(t, c) && Due(t, c, n, now)
    ensures InOrder(t', c, now) && |t'.sentAt| <= n && free' + (|t'.sentAt| - |t'.doneAt|) == c
    ensures Prompt(t', c)
    ensures IsQueue(waiting', |t'.doneAt|, |t'.sentAt|)
    ensures free' == 0 || |t'.sentAt| == n
    ensures t'.doneAt == t.doneAt && Extends(t, t', now)
  {
    hide InOrder, Due, Prompt;
    free', t', waiting' := free, t, waiting;
    var next := |t.sentAt|;
    while free' > 0 && next < n
      invariant next == |t'.sentAt| <= n && InOrder(t', c, now) && free' + (|t'.sentAt| - |t'.doneAt|) == c
      invariant IsQueue(waiting', |t'.doneAt|, |t'.sentAt|) && Prompt(t', c) && Due(t', c, n, now)
      invariant t'.doneAt == t.doneAt && Extends(t, t', now)
      decreases n - next
    {
      SendOne(t', c, now);
      SendPromptly(t', c, n, now);
      t' := t'.(sentAt := t'.sentAt + [now]);
      waiting' := waiting' + [next];
      next := next + 1;
      free' := free' - 1;
    }
  }

  /** Complete a batch taken off the front of the queue, at `now`. */
  method CompleteBatch(batch: seq<nat>, free: nat, t: Times, ghost c: nat, now: real) returns (free': nat, t': Times)
    requires InOrder(t, c, now) && IsQueue(batch, |t.doneAt|, |t.doneAt| + |batch|)
    requires |t.doneAt| + |batch| <= |t.sentAt|
    ensures InOrder(t', c, now) && free' == free + |batch|
    ensures t'.sentAt == t.sentAt && |t'.doneAt| == |t.doneAt| + |batch| && t'.doneAt[..|t.doneAt|] == t.doneAt
    ensures forall i :: |t.doneAt| <= i < |t'.doneAt| ==> t'.doneAt[i] == now
  {
    hide InOrder;
    free', t' := free, t;
    for k := 0 to |batch|
      invariant InOrder(t', c, now) && free' == free + k
      invariant t'.sentAt == t.sentAt && |t'.doneAt| == |t.doneAt| + k && t'.doneAt[..|t.doneAt|] == t.doneAt
      invariant forall i :: |t.doneAt| <= i < |t'.doneAt| ==> t'.doneAt[i] == now
    {
      assert batch[k] == |t'.doneAt|;
      CompleteOne(t', c, now);
      t' := t'.(doneAt := t'.doneAt + [now]);
      free' := free' + 1;
    }
  }

  // ---- batches -----------------------------------------------------------------------------------

  /** A batch takes at most `size` requests, all sent before it starts, costs its padded time, and
      falls short only when nobody else was waiting. */
  ghost predicate BatchOk(b: Batch, t: Times, counts: seq<nat>, rate: real, size: nat)
    requires rate > 0.0
  {
    && 1 <= b.size <= size && b.first + b.size <= |t.doneAt| && |t.doneAt| <= |t.sentAt| <= |counts|
    && b.end == b.start + BatchTime(counts[b.first..b.first + b.size], rate)
    && (forall i :: b.first <= i < b.first + b.size ==> t.sentAt[i] <= b.start && t.doneAt[i] == b.end)
    && (b.size < size && b.first + b.size < |t.sentAt| ==> t.sentAt[b.first + b.size] >= b.end)
  }

  /** The batches follow each other without a pause from time 0 and cover the completed requests in
      order. */
  ghost predicate Batched(batches: seq<Batch>, t: Times, counts: seq<nat>, rate: real, size: nat, now: real)
    requires rate > 0.0
  {
    if batches == [] then t.doneAt == [] && now == 0.0
    else
      var last := batches[|batches| - 1];
      && now == last.end && |t.doneAt| == last.first + last.size
      && batches[0].first == 0 && batches[0].start == 0.0
      && (forall k :: 1 <= k < |batches| ==> Follows(batches[k - 1], batches[k]))
      && (forall k :: 0 <= k < |batches| ==> BatchOk(batches[k], t, counts, rate, size))
  }

  ghost predicate Follows(a: Batch, b: Batch) { b.first == a.first + a.size && b.start == a.end }

  lemma BatchKept(b: Batch, t: Times, t': Times, counts: seq<nat>, rate: real, size: nat, now: real)
    requires rate > 0.0 && BatchOk(b, t, counts, rate, size) && Extends(t, t', now) && b.end <= now
    requires |t'.doneAt| <= |t'.sentAt| <= |counts|
    ensures BatchOk(b, t', counts, rate, size)
  {
    hide BatchTime;
    forall i | b.first <= i < b.first + b.size ensures t'.sentAt[i] <= b.start && t'.doneAt[i] == b.end {
      assert t'.sentAt[i] == t'.sentAt[..|t.sentAt|][i] && t'.doneAt[i] == t'.doneAt[..|t.doneAt|][i];
    }
    if b.size < size && b.first + b.size < |t.sentAt| {
      assert t'.sentAt[b.first + b.size] == t'.sentAt[..|t.sentAt|][b.first + b.size];
    }
  }

  lemma {:induction false} EndsBy(batches: seq<Batch>, t: Times, counts: seq<nat>, rate: real, size: nat, now: real,
                                  k: nat)
    requires rate > 0.0 && Batched(batches, t, counts, rate, size, now) && k < |batches|
    ensures batches[k].end <= now
    decreases |batches| - k
  {
    if k < |batches| - 1 {
      EndsBy(batches, t, counts, rate, size, now, k + 1);
      assert BatchOk(batches[k + 1], t, counts, rate, size);
      assert Follows(batches[k + 1 - 1], batches[k + 1]);
    }
  }

  lemma OneMoreBatch(batches: seq<Batch>, b: Batch, t: Times, t': Times, counts: seq<nat>, rate: real, size: nat,
                     now: real)
    requires rate > 0.0 && Batched(batches, t, counts, rate, size, now) && Extends(t, t', now)
    requires b.first == |t.doneAt| && b.start == now && BatchOk(b, t', counts, rate, size)
    requires |t'.doneAt| == b.first + b.size
    ensures Batched(batches + [b], t', counts, rate, size, b.end)
  {
    var all := batches + [b];
    forall k | 0 <= k < |all| ensures BatchOk(all[k], t', counts, rate, size) {
      if k < |batches| {
        assert BatchOk(batches[k], t, counts, rate, size);
        EndsBy(batches, t, counts, rate, size, now, k);
        BatchKept(batches[k], t, t', counts, rate, size, now);
      }
    }
    hide BatchOk, Extends;
    forall k | 1 <= k < |all| ensures Follows(all[k - 1], all[k]) {
      if k < |batches| { assert Follows(batches[k - 1], batches[k]); }
    }
  }

  /** One pass of the main loop leaves a well-formed batch behind. */
  lemma BatchDone(b: Batch, t: Times, t1: Times, t2: Times, counts: seq<nat>, rate: real, size: nat, c: nat)
    requires rate > 0.0 && InOrder(t, c, b.start) && |t.sentAt| <= |counts|
    requires b.first == |t.doneAt| && 1 <= b.size <= size && b.first + b.size <= |t.sentAt|
    requires b.size == size || b.first + b.size == |t.sentAt|
    requires b.end == b.start + BatchTime(counts[b.first..b.first + b.size], rate)
    requires t1.sentAt == t.sentAt && |t1.doneAt| == b.first + b.size && t1.doneAt[..|t.doneAt|] == t.doneAt
    requires forall i :: |t.doneAt| <= i < |t1.doneAt| ==> t1.doneAt[i] == b.end
    requires t2.doneAt == t1.doneAt && Extends(t1, t2, b.end) && |t2.sentAt| <= |counts|
    ensures BatchOk(b, t2, counts, rate, size) && Extends(t, t2, b.start)
  {
    hide BatchTime;
    forall i | b.first <= i < b.first + b.size ensures t2.sentAt[i] <= b.start && t2.doneAt[i] == b.end {
      assert t2.sentAt[i] == t2.sentAt[..|t.sentAt|][i];
    }
  }

  /** Run the whole workload: every request is sent once and completed once, both in order; the one
      `c` places ahead is complete before a request is sent; and the server works through batches,
      as full as the queue allows, without a pause. */
  method BatchRecords(counts: seq<nat>, c: nat, rate: real, size: nat)
    returns (t: Times, ghost batches: seq<Batch>, ghost now: real)
    requires rate > 0.0 && size >= 1 && (counts == [] || c >= 1)
    ensures |t.sentAt| == |t.doneAt| == |counts|
    ensures InOrder(t, c, now) && Prompt(t, c) && Batched(batches, t, counts, rate, size, now)
  {
    hide InOrder, Batched, BatchTime, BatchOk, Extends, Prompt, Due;
    var n := |counts|;
    t := Times([], []);
    batches := [];
    NothingYet(t, counts, rate, size, c);
    var free, clock, waiting := c, 0.0, [];
    NobodyDue(t, c, n);
    free, t, waiting := SendWhileFree(n, c, free, t, waiting, clock);
    assert Batched(batches, t, counts, rate, size, 0.0) by { NoBatches(t, counts, rate, size); }
    while waiting != []
      invariant InOrder(t, c, clock) && |t.sentAt| <= n && free + (|t.sentAt| - |t.doneAt|) == c
      invariant IsQueue(waiting, |t.doneAt|, |t.sentAt|) && (free == 0 || |t.sentAt| == n)
      invariant Batched(batches, t, counts, rate, size, clock) && Prompt(t, c)
      decreases n - |t.doneAt|
    {
      var taken := if |waiting| < size then |waiting| else size;
      var batch := waiting[..taken];
      waiting := waiting[taken..];
      ghost var start, before := clock, t;
      clock := clock + BatchTime(counts[batch[0]..batch[0] + taken], rate);
      TimePasses(t, c, start, clock);
      free, t := CompleteBatch(batch, free, t, c, clock);
      ghost var completed := t;
      DueNow(before, completed, c, n, clock);
      free, t, waiting := SendWhileFree(n, c, free, t, waiting, clock);
      ghost var b := Batch(|before.doneAt|, taken, start, clock);
      BatchDone(b, before, completed, t, counts, rate, size, c);
      OneMoreBatch(batches, b, before, t, counts, rate, size, start);
      batches := batches + [b];
    }
    now := clock;
  }

  lemma NobodyDue(t: Times, c: nat, n: nat)
    requires t == Times([], [])
    ensures Prompt(t, c) && Due(t, c, n, 0.0)
  {}

  /** With every slot taken before a batch completes, whoever can be sent after it waited for one of it. */
  lemma DueNow(before: Times, after: Times, c: nat, n: nat, now: real)
    requires Prompt(before, c) && |before.doneAt| <= |before.sentAt|
    requires |before.sentAt| - |before.doneAt| == c || |before.sentAt| == n
    requires after.sentAt == before.sentAt && |after.doneAt| >= |before.doneAt|
    requires after.doneAt[..|before.doneAt|] == before.doneAt
    requires forall i :: |before.doneAt| <= i < |after.doneAt| ==> after.doneAt[i] == now
    ensures Prompt(after, c) && Due(after, c, n, now)
  {
    forall j: nat | j < |before.doneAt| + c ensures SlotAt(after, c, j) == SlotAt(before, c, j) {
      assert j >= c ==> before.doneAt[j - c] == after.doneAt[..|before.doneAt|][j - c];
    }
  }

  lemma NothingYet(t: Times, counts: seq<nat>, rate: real, size: nat, c: nat)
    requires rate > 0.0 && t == Times([], [])
    ensures InOrder(t, c, 0.0)
  {
  }

  lemma NoBatches(t: Times, counts: seq<nat>, rate: real, size: nat)
    requires rate > 0.0 && t.doneAt == []
    ensures Batched([], t, counts, rate, size, 0.0)
  {
  }

  // ---- outstanding requests -------------------------------------------------------------------------

  /** Requests sent but not complete at time `at`. */
  ghost function Outstanding(t: Times, at: real): set<nat>
    requires |t.sentAt| == |t.doneAt|
  {
    set i: nat | i < |t.sentAt| && t.sentAt[i] <= at < t.doneAt[i]
  }

  /** Never more than `c` requests are outstanding. */
  lemma AtMostConcurrency(t: Times, c: nat, now: real, at: real)
    requires InOrder(t, c, now) && |t.sentAt| == |t.doneAt|
    ensures |Outstanding(t, at)| <= c
  {
    var s := Outstanding(t, at);
    if s != {} {
      var low := Smallest(s);
      assert forall i :: low + c <= i < |t.sentAt| ==> t.doneAt[low] <= t.sentAt[i];
      WithinRange(s, low, c);
    }
  }

  lemma {:induction false} Smallest(s: set<nat>) returns (m: nat)
    requires s != {}
    ensures m in s && forall i :: i in s ==> m <= i
    decreases |s|
  {
    var x :| x in s;
    if s == {x} {
      m := x;
    } else {
      var rest := s - {x};
      assert s == rest + {x};
      var r := Smallest(rest);
      m := if x < r then x else r;
    }
  }

  lemma {:induction false} WithinRange(s: set<nat>, low: nat, c: nat)
    requires forall i :: i in s ==> low <= i < low + c
    ensures |s| <= c
    decreases c
  {
    if c == 0 {
      assert s == {};
    } else {
      WithinRange(s - {low + c - 1}, low, c - 1);
    }
  }
}
