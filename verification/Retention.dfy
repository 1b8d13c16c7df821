/** Which block the allocator hands out: the pool told from the log of what was asked of it, without
    its free list and its eviction order (src/turboserve/engine/core/kv_cache.py:194-320,
    prefix_cache.py:284-368). */
module Retention {
  import opened Prelude
  import opened KvBlocks

  /** One thing asked of the allocator and the cache, as it succeeded. */
  datatype Entry = Took(block: nat) | Shared(block: nat) | Dropped(block: nat) | Indexed(block: nat, key: Key)

  // ---- the log alone ------------------------------------------------------------------------

  /** References to block `b`. */
  function Count(log: seq<Entry>, b: nat): int {
    if log == [] then 0
    else
      var x := log[|log| - 1];
      Count(log[..|log| - 1], b) + (if x.block != b || x.Indexed? then 0 else if x.Dropped? then -1 else 1)
  }

  /** When block `b` last lost its last reference; at first, the earlier the lower its number. */
  function IdleSince(n: nat, log: seq<Entry>, b: nat): int {
    if log == [] then b - n
    else if log[|log| - 1] == Dropped(b) && Count(log, b) == 0 then |log| - 1
    else IdleSince(n, log[..|log| - 1], b)
  }

  /** The cached blocks. The first block indexed under a key keeps it until it is handed out anew. */
  function CacheOf(log: seq<Entry>): map<nat, Key> {
    if log == [] then map[] else CacheThen(CacheOf(log[..|log| - 1]), log[|log| - 1])
  }

  function CacheThen(m: map<nat, Key>, x: Entry): map<nat, Key> {
    match x
    case Took(b) => m - {b}
    case Indexed(b, k) => if b in m || k in m.Values then m else m[b := k]
    case Shared(_) => m
    case Dropped(_) => m
  }

  /** Block `b` is idle and, as `cached` says, in the cache or not. */
  predicate Idle(n: nat, log: seq<Entry>, b: nat, cached: bool) {
    b < n && Count(log, b) == 0 && (b in CacheOf(log) <==> cached)
  }

  /** Block `b` has been idle for longer than every other block that is so, cached or not as it is. */
  ghost predicate LongestIdle(n: nat, log: seq<Entry>, b: nat, cached: bool) {
    && Idle(n, log, b, cached)
    && forall c: nat :: Idle(n, log, c, cached) && c != b ==> IdleSince(n, log, b) < IdleSince(n, log, c)
  }

  /** What the log allows next. An allocation takes the block idle longest outside the cache and, only
      if there is none, the one idle longest in it. */
  ghost predicate Allowed(n: nat, log: seq<Entry>, x: Entry) {
    match x
    case Took(b) =>
      LongestIdle(n, log, b, false) || (LongestIdle(n, log, b, true) && forall c: nat :: !Idle(n, log, c, false))
    case Shared(b) => b < n && (Count(log, b) > 0 || b in CacheOf(log))
    case Dropped(b) => b < n && Count(log, b) > 0
    case Indexed(b, k) => b < n && Count(log, b) > 0 && (b in CacheOf(log) ==> CacheOf(log)[b] == k)
  }

  // ---- the pool under the same log ----------------------------------------------------------

  function Next(p: Pool, x: Entry): Option<Pool> {
    match x
    case Took(b) => if Take(p).Some? && Take(p).value.0 == b then Some(Take(p).value.1) else None
    case Shared(b) => Share(p, b)
    case Dropped(b) => Drop(p, b)
    case Indexed(b, k) => if b < |p.refs| && p.refs[b] > 0 then Insert(p, b, k) else None
  }

  function Replay(n: nat, log: seq<Entry>): Option<Pool> {
    if log == [] then Some(Fresh(n))
    else
      var p := Replay(n, log[..|log| - 1]);
      if p.None? then None else Next(p.value, log[|log| - 1])
  }

  /** Strictly later and later. */
  ghost predicate Rising(n: nat, log: seq<Entry>, s: seq<nat>) {
    forall i, j :: 0 <= i < j < |s| ==> IdleSince(n, log, s[i]) < IdleSince(n, log, s[j])
  }

  /** `s` lists the idle blocks, those in the cache or those outside it, idle longest first. */
  ghost predicate Queue(n: nat, log: seq<Entry>, cached: bool, s: seq<nat>) {
    Rising(n, log, s) && forall b: nat :: b in s <==> Idle(n, log, b, cached)
  }

  /** The pool holds what the log says. */
  ghost predicate Told(n: nat, log: seq<Entry>, p: Pool) {
    && |p.refs| == n && (forall b: nat :: b < n ==> p.refs[b] == Count(log, b))
    && p.byBlock == CacheOf(log)
    && (forall k :: k in p.byHash ==> p.byHash[k] in p.byBlock && p.byBlock[p.byHash[k]] == k)
    && (forall b :: b in p.byBlock ==> b < n && p.byBlock[b] in p.byHash && p.byHash[p.byBlock[b]] == b)
    && Queue(n, log, false, p.free) && Queue(n, log, true, p.evictable)
    && (forall b: nat :: b in p.retained <==> b in p.evictable)
    && (forall b: nat :: Count(log, b) >= 0) && forall b: nat :: b < n ==> IdleSince(n, log, b) < |log|
  }

  // ---- the log and one more entry -----------------------------------------------------------

  lemma LogMore(n: nat, log: seq<Entry>, x: Entry, b: nat)
    ensures (log + [x])[..|log|] == log
    ensures Count(log + [x], b) ==
            Count(log, b) + (if x.block != b || x.Indexed? then 0 else if x.Dropped? then -1 else 1)
    ensures IdleSince(n, log + [x], b) ==
            if x == Dropped(b) && Count(log + [x], b) == 0 then |log| else IdleSince(n, log, b)
  {
    assert (log + [x])[..|log|] == log;
  }

  lemma CacheMore(log: seq<Entry>, x: Entry)
    ensures CacheOf(log + [x]) == CacheThen(CacheOf(log), x)
  {
    assert (log + [x])[..|log|] == log;
  }

  lemma FrontLongest(n: nat, log: seq<Entry>, cached: bool, s: seq<nat>, b: nat)
    requires Queue(n, log, cached, s)
    ensures LongestIdle(n, log, b, cached) <==> s != [] && s[0] == b
    ensures s == [] <==> forall c: nat :: !Idle(n, log, c, cached)
  {
    hide Idle, IdleSince;
    if s != [] {
      assert s[0] in s;
      forall c: nat | Idle(n, log, c, cached) && c != s[0] ensures IdleSince(n, log, s[0]) < IdleSince(n, log, c) {
        var j :| 0 <= j < |s| && s[j] == c;
      }
    }
  }

  lemma {:induction false} RisingWithout(n: nat, log: seq<Entry>, s: seq<nat>, b: nat)
    requires Rising(n, log, s)
    ensures Rising(n, log, Without(s, b)) && forall x :: x in Without(s, b) <==> x in s && x != b
  {
    hide IdleSince;
    if s != [] {
      var rest := s[1..];
      RisingWithout(n, log, rest, b);
      var w := Without(rest, b);
      assert forall x :: x in s <==> x == s[0] || x in rest;
      if s[0] != b {
        forall j | 0 <= j < |w| ensures IdleSince(n, log, s[0]) < IdleSince(n, log, w[j]) {
          assert w[j] in w;
          var k :| 0 <= k < |rest| && rest[k] == w[j];
          assert s[k + 1] == rest[k];
        }
      }
    }
  }

  /** The order of a queue does not change while nobody in it is given back anew. */
  lemma RisingMore(n: nat, log: seq<Entry>, x: Entry, s: seq<nat>)
    requires Rising(n, log, s) && forall b :: b in s ==> x != Dropped(b)
    ensures Rising(n, log + [x], s)
  {
    hide IdleSince, Count;
    forall i, j | 0 <= i < j < |s| ensures IdleSince(n, log + [x], s[i]) < IdleSince(n, log + [x], s[j]) {
      assert s[i] in s && s[j] in s;
      LogMore(n, log, x, s[i]);
      LogMore(n, log, x, s[j]);
    }
  }

  // ---- each entry keeps what is told --------------------------------------------------------

  /** A queue that only loses block `b`, whatever else the entry does. */
  lemma QueueLoses(n: nat, log: seq<Entry>, x: Entry, cached: bool, s: seq<nat>, b: nat)
    requires Queue(n, log, cached, s) && !(x.Dropped? && x.block in s)
    requires forall c: nat :: Idle(n, log + [x], c, cached) <==> Idle(n, log, c, cached) && c != b
    ensures Queue(n, log + [x], cached, Without(s, b))
    ensures s != [] && s[0] == b ==> Queue(n, log + [x], cached, s[1..])
    ensures b !in s ==> Queue(n, log + [x], cached, s)
  {
    hide Idle, IdleSince;
    RisingMore(n, log, x, s);
    RisingWithout(n, log + [x], s, b);
    if s != [] && s[0] == b {
      assert s == [b] + s[1..];
      forall j | 0 <= j < |s[1..]| ensures s[1..][j] != b {
        assert IdleSince(n, log, s[0]) < IdleSince(n, log, s[j + 1]);
      }
    }
  }

  lemma QueueStays(n: nat, log: seq<Entry>, x: Entry, cached: bool, s: seq<nat>)
    requires Queue(n, log, cached, s) && !(x.Dropped? && x.block in s)
    requires forall c: nat :: Idle(n, log + [x], c, cached) <==> Idle(n, log, c, cached)
    ensures Queue(n, log + [x], cached, s)
  {
    hide Idle, IdleSince;
    RisingMore(n, log, x, s);
  }

  /** A block that goes idle joins the end. */
  lemma QueueGains(n: nat, log: seq<Entry>, cached: bool, s: seq<nat>, b: nat)
    requires Queue(n, log, cached, s) && b !in s
    requires forall c: nat :: Idle(n, log + [Dropped(b)], c, cached) <==> Idle(n, log, c, cached) || c == b
    requires Count(log + [Dropped(b)], b) == 0 && forall c :: c in s ==> IdleSince(n, log, c) < |log|
    ensures Queue(n, log + [Dropped(b)], cached, s + [b])
  {
    hide Idle, IdleSince, Count;
    var x := Dropped(b);
    RisingMore(n, log, x, s);
    LogMore(n, log, x, b);
    forall c | c in s ensures IdleSince(n, log + [x], c) < |log| { LogMore(n, log, x, c); }
    forall i | 0 <= i < |s| ensures IdleSince(n, log + [x], s[i]) < IdleSince(n, log + [x], b) { assert s[i] in s; }
  }

  lemma TookIdle(n: nat, log: seq<Entry>, b: nat, c: nat, cached: bool)
    requires Count(log, b) == 0
    ensures Idle(n, log + [Took(b)], c, cached) <==> Idle(n, log, c, cached) && c != b
  {
    LogMore(n, log, Took(b), c);
    CacheMore(log, Took(b));
    hide Count, CacheOf;
  }

  lemma TookQueues(n: nat, log: seq<Entry>, p: Pool, b: nat)
    requires Told(n, log, p) && Count(log, b) == 0
    ensures p.free != [] && p.free[0] == b ==> Queue(n, log + [Took(b)], false, p.free[1..])
    ensures p.evictable != [] && p.evictable[0] == b ==> Queue(n, log + [Took(b)], true, p.evictable[1..])
    ensures b !in p.free ==> Queue(n, log + [Took(b)], false, p.free)
    ensures b !in p.evictable ==> Queue(n, log + [Took(b)], true, p.evictable)
  {
    hide Idle, IdleSince, Count, Without;
    forall c: nat, cached ensures Idle(n, log + [Took(b)], c, cached) <==> Idle(n, log, c, cached) && c != b {
      TookIdle(n, log, b, c, cached);
    }
    QueueLoses(n, log, Took(b), false, p.free, b);
    QueueLoses(n, log, Took(b), true, p.evictable, b);
  }

  lemma {:induction false} TookTold(n: nat, log: seq<Entry>, p: Pool)
    requires Told(n, log, p) && Take(p).Some?
    ensures var (b, q) := Take(p).value; Allowed(n, log, Took(b)) && Told(n, log + [Took(b)], q)
  {
    hide IdleSince, Count, CacheOf, LongestIdle, Rising;
    var (b, q) := Take(p).value;
    FrontLongest(n, log, false, p.free, b);
    FrontLongest(n, log, true, p.evictable, b);
    if p.free == [] { TakeRetained(p); }
    IdleMeans(n, log, b, p.free == []);
    CountsTold(n, log, p, Took(b));
    TookQueues(n, log, p, b);
    CacheMore(log, Took(b));
    assert |q.refs| == n && (forall c: nat :: c < n ==> q.refs[c] == Count(log + [Took(b)], c));
    assert q.byBlock == CacheOf(log + [Took(b)]);
    assert Queue(n, log + [Took(b)], false, q.free);
    assert Queue(n, log + [Took(b)], true, q.evictable);
    assert forall k :: k in q.byHash ==> q.byHash[k] in q.byBlock && q.byBlock[q.byHash[k]] == k;
    assert (forall b :: b in q.byBlock ==> b < n && q.byBlock[b] in q.byHash && q.byHash[q.byBlock[b]] == b);
    assert forall c: nat :: c in q.retained <==> c in q.evictable;
  }

  lemma TakeRetained(p: Pool)
    requires p.free == [] && p.evictable != [] && p.evictable[0] in p.retained && p.evictable[0] in p.byBlock
    requires p.evictable[0] < |p.refs|
    ensures var b := p.evictable[0];
            Take(p) == Some((b, p.(refs := p.refs[b := 1], evictable := p.evictable[1..], retained := p.retained - {b},
                                   byBlock := p.byBlock - {b}, byHash := p.byHash - {p.byBlock[b]})))
  {
    assert p.free + [p.evictable[0]] == [p.evictable[0]] && [p.evictable[0]][1..] == p.free;
  }

  lemma IdleMeans(n: nat, log: seq<Entry>, b: nat, cached: bool)
    ensures LongestIdle(n, log, b, cached) ==> b < n && Count(log, b) == 0 && (b in CacheOf(log) <==> cached)
  {}

  lemma CountsTold(n: nat, log: seq<Entry>, p: Pool, x: Entry)
    requires Told(n, log, p) && (x.Dropped? ==> Count(log, x.block) > 0)
    ensures forall b: nat :: Count(log + [x], b) ==
                             Count(log, b) + (if x.block != b || x.Indexed? then 0 else if x.Dropped? then -1 else 1)
    ensures forall b: nat :: Count(log + [x], b) >= 0
    ensures forall b: nat :: b < n ==> IdleSince(n, log + [x], b) < |log + [x]|
  {
    forall b: nat ensures
      Count(log + [x], b) ==
      Count(log, b) + (if x.block != b || x.Indexed? then 0 else if x.Dropped? then -1 else 1)
    {
      LogMore(n, log, x, b);
    }
    forall b: nat | b < n ensures IdleSince(n, log + [x], b) < |log + [x]| { LogMore(n, log, x, b); }
  }

  /** An entry that is not the last reference of a block given back leaves the idle blocks alone, but for
      `x.block` itself. */
  lemma OthersIdle(n: nat, log: seq<Entry>, x: Entry, c: nat, cached: bool)
    requires !x.Took? && (x.Indexed? ==> Count(log, x.block) > 0)
    requires c != x.block || x.Indexed?
    ensures Idle(n, log + [x], c, cached) <==> Idle(n, log, c, cached)
  {
    LogMore(n, log, x, c);
    CacheMore(log, x);
    hide Count, CacheOf;
  }

  lemma SharedTold(n: nat, log: seq<Entry>, p: Pool, b: nat)
    requires Told(n, log, p)
    ensures Share(p, b).Some? <==> Allowed(n, log, Shared(b))
    ensures Share(p, b).Some? ==> Told(n, log + [Shared(b)], Share(p, b).value)
  {
    hide IdleSince, Count, CacheOf, Rising, Without;
    var x := Shared(b);
    CacheMore(log, x);
    CountsTold(n, log, p, x);
    if Share(p, b).Some? {
      forall c: nat, cached ensures Idle(n, log + [x], c, cached) <==> Idle(n, log, c, cached) && c != b {
        if c != b { OthersIdle(n, log, x, c, cached); }
      }
      QueueLoses(n, log, x, true, p.evictable, b);
      QueueLoses(n, log, x, false, p.free, b);
    }
  }

  lemma DroppedTold(n: nat, log: seq<Entry>, p: Pool, b: nat)
    requires Told(n, log, p)
    ensures Drop(p, b).Some? <==> Allowed(n, log, Dropped(b))
    ensures Drop(p, b).Some? ==> Told(n, log + [Dropped(b)], Drop(p, b).value)
  {
    hide IdleSince, Count, CacheOf, Rising, Without;
    var x := Dropped(b);
    CacheMore(log, x);
    if Drop(p, b).Some? {
      CountsTold(n, log, p, x);
      forall c: nat, cached | c != b ensures Idle(n, log + [x], c, cached) <==> Idle(n, log, c, cached) {
        OthersIdle(n, log, x, c, cached);
      }
      if Count(log + [x], b) > 0 {
        QueueStays(n, log, x, true, p.evictable);
        QueueStays(n, log, x, false, p.free);
      } else if b in p.byBlock {
        QueueGains(n, log, true, p.evictable, b);
        QueueStays(n, log, x, false, p.free);
        WithoutStranger(p.evictable, b);
      } else {
        QueueGains(n, log, false, p.free, b);
        QueueStays(n, log, x, true, p.evictable);
      }
    }
  }

  lemma {:induction false} WithoutStranger(s: seq<nat>, b: nat)
    requires b !in s
    ensures Without(s, b) == s
  {
    if s != [] { WithoutStranger(s[1..], b); }
  }

  lemma IndexedTold(n: nat, log: seq<Entry>, p: Pool, b: nat, k: Key)
    requires Told(n, log, p)
    ensures Next(p, Indexed(b, k)).Some? <==> Allowed(n, log, Indexed(b, k))
    ensures Next(p, Indexed(b, k)).Some? ==> Told(n, log + [Indexed(b, k)], Next(p, Indexed(b, k)).value)
  {
    hide IdleSince, Count, CacheOf, Rising, Without;
    var x := Indexed(b, k);
    CacheMore(log, x);
    if Next(p, x).Some? {
      CountsTold(n, log, p, x);
      forall c: nat, cached ensures Idle(n, log + [x], c, cached) <==> Idle(n, log, c, cached) {
        OthersIdle(n, log, x, c, cached);
      }
      QueueStays(n, log, x, true, p.evictable);
      QueueStays(n, log, x, false, p.free);
      assert k in p.byHash <==> k in p.byBlock.Values;
    }
  }

  /** An allocation succeeds exactly if some block is idle. */
  lemma TakeAllowed(n: nat, log: seq<Entry>, p: Pool, b: nat)
    requires Told(n, log, p) && Allowed(n, log, Took(b))
    ensures Take(p).Some? && Take(p).value.0 == b
  {
    hide IdleSince, Count, CacheOf, LongestIdle, Rising;
    FrontLongest(n, log, false, p.free, b);
    FrontLongest(n, log, true, p.evictable, b);
    IdleMeans(n, log, b, p.free == []);
    if p.free == [] { TakeRetained(p); }
  }

  /** The allocator and the cache go on exactly as the log allows. */
  lemma NextTold(n: nat, log: seq<Entry>, p: Pool, x: Entry)
    requires Told(n, log, p)
    ensures Next(p, x).Some? <==> Allowed(n, log, x)
    ensures Next(p, x).Some? ==> Told(n, log + [x], Next(p, x).value)
  {
    hide Told, Share, Drop, Take, Insert;
    match x
    case Took(b) =>
      if Take(p).Some? { TookTold(n, log, p); }
      if Allowed(n, log, x) { TakeAllowed(n, log, p, b); }
    case Shared(b) => SharedTold(n, log, p, b);
    case Dropped(b) => DroppedTold(n, log, p, b);
    case Indexed(b, k) => IndexedTold(n, log, p, b, k);
  }

  lemma FreshTold(n: nat)
    ensures Told(n, [], Fresh(n))
  {
    forall b: nat ensures b in Fresh(n).free <==> b < n {
      if b < n { assert Fresh(n).free[b] == b; }
    }
  }

  lemma {:induction false} ReplayTold(n: nat, log: seq<Entry>)
    requires Replay(n, log).Some?
    ensures Told(n, log, Replay(n, log).value)
    decreases |log|
  {
    if log == [] {
      FreshTold(n);
    } else {
      var most := log[..|log| - 1];
      ReplayTold(n, most);
      NextTold(n, most, Replay(n, most).value, log[|log| - 1]);
      assert log == most + [log[|log| - 1]];
    }
  }

  // ---- what it comes to ---------------------------------------------------------------------

  lemma NextAllowed(n: nat, log: seq<Entry>, x: Entry)
    requires Replay(n, log).Some?
    ensures Replay(n, log + [x]).Some? <==> Allowed(n, log, x)
  {
    hide Told, Next, Allowed;
    ReplayTold(n, log);
    NextTold(n, log, Replay(n, log).value, x);
    assert (log + [x])[..|log|] == log;
  }

  lemma HandedOutRightly(p: Pool)
    ensures Take(p).Some? ==>
              forall n, log :: Replay(n, log) == Some(p) ==> Allowed(n, log, Took(Take(p).value.0))
  {
    hide Told, Allowed;
    forall n, log | Replay(n, log) == Some(p) && Take(p).Some? ensures Allowed(n, log, Took(Take(p).value.0)) {
      ReplayTold(n, log);
      TookTold(n, log, p);
    }
  }

  /** Every entry is one the log before it allows. */
  ghost predicate Legal(n: nat, log: seq<Entry>) {
    forall j: nat :: j < |log| ==> Allowed(n, log[..j], log[j])
  }

  /** A log is one of a run of the allocator and the cache exactly if each entry is allowed by those
      before it. So the block handed out is always the one idle longest outside the cache and, only when
      there is none, the one idle longest in it. */
  lemma {:induction false} LongestIdleFirst(n: nat, log: seq<Entry>)
    ensures Replay(n, log).Some? <==> Legal(n, log)
    decreases |log|
  {
    hide Allowed, Next;
    if log != [] {
      var most, x := log[..|log| - 1], log[|log| - 1];
      LongestIdleFirst(n, most);
      assert log == most + [x];
      assert forall j: nat :: j < |most| ==> log[..j] == most[..j] && log[j] == most[j];
      if Replay(n, most).Some? {
        NextAllowed(n, most, x);
        assert log[..|most|] == most;
      } else {
        assert exists j: nat :: j < |most| && !Allowed(n, most[..j], most[j]);
      }
    }
  }

  /** The cache knows exactly what the log left in it: an allocation forgets the key of the block it hands
      out, if it had one, and no other. */
  lemma CacheAsLogged(n: nat, log: seq<Entry>, b: nat)
    requires Replay(n, log).Some? && Replay(n, log + [Took(b)]).Some?
    ensures var p, q := Replay(n, log).value, Replay(n, log + [Took(b)]).value;
            && q.byBlock == p.byBlock - {b}
            && forall k :: k in q.byHash <==> k in p.byHash && p.byHash[k] != b
  {
    ReplayTold(n, log);
    ReplayTold(n, log + [Took(b)]);
    CacheMore(log, Took(b));
    hide Queue, Count, IdleSince, CacheOf;
  }
}
