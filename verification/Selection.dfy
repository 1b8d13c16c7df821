/** Choosing a replica (src/turboserve/gateway/router.py): health cache, lane draw, weighted
    choice and the fallback to the other lane. Probe verdicts and random draws are inputs. */
module Selection {
  import opened Prelude
  import opened LaneWindows
  import opened CanaryGate

  /** What the router knows of a replica; `checkedAt` is `None` before the first probe. */
  datatype Entry = Entry(name: string, lane: Lane, weight: real, healthy: bool,
                         checkedAt: Option<real>, failures: nat, served: nat)

  predicate ValidPool(pool: seq<Entry>) {
    forall i :: 0 <= i < |pool| ==> pool[i].weight > 0.0
  }

  predicate IsFresh(e: Entry, now: real, ttl: real) {
    e.checkedAt.Some? && now - e.checkedAt.value < ttl
  }

  /** Probe a replica unless its last verdict is recent enough. */
  function RefreshEntry(e: Entry, now: real, ttl: real, probe: bool): Entry {
    if IsFresh(e, now, ttl) then e
    else e.(healthy := probe, checkedAt := Some(now), failures := if probe then 0 else e.failures)
  }

  /** The pool once its first `n` replicas have been looked at; all of them unless interrupted. */
  function RefreshPool(pool: seq<Entry>, now: real, ttl: real, probes: seq<bool>, n: nat): (r: seq<Entry>)
    requires |probes| == |pool|
    ensures |r| == |pool|
    ensures forall i :: 0 <= i < |pool| && (i >= n || IsFresh(pool[i], now, ttl)) ==> r[i] == pool[i]
    ensures forall i :: 0 <= i < |pool| && i < n && !IsFresh(pool[i], now, ttl) ==>
              && r[i].healthy == probes[i] && r[i].checkedAt == Some(now)
              && r[i].failures == (if probes[i] then 0 else pool[i].failures)
    ensures forall i :: 0 <= i < |pool| ==>
              r[i].name == pool[i].name && r[i].lane == pool[i].lane && r[i].weight == pool[i].weight
  {
    seq(|pool|, i requires 0 <= i < |pool| =>
      if i < n then RefreshEntry(pool[i], now, ttl, probes[i]) else pool[i])
  }

  /** One later refresh of the pool: when, how far it got, and what the probes would say. */
  datatype Round = Round(now: real, probes: seq<bool>, n: nat)

  ghost predicate RoundsFor(rounds: seq<Round>, size: nat) {
    forall k :: 0 <= k < |rounds| ==> |rounds[k].probes| == size
  }

  function RefreshAll(pool: seq<Entry>, ttl: real, rounds: seq<Round>): (r: seq<Entry>)
    requires RoundsFor(rounds, |pool|)
    ensures |r| == |pool|
  {
    if rounds == [] then pool
    else
      var before, last := rounds[..|rounds| - 1], rounds[|rounds| - 1];
      RefreshPool(RefreshAll(pool, ttl, before), last.now, ttl, last.probes, last.n)
  }

  /** Quarantine: a replica condemned at time `c` is untouched, and so not a candidate, through
      every series of refreshes before `c + ttl`, whatever the probes would say. */
  lemma {:induction false} QuarantineHolds(pool: seq<Entry>, ttl: real, rounds: seq<Round>, i: nat, c: real)
    requires RoundsFor(rounds, |pool|) && i < |pool|
    requires !pool[i].healthy && pool[i].checkedAt == Some(c)
    requires forall k :: 0 <= k < |rounds| ==> rounds[k].now < c + ttl
    ensures RefreshAll(pool, ttl, rounds)[i] == pool[i]
    ensures forall lane: Lane, exclude :: i !in Candidates(RefreshAll(pool, ttl, rounds), lane, exclude)
  {
    if rounds != [] {
      QuarantineHolds(pool, ttl, rounds[..|rounds| - 1], i, c);
      assert rounds[|rounds| - 1].now < c + ttl;
    }
  }

  /** Healthy and not tried yet. */
  predicate Usable(e: Entry, exclude: set<string>) { e.healthy && e.name !in exclude }

  /** Where the pool lists healthy, untried replicas of a lane: every such place, in order. */
  function Candidates(pool: seq<Entry>, lane: Lane, exclude: set<string>): (r: seq<nat>)
    ensures forall k :: 0 <= k < |r| ==> r[k] < |pool| && pool[r[k]].lane == lane && Usable(pool[r[k]], exclude)
    ensures forall i: nat :: i < |pool| && pool[i].lane == lane && Usable(pool[i], exclude) ==> i in r
    ensures forall j, k :: 0 <= j < k < |r| ==> r[j] < r[k]
  {
    if pool == [] then []
    else
      var last := |pool| - 1;
      var front := Candidates(pool[..last], lane, exclude);
      front + (if pool[last].lane == lane && Usable(pool[last], exclude) then [last] else [])
  }

  /** The canary's share of traffic, clamped to [0, 1]; none without a controller. */
  function CanaryFraction(weight: Option<real>): (f: real)
    ensures 0.0 <= f <= 1.0
  {
    if weight.None? then 0.0 else Min(1.0, Max(0.0, weight.value / 100.0))
  }

  function ChooseLane(pool: seq<Entry>, exclude: set<string>, fraction: real, draw: real): Lane {
    if Candidates(pool, Canary, exclude) == [] then Stable
    else if Candidates(pool, Stable, exclude) == [] then Canary
    else if draw < fraction then Canary else Stable
  }

  // ---- weighted choice -------------------------------------------------------------------------

  /** Total weight of the first `n` candidates. */
  function WeightUpTo(pool: seq<Entry>, cands: seq<nat>, n: nat): real
    requires n <= |cands| && forall k :: 0 <= k < |cands| ==> cands[k] < |pool|
  {
    if n == 0 then 0.0 else WeightUpTo(pool, cands, n - 1) + pool[cands[n - 1]].weight
  }

  lemma {:induction false} WeightGrows(pool: seq<Entry>, cands: seq<nat>, m: nat, n: nat)
    requires ValidPool(pool) && m <= n <= |cands| && forall k :: 0 <= k < |cands| ==> cands[k] < |pool|
    ensures WeightUpTo(pool, cands, m) <= WeightUpTo(pool, cands, n)
    ensures m < n ==> WeightUpTo(pool, cands, m) < WeightUpTo(pool, cands, n)
  {
    if m < n { WeightGrows(pool, cands, m, n - 1); }
  }

  /** Pick in proportion to weight: of the interval [0, total) the draw falls in, candidate `k`
      owns exactly the stretch from the weights before it to its own; the fallback after the
      loop is never needed. */
  method WeightedChoice(pool: seq<Entry>, cands: seq<nat>, draw: real) returns (k: nat)
    requires ValidPool(pool) && cands != [] && 0.0 <= draw < 1.0
    requires forall c :: 0 <= c < |cands| ==> cands[c] < |pool|
    ensures k < |cands|
    ensures |cands| > 1 ==>
              var target := Portion(draw, WeightUpTo(pool, cands, |cands|));
              && target <= WeightUpTo(pool, cands, k + 1)
              && (WeightUpTo(pool, cands, k) < target || k == 0)
  {
    if |cands| == 1 {
      return 0;
    }
    var total := 0.0;
    for i := 0 to |cands|
      invariant total == WeightUpTo(pool, cands, i)
    {
      total := total + pool[cands[i]].weight;
    }
    WeightGrows(pool, cands, 0, |cands|);
    PortionBelow(draw, total);
    k := Locate(pool, cands, Portion(draw, total));
  }

  /** Walks the running total up to the first candidate that reaches `target`. */
  method Locate(pool: seq<Entry>, cands: seq<nat>, target: real) returns (k: nat)
    requires cands != [] && forall c :: 0 <= c < |cands| ==> cands[c] < |pool|
    requires target < WeightUpTo(pool, cands, |cands|)
    ensures k < |cands| && target <= WeightUpTo(pool, cands, k + 1)
    ensures WeightUpTo(pool, cands, k) < target || k == 0
  {
    var upto := 0.0;
    for i := 0 to |cands|
      invariant upto == WeightUpTo(pool, cands, i)
      invariant i > 0 ==> upto < target
    {
      upto := upto + pool[cands[i]].weight;
      if target <= upto {
        return i;
      }
    }
    assert false;
  }

  /** The stretches of [0, total) are owned by one candidate each. */
  lemma WeightedChoiceUnique(pool: seq<Entry>, cands: seq<nat>, target: real, j: nat, k: nat)
    requires ValidPool(pool) && j < |cands| && k < |cands| && forall c :: 0 <= c < |cands| ==> cands[c] < |pool|
    requires target <= WeightUpTo(pool, cands, j + 1) && (WeightUpTo(pool, cands, j) < target || j == 0)
    requires target <= WeightUpTo(pool, cands, k + 1) && (WeightUpTo(pool, cands, k) < target || k == 0)
    ensures j == k
  {
    if j < k { WeightGrows(pool, cands, j + 1, k); }
    if k < j { WeightGrows(pool, cands, k + 1, j); }
  }

  // ---- selection ---------------------------------------------------------------------------------

  /** The lane served from and its candidates: the wanted lane if it has any, else the other. */
  function LaneAndCandidates(pool: seq<Entry>, exclude: set<string>, wanted: Lane): (Lane, seq<nat>) {
    var first := Candidates(pool, wanted, exclude);
    if first != [] then (wanted, first)
    else
      var other := if wanted == Stable then Canary else Stable;
      (other, Candidates(pool, other, exclude))
  }

  /** Some usable replica of the lane. */
  predicate LaneUsable(pool: seq<Entry>, exclude: set<string>, lane: Lane) {
    exists i :: 0 <= i < |pool| && pool[i].lane == lane && Usable(pool[i], exclude)
  }

  /** The lane to serve from: one that can, and if both can, the one insisted on, or by the draw: the
      canary for the fraction of draws that its weight is of 100. */
  ghost predicate ServesFrom(pool: seq<Entry>, exclude: set<string>, forced: Option<Lane>, weight: Option<real>,
                             draw: real, lane: Lane)
  {
    && LaneUsable(pool, exclude, lane)
    && (LaneUsable(pool, exclude, Stable) && LaneUsable(pool, exclude, Canary) ==>
          if forced.Some? then lane == forced.value
          else lane == Canary <==> weight.Some? && 100.0 * draw < weight.value)
  }

  /** Weight of the lane's usable replicas among the first `n`. */
  function LaneWeight(pool: seq<Entry>, exclude: set<string>, lane: Lane, n: nat): real
    requires n <= |pool|
  {
    if n == 0 then 0.0
    else
      LaneWeight(pool, exclude, lane, n - 1)
      + (if pool[n - 1].lane == lane && Usable(pool[n - 1], exclude) then pool[n - 1].weight else 0.0)
  }

  /** Replica `i` is chosen: usable, of the lane to serve from, and the owner of the stretch of that
      lane's weight in which the draw falls. */
  ghost predicate Chosen(pool: seq<Entry>, exclude: set<string>, forced: Option<Lane>, weight: Option<real>,
                         laneDraw: real, pickDraw: real, i: nat)
  {
    && i < |pool| && Usable(pool[i], exclude)
    && ServesFrom(pool, exclude, forced, weight, laneDraw, pool[i].lane)
    && var lane := pool[i].lane;
       var target := Portion(pickDraw, LaneWeight(pool, exclude, lane, |pool|));
       var before := LaneWeight(pool, exclude, lane, i);
       (before < target || before == 0.0) && target <= before + pool[i].weight
  }

  /** `cands` are the places of the lane's usable replicas among the first `n`, in order. */
  ghost predicate IsListing(pool: seq<Entry>, exclude: set<string>, lane: Lane, n: nat, cands: seq<nat>)
    requires n <= |pool|
  {
    if n == 0 then cands == []
    else if pool[n - 1].lane == lane && Usable(pool[n - 1], exclude) then
      cands != [] && cands[|cands| - 1] == n - 1 && IsListing(pool, exclude, lane, n - 1, cands[..|cands| - 1])
    else IsListing(pool, exclude, lane, n - 1, cands)
  }

  lemma {:induction false} ListingLonger(pool: seq<Entry>, more: seq<Entry>, exclude: set<string>, lane: Lane, n: nat,
                                         cands: seq<nat>)
    requires n <= |pool| && pool <= more && IsListing(pool, exclude, lane, n, cands)
    ensures IsListing(more, exclude, lane, n, cands)
  {
    hide Usable;
    if n > 0 {
      var rest := if pool[n - 1].lane == lane && Usable(pool[n - 1], exclude) then cands[..|cands| - 1] else cands;
      ListingLonger(pool, more, exclude, lane, n - 1, rest);
    }
  }

  lemma {:induction false} CandidatesListed(pool: seq<Entry>, exclude: set<string>, lane: Lane)
    ensures IsListing(pool, exclude, lane, |pool|, Candidates(pool, lane, exclude))
  {
    if pool == [] {
      assert Candidates(pool, lane, exclude) == [];
    } else {
      var last := |pool| - 1;
      var front := CandidatesOfFront(pool, exclude, lane);
      hide Candidates, Usable;
      CandidatesListed(pool[..last], exclude, lane);
      ListingLonger(pool[..last], pool, exclude, lane, last, front);
      assert (front + [last])[..|front|] == front && front + [] == front;
    }
  }

  lemma CandidatesOfFront(pool: seq<Entry>, exclude: set<string>, lane: Lane) returns (front: seq<nat>)
    requires pool != []
    ensures front == Candidates(pool[..|pool| - 1], lane, exclude)
    ensures Candidates(pool, lane, exclude)
            == front + (if pool[|pool| - 1].lane == lane && Usable(pool[|pool| - 1], exclude) then [|pool| - 1] else [])
  {
    front := Candidates(pool[..|pool| - 1], lane, exclude);
  }

  /** The candidates' weights are the lane's. */
  lemma {:induction false} ListedWeights(pool: seq<Entry>, exclude: set<string>, lane: Lane, n: nat, cands: seq<nat>,
                                         k: nat)
    requires n <= |pool| && IsListing(pool, exclude, lane, n, cands) && k <= |cands|
    ensures forall c :: 0 <= c < |cands| ==> cands[c] < n
    ensures WeightUpTo(pool, cands, k) == LaneWeight(pool, exclude, lane, if k < |cands| then cands[k] else n)
    decreases n
  {
    hide Usable;
    if n > 0 {
      if pool[n - 1].lane == lane && Usable(pool[n - 1], exclude) {
        var m := |cands| - 1;
        var front := cands[..m];
        ListedWeights(pool, exclude, lane, n - 1, front, if k < m then k else m);
        assert cands == front + [n - 1];
        WeightOfFront(pool, front, cands, if k < m then k else m);
      } else {
        ListedWeights(pool, exclude, lane, n - 1, cands, k);
      }
    }
  }

  lemma {:induction false} WeightOfFront(pool: seq<Entry>, front: seq<nat>, cands: seq<nat>, n: nat)
    requires front <= cands && n <= |front| && forall c :: 0 <= c < |cands| ==> cands[c] < |pool|
    ensures forall c :: 0 <= c < |front| ==> front[c] < |pool|
    ensures WeightUpTo(pool, front, n) == WeightUpTo(pool, cands, n)
  {
    if n > 0 { WeightOfFront(pool, front, cands, n - 1); }
  }

  lemma CandidatesUsable(pool: seq<Entry>, exclude: set<string>, lane: Lane)
    ensures LaneUsable(pool, exclude, lane) <==> Candidates(pool, lane, exclude) != []
  {
    var cands := Candidates(pool, lane, exclude);
    if cands != [] { assert cands[0] in cands; }
  }

  lemma FractionInNumbers(weight: Option<real>, draw: real)
    requires 0.0 <= draw < 1.0
    ensures draw < CanaryFraction(weight) <==> weight.Some? && 100.0 * draw < weight.value
  {
    if weight.Some? { assert weight.value / 100.0 * 100.0 == weight.value; }
  }

  /** The drawn lane, or the one insisted on, and else the other: that is the lane to serve from. */
  lemma LaneServed(pool: seq<Entry>, exclude: set<string>, forced: Option<Lane>, weight: Option<real>, draw: real)
    requires 0.0 <= draw < 1.0
    ensures var wanted := if forced.Some? then forced.value
                          else ChooseLane(pool, exclude, CanaryFraction(weight), draw);
            var (lane, cands) := LaneAndCandidates(pool, exclude, wanted);
            cands != [] ==> ServesFrom(pool, exclude, forced, weight, draw, lane)
  {
    hide Candidates, LaneUsable, CanaryFraction;
    FractionInNumbers(weight, draw);
    CandidatesUsable(pool, exclude, Stable);
    CandidatesUsable(pool, exclude, Canary);
    var wanted := if forced.Some? then forced.value else ChooseLane(pool, exclude, CanaryFraction(weight), draw);
    CandidatesUsable(pool, exclude, wanted);
    CandidatesUsable(pool, exclude, if wanted == Stable then Canary else Stable);
  }

  lemma {:induction false} PickOwns(pool: seq<Entry>, exclude: set<string>, lane: Lane, cands: seq<nat>, k: nat,
                                    draw: real)
    requires ValidPool(pool) && 0.0 <= draw < 1.0 && IsListing(pool, exclude, lane, |pool|, cands) && k < |cands|
    requires forall c :: 0 <= c < |cands| ==> cands[c] < |pool|
    requires |cands| > 1 ==>
               var target := Portion(draw, WeightUpTo(pool, cands, |cands|));
               && target <= WeightUpTo(pool, cands, k + 1)
               && (WeightUpTo(pool, cands, k) < target || k == 0)
    ensures var target := Portion(draw, LaneWeight(pool, exclude, lane, |pool|));
            var before := LaneWeight(pool, exclude, lane, cands[k]);
            (before < target || before == 0.0) && target <= before + pool[cands[k]].weight
  {
    ListedWeights(pool, exclude, lane, |pool|, cands, k);
    ListedWeights(pool, exclude, lane, |pool|, cands, |cands|);
    hide IsListing, LaneWeight, Usable;
    assert WeightUpTo(pool, cands, k + 1) == WeightUpTo(pool, cands, k) + pool[cands[k]].weight;
    assert k == 0 ==> WeightUpTo(pool, cands, k) == 0.0;
    var total, before := LaneWeight(pool, exclude, lane, |pool|), LaneWeight(pool, exclude, lane, cands[k]);
    assert total == WeightUpTo(pool, cands, |cands|) && before == WeightUpTo(pool, cands, k);
    hide Portion;
    if |cands| == 1 { PortionBelow(draw, total); }
  }

  lemma NoneUsable(pool: seq<Entry>, exclude: set<string>)
    requires Candidates(pool, Stable, exclude) == [] && Candidates(pool, Canary, exclude) == []
    ensures forall i :: 0 <= i < |pool| ==> !Usable(pool[i], exclude)
  {
    forall i: nat | i < |pool| && Usable(pool[i], exclude) ensures i in Candidates(pool, pool[i].lane, exclude) {}
  }

  lemma SelectedRightly(pool: seq<Entry>, exclude: set<string>, forced: Option<Lane>, weight: Option<real>,
                        laneDraw: real, pickDraw: real, lane: Lane, cands: seq<nat>, k: nat)
    requires ValidPool(pool) && 0.0 <= laneDraw < 1.0 && 0.0 <= pickDraw < 1.0
    requires cands == Candidates(pool, lane, exclude) && k < |cands|
    requires ServesFrom(pool, exclude, forced, weight, laneDraw, lane)
    requires |cands| > 1 ==>
               var target := Portion(pickDraw, WeightUpTo(pool, cands, |cands|));
               && target <= WeightUpTo(pool, cands, k + 1)
               && (WeightUpTo(pool, cands, k) < target || k == 0)
    ensures Chosen(pool, exclude, forced, weight, laneDraw, pickDraw, cands[k])
  {
    hide ServesFrom, LaneWeight, WeightUpTo, IsListing, Candidates;
    CandidatesListed(pool, exclude, lane);
    PickOwns(pool, exclude, lane, cands, k, pickDraw);
  }

  /** Choose the replica for the next attempt from an already refreshed pool; `None` is the
      "no healthy backend" error. */
  method Select(pool: seq<Entry>, exclude: set<string>, forced: Option<Lane>, weight: Option<real>,
                laneDraw: real, pickDraw: real) returns (chosen: Option<nat>)
    requires ValidPool(pool) && 0.0 <= laneDraw < 1.0 && 0.0 <= pickDraw < 1.0
    ensures chosen.None? <==> forall i :: 0 <= i < |pool| ==> !Usable(pool[i], exclude)
    ensures chosen.Some? ==> Chosen(pool, exclude, forced, weight, laneDraw, pickDraw, chosen.value)
  {
    hide Candidates, ServesFrom, CanaryFraction, ChooseLane, WeightUpTo, ValidPool, Chosen;
    var wanted := if forced.Some? then forced.value else ChooseLane(pool, exclude, CanaryFraction(weight), laneDraw);
    var lane, cands := wanted, Candidates(pool, wanted, exclude);
    if cands == [] {
      lane := if wanted == Stable then Canary else Stable;
      cands := Candidates(pool, lane, exclude);
    }
    LaneServed(pool, exclude, forced, weight, laneDraw);
    if cands == [] {
      NoneUsable(pool, exclude);
      return None;
    }
    var k := WeightedChoice(pool, cands, pickDraw);
    SelectedRightly(pool, exclude, forced, weight, laneDraw, pickDraw, lane, cands, k);
    ChosenUsable(pool, exclude, forced, weight, laneDraw, pickDraw, cands[k]);
    return Some(cands[k]);
  }

  lemma ChosenUsable(pool: seq<Entry>, exclude: set<string>, forced: Option<Lane>, weight: Option<real>,
                     laneDraw: real, pickDraw: real, i: nat)
    requires Chosen(pool, exclude, forced, weight, laneDraw, pickDraw, i)
    ensures i < |pool| && Usable(pool[i], exclude)
  {}

  /** A rollback or a promotion takes effect on the next selection: with no forced lane, a
      controller at weight 0 never gets the canary while a usable stable replica exists, and one
      at weight 100 never gets stable while a usable canary exists. */
  lemma WeightTakesEffectAtOnce(cfg: CanaryConfig, r: Rollout, pool: seq<Entry>, exclude: set<string>, draw: real,
                                i: nat)
    requires OnStep(cfg, r) && 0.0 <= draw < 1.0 && i < |pool| && Usable(pool[i], exclude)
    ensures var fraction := CanaryFraction(Some(Weight(cfg, r) as real));
            var lane := LaneAndCandidates(pool, exclude, ChooseLane(pool, exclude, fraction, draw)).0;
            && (r.state.RolledBack? || r.state.Idle? ==> pool[i].lane == Stable ==> lane == Stable)
            && (r.state.Promoted? ==> pool[i].lane == Canary ==> lane == Canary)
  {
    assert i in Candidates(pool, pool[i].lane, exclude);
  }
}
