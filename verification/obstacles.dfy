/**
 * Obstacles and the rejection sampler that places them on the two rings.
 *
 * The sampler keeps two lists, indexed by r in {0, 1}; an obstacle accepted
 * into list r is on ring r + 1. Each candidate is a pair of random draws
 * (an angle d in [0, 359] and a list index r in {0, 1}); here the draws are
 * an input sequence instead of calls to a random number generator.
 */
module Obstacles {

  /** Minimum angular gap, in degrees, checked against the other ring (dredge.py:64). */
  const SPACING: int := 35
  /** Ring-1 candidates above 360 - SPACE_BEFORE_FIRST degrees are refused (dredge.py:66, 73). */
  const SPACE_BEFORE_FIRST: int := 80
  /** Number of obstacles a generation places (dredge.py:68). */
  const NUM: nat := 9
  /** Start value of both scan bounds when the other ring is still empty (dredge.py:79-80). */
  const SENTINEL: int := 1000

  /** An obstacle: its angle changes every tick, its ring and speed never do. */
  class Obstacle {
    var theta: int
    const ring: int
    const speed: int

    constructor (theta: int, ring: int, speed: int)
      ensures this.theta == theta && this.ring == ring && this.speed == speed
    {
      this.theta := theta;
      this.ring := ring;
      this.speed := speed;
    }
  }

  /** No obstacle appears twice in the list. */
  predicate Distinct(obs: seq<Obstacle>)
  {
    forall i, j | 0 <= i < j < |obs| :: obs[i] != obs[j]
  }

  /** The angles of a list of obstacles, in order. */
  function ThetasOf(obs: seq<Obstacle>): (ts: seq<int>)
    reads obs
    ensures |ts| == |obs|
    ensures forall i :: 0 <= i < |obs| ==> ts[i] == obs[i].theta
  {
    seq(|obs|, i reads obs requires 0 <= i < |obs| => obs[i].theta)
  }

  // ---------------------------------------------------------------------
  // The spacing check against the other ring (dredge.py:77-89)
  // ---------------------------------------------------------------------

  /** `m` is the smallest angle of `ts` strictly greater than `d`. */
  predicate NearestAbove(ts: seq<int>, d: int, m: int)
  {
    m in ts && d < m && forall t | t in ts && d < t :: m <= t
  }

  /** `m` is the largest angle of `ts` strictly less than `d`. */
  predicate NearestBelow(ts: seq<int>, d: int, m: int)
  {
    m in ts && m < d && forall t | t in ts && t < d :: t <= m
  }

  /**
   * What the scan of the other ring ends with. Both bounds start at the
   * first angle of the other ring (or at SENTINEL when it is empty) and only
   * move towards d, so only the bound on the side where the first angle lies
   * can reach the nearest neighbour; the other one stays at the first angle.
   */
  predicate ScanResult(ts: seq<int>, d: int, minGreater: int, maxLess: int)
  {
    (ts == [] ==> minGreater == SENTINEL && maxLess == SENTINEL) &&
    (ts != [] && d < ts[0] ==> NearestAbove(ts, d, minGreater) && maxLess == ts[0]) &&
    (ts != [] && ts[0] < d ==> minGreater == ts[0] && NearestBelow(ts, d, maxLess)) &&
    (ts != [] && ts[0] == d ==> minGreater == d && maxLess == d)
  }

  /**
   * Whether a candidate at angle d passes the spacing check against the
   * other ring's angles `others`, stated without the scan: an empty other
   * ring never refuses; otherwise every other-ring angle on the side of the
   * first one must be at least SPACING away from d.
   */
  predicate SpacingOk(others: seq<int>, d: int)
    ensures others == [] ==> SpacingOk(others, d)
    ensures others != [] && d == others[0] ==> !SpacingOk(others, d)
  {
    others == [] ||
    (d < others[0] && forall t | t in others && d < t :: t - d >= SPACING) ||
    (others[0] < d && forall t | t in others && t < d :: d - t >= SPACING)
  }

  /**
   * The scan loop of dredge.py:79-86 over the other ring's obstacles,
   * returning the final `min_greater` and `max_less`.
   */
  method ScanOtherRing(others: seq<Obstacle>, d: int) returns (minGreater: int, maxLess: int)
    ensures ScanResult(ThetasOf(others), d, minGreater, maxLess)
  {
    if others == [] {
      return SENTINEL, SENTINEL;
    }
    ghost var ts := ThetasOf(others);
    var first := others[0].theta;
    minGreater, maxLess := first, first;
    for i := 0 to |others|
      invariant minGreater <= first && first <= maxLess
      invariant minGreater == first || (d < minGreater && minGreater in ts[..i])
      invariant maxLess == first || (maxLess < d && maxLess in ts[..i])
      invariant forall k :: 0 <= k < i && d < ts[k] ==> minGreater <= ts[k]
      invariant forall k :: 0 <= k < i && ts[k] < d ==> ts[k] <= maxLess
    {
      var theta := others[i].theta;
      if theta > d && theta < minGreater {
        minGreater := theta;
      }
      if theta < d && theta > maxLess {
        maxLess := theta;
      }
    }
    assert ts[..|others|] == ts;
    assert first == ts[0] && first in ts;
  }

  /**
   * The refusal test of dredge.py:88 applied to the scan's bounds decides
   * exactly `SpacingOk`, for every angle the random draw can produce.
   */
  lemma SpacingDecision(ts: seq<int>, d: int, minGreater: int, maxLess: int)
    requires 0 <= d <= 359
    requires ScanResult(ts, d, minGreater, maxLess)
    ensures !(minGreater - d < SPACING && d - maxLess < SPACING) <==> SpacingOk(ts, d)
  {
    if ts != [] && d < ts[0] {
      if minGreater - d >= SPACING {
        forall t | t in ts && d < t ensures t - d >= SPACING {
        }
      } else {
        assert minGreater in ts && d < minGreater;
      }
    } else if ts != [] && ts[0] < d {
      if d - maxLess >= SPACING {
        forall t | t in ts && t < d ensures d - t >= SPACING {
        }
      } else {
        assert maxLess in ts && maxLess < d;
      }
    }
  }

  /**
   * A candidate that passes has, on at least one side, no other-ring angle
   * closer than SPACING, and it never sits on the other ring's first angle.
   */
  lemma SpacingOkOneSideClear(others: seq<int>, d: int)
    requires SpacingOk(others, d)
    ensures others != [] ==> d != others[0]
    ensures (forall t | t in others && d < t :: t - d >= SPACING) ||
            (forall t | t in others && t < d :: d - t >= SPACING)
  {
  }

  /**
   * The check never refuses a candidate that is at least SPACING away from
   * every other-ring angle.
   */
  lemma SpacingFarAccepted(others: seq<int>, d: int)
    requires forall t | t in others :: t - d >= SPACING || d - t >= SPACING
    ensures SpacingOk(others, d)
  {
    if others != [] {
      assert others[0] in others;
    }
  }

  /**
   * Only the side of the first other-ring angle is looked at: with the other
   * ring at [200, 100], a candidate at 190 is refused (10 degrees below 200)
   * although its gap to 100 below it is 90 degrees.
   */
  lemma FirstSideOnly()
    ensures !SpacingOk([200, 100], 190)
    ensures 190 - 100 >= SPACING
  {
    assert 200 in [200, 100];
  }

  /**
   * A candidate may sit 10 degrees from an other-ring angle, or exactly on
   * one, when that angle is on the side opposite to the first one.
   */
  lemma OppositeSideUnchecked()
    ensures SpacingOk([100, 200], 190) && 200 - 190 < SPACING
    ensures SpacingOk([100, 150], 150)
  {
  }

  // ---------------------------------------------------------------------
  // The sampler as a function of the draws (dredge.py:63-95)
  // ---------------------------------------------------------------------

  /** One candidate: `d` from randint(0, 359), `r` from randint(0, 1) (dredge.py:71-72). */
  datatype Draw = Draw(d: int, r: int)

  predicate ValidDraw(x: Draw)
  {
    0 <= x.d <= 359 && 0 <= x.r <= 1
  }

  predicate ValidDraws(draws: seq<Draw>)
  {
    forall i | 0 <= i < |draws| :: ValidDraw(draws[i])
  }

  /**
   * The angles accepted into list r, in insertion order, given the accepted
   * draws of both lists interleaved in the order they were accepted.
   */
  function OnRing(placed: seq<Draw>, r: int): (ts: seq<int>)
    ensures |ts| <= |placed|
  {
    if placed == [] then []
    else
      var last := placed[|placed| - 1];
      OnRing(placed[..|placed| - 1], r) + (if last.r == r then [last.d] else [])
  }

  /** The start-zone refusal of dredge.py:73: list 0 (ring 1) above 280 degrees. */
  predicate TooCloseToStart(x: Draw)
  {
    x.r == 0 && x.d > 360 - SPACE_BEFORE_FIRST
  }

  /** Whether a candidate is accepted, given what has been placed so far. */
  predicate Admits(placed: seq<Draw>, x: Draw)
    ensures Admits(placed, x) && x.r == 0 ==> x.d <= 360 - SPACE_BEFORE_FIRST
    ensures Admits(placed, x) && OnRing(placed, 1 - x.r) != [] ==> x.d != OnRing(placed, 1 - x.r)[0]
    ensures !TooCloseToStart(x) && OnRing(placed, 1 - x.r) == [] ==> Admits(placed, x)
  {
    !TooCloseToStart(x) && SpacingOk(OnRing(placed, 1 - x.r), x.d)
  }

  /** One iteration of the sampler's loop: append the candidate if it is accepted. */
  function Step(placed: seq<Draw>, x: Draw): (p: seq<Draw>)
    ensures placed <= p && |p| <= |placed| + 1
    ensures |p| == |placed| + 1 <==> Admits(placed, x)
    ensures |p| == |placed| + 1 ==> p[|placed|] == x
  {
    if Admits(placed, x) then placed + [x] else placed
  }

  /** How a generation ends: NUM placements and the draws left over, or the draws ran out. */
  datatype Generation = Generated(placed: seq<Draw>, rest: seq<Draw>) | OutOfDraws

  /**
   * The sampler's loop from a partial placement: consume draws one at a time
   * until NUM candidates have been accepted.
   */
  function Generate(placed: seq<Draw>, draws: seq<Draw>): (g: Generation)
    requires |placed| <= NUM
    ensures g.Generated? ==> |g.placed| == NUM && g.placed[..|placed|] == placed
    ensures g.Generated? ==> |g.rest| + NUM - |placed| <= |draws| && g.rest == draws[|draws| - |g.rest|..]
    decreases |draws|
  {
    if |placed| == NUM then Generated(placed, draws)
    else if draws == [] then OutOfDraws
    else Generate(Step(placed, draws[0]), draws[1..])
  }

  /**
   * What every accepted candidate satisfied when it was accepted: a valid
   * draw, outside the start zone, and spaced from the other ring as it was
   * at that moment. Same-ring obstacles play no part.
   */
  predicate WellPlaced(placed: seq<Draw>)
  {
    forall i | 0 <= i < |placed| :: ValidDraw(placed[i]) && Admits(placed[..i], placed[i])
  }

  lemma {:induction false} StepKeepsWellPlaced(placed: seq<Draw>, x: Draw)
    requires WellPlaced(placed) && ValidDraw(x)
    ensures WellPlaced(Step(placed, x))
  {
    if Admits(placed, x) {
      var p := placed + [x];
      forall i | 0 <= i < |p| ensures ValidDraw(p[i]) && Admits(p[..i], p[i]) {
        if i < |placed| {
          assert p[..i] == placed[..i];
        } else {
          assert p[..i] == placed;
        }
      }
    }
  }

  /** Every generation that completes yields NUM well-placed candidates. */
  lemma {:induction false} GenerateWellPlaced(placed: seq<Draw>, draws: seq<Draw>)
    requires |placed| <= NUM && WellPlaced(placed) && ValidDraws(draws)
    ensures Generate(placed, draws).Generated? ==> WellPlaced(Generate(placed, draws).placed)
    decreases |draws|
  {
    if |placed| < NUM && draws != [] {
      StepKeepsWellPlaced(placed, draws[0]);
      GenerateWellPlaced(Step(placed, draws[0]), draws[1..]);
    }
  }

  /**
   * Every accepted angle is in [0, 359], every ring-1 angle is at most 280,
   * and the two lists together hold every placement.
   */
  lemma {:induction false} WellPlacedRings(placed: seq<Draw>)
    requires WellPlaced(placed)
    ensures |OnRing(placed, 0)| + |OnRing(placed, 1)| == |placed|
    ensures forall t | t in OnRing(placed, 0) :: 0 <= t <= 360 - SPACE_BEFORE_FIRST
    ensures forall t | t in OnRing(placed, 1) :: 0 <= t <= 359
  {
    if placed != [] {
      var init := placed[..|placed| - 1];
      assert WellPlaced(init) by {
        forall i | 0 <= i < |init| ensures ValidDraw(init[i]) && Admits(init[..i], init[i]) {
          assert init[..i] == placed[..i];
        }
      }
      WellPlacedRings(init);
      assert ValidDraw(placed[|placed| - 1]) && Admits(placed[..|placed| - 1], placed[|placed| - 1]);
    }
  }

  /** Appending a list-r obstacle leaves the other list unchanged (same-ring obstacles are never compared). */
  lemma SameRingIgnored(placed: seq<Draw>, y: Draw, x: Draw)
    requires y.r == x.r
    ensures OnRing(placed + [y], 1 - x.r) == OnRing(placed, 1 - x.r)
    ensures Admits(placed + [y], x) == Admits(placed, x)
  {
    assert (placed + [y])[..|placed|] == placed;
  }

  /**
   * The list the generator returns, against the accepted draws: every ring-2
   * obstacle in insertion order, then every ring-1 obstacle in insertion
   * order, all with speed 1.
   */
  predicate Arranged(obs: seq<Obstacle>, placed: seq<Draw>)
    reads obs
  {
    ThetasOf(obs) == OnRing(placed, 1) + OnRing(placed, 0) &&
    forall i | 0 <= i < |obs| ::
      obs[i].speed == 1 && obs[i].ring == (if i < |OnRing(placed, 1)| then 2 else 1)
  }

  /** One more turn of the sampler's loop consumes exactly one draw. */
  lemma GenerateUnroll(placed: seq<Draw>, draws: seq<Draw>, i: nat)
    requires |placed| < NUM && i < |draws|
    ensures Generate(placed, draws[i..]) == Generate(Step(placed, draws[i]), draws[i + 1..])
  {
    assert draws[i..][1..] == draws[i + 1..];
  }

  /**
   * The two refusal tests of `generate_obstacles` for one candidate
   * (dredge.py:73-89): the start zone, then the spacing against the other
   * ring's list.
   */
  method CandidateAccepted(rings0: seq<Obstacle>, rings1: seq<Obstacle>, ghost placed: seq<Draw>, x: Draw)
    returns (accepted: bool)
    requires ValidDraw(x)
    requires ThetasOf(rings0) == OnRing(placed, 0) && ThetasOf(rings1) == OnRing(placed, 1)
    ensures accepted == Admits(placed, x)
  {
    var d, r := x.d, x.r;
    if r == 0 && d > 360 - SPACE_BEFORE_FIRST {
      return false;
    }
    var other := rings0;
    if r == 0 {
      other := rings1;
    }
    assert ThetasOf(other) == OnRing(placed, 1 - r);
    var minGreater, maxLess := ScanOtherRing(other, d);
    SpacingDecision(ThetasOf(other), d, minGreater, maxLess);
    accepted := !(minGreater - d < SPACING && d - maxLess < SPACING);
  }

  /** Accepting a candidate extends its own list by its angle and leaves the other list alone. */
  lemma OnRingAppend(placed: seq<Draw>, x: Draw, r: int)
    ensures OnRing(placed + [x], r) == OnRing(placed, r) + (if x.r == r then [x.d] else [])
  {
    assert (placed + [x])[..|placed|] == placed;
  }

  /**
   * The two lists of obstacles hold, in order, the angles `placed` puts on
   * each list, with the list's ring and speed 1, and no obstacle twice.
   */
  predicate Tracks(rings0: seq<Obstacle>, rings1: seq<Obstacle>, placed: seq<Draw>)
    reads rings0, rings1
  {
    |rings0| + |rings1| == |placed| &&
    ThetasOf(rings0) == OnRing(placed, 0) && ThetasOf(rings1) == OnRing(placed, 1) &&
    (forall o | o in rings0 :: o.ring == 1 && o.speed == 1) &&
    (forall o | o in rings1 :: o.ring == 2 && o.speed == 1) &&
    Distinct(rings0) && Distinct(rings1)
  }

  /**
   * One candidate of `generate_obstacles` (dredge.py:71-91): when it is
   * accepted, a new obstacle for it is appended to its ring's list.
   */
  method PlaceCandidate(rings0: seq<Obstacle>, rings1: seq<Obstacle>, ghost placed: seq<Draw>, x: Draw)
    returns (next0: seq<Obstacle>, next1: seq<Obstacle>)
    requires ValidDraw(x)
    requires Tracks(rings0, rings1, placed)
    ensures Tracks(next0, next1, Step(placed, x))
    ensures forall o | o in next0 :: o in rings0 || fresh(o)
    ensures forall o | o in next1 :: o in rings1 || fresh(o)
  {
    var accepted := CandidateAccepted(rings0, rings1, placed, x);
    if !accepted {
      return rings0, rings1;
    }
    var ob := new Obstacle(x.d, x.r + 1, 1);
    TracksAppend(rings0, rings1, placed, x, ob);
    if x.r == 0 {
      next0, next1 := rings0 + [ob], rings1;
    } else {
      next0, next1 := rings0, rings1 + [ob];
    }
  }

  /** Appending the obstacle of an accepted candidate to its own list keeps the lists in step. */
  lemma TracksAppend(rings0: seq<Obstacle>, rings1: seq<Obstacle>, placed: seq<Draw>, x: Draw, ob: Obstacle)
    requires Tracks(rings0, rings1, placed)
    requires ValidDraw(x) && Admits(placed, x)
    requires ob !in rings0 && ob !in rings1
    requires ob.theta == x.d && ob.ring == x.r + 1 && ob.speed == 1
    ensures x.r == 0 ==> Tracks(rings0 + [ob], rings1, Step(placed, x))
    ensures x.r == 1 ==> Tracks(rings0, rings1 + [ob], Step(placed, x))
  {
    var next := placed + [x];
    assert Step(placed, x) == next;
    OnRingAppend(placed, x, 0);
    OnRingAppend(placed, x, 1);
    if x.r == 0 {
      assert ThetasOf(rings0 + [ob]) == ThetasOf(rings0) + [x.d];
      assert Tracks(rings0 + [ob], rings1, next);
    } else {
      assert ThetasOf(rings1 + [ob]) == ThetasOf(rings1) + [x.d];
      assert Tracks(rings0, rings1 + [ob], next);
    }
  }

  /** Lists whose obstacles lie on different rings cannot share an obstacle. */
  lemma DistinctAcrossRings(front: seq<Obstacle>, back: seq<Obstacle>)
    requires Distinct(front) && Distinct(back)
    requires forall o | o in front :: o.ring == 2
    requires forall o | o in back :: o.ring == 1
    ensures Distinct(front + back)
  {
    var all := front + back;
    forall i, j | 0 <= i < j < |all| ensures all[i] != all[j] {
      if i < |front| && |front| <= j {
        assert all[i] in front && all[j] in back;
      }
    }
  }

  /**
   * The sampler's loop (dredge.py:70-91) fed from `draws`. The source loops
   * until NUM obstacles are placed; with a finite supply, `ok` is false when
   * the draws run out first. `used` counts the draws consumed.
   */
  method FillRings(draws: seq<Draw>) returns (rings0: seq<Obstacle>, rings1: seq<Obstacle>, used: nat, ok: bool)
    requires ValidDraws(draws)
    ensures ok == Generate([], draws).Generated?
    ensures ok ==> used <= |draws| && Generate([], draws).rest == draws[used..]
    ensures ok ==> Tracks(rings0, rings1, Generate([], draws).placed)
    ensures Distinct(rings0) && Distinct(rings1)
    ensures forall o | o in rings0 :: o.ring == 1 && fresh(o)
    ensures forall o | o in rings1 :: o.ring == 2 && fresh(o)
  {
    rings0, rings1 := [], [];
    ghost var placed: seq<Draw> := [];
    used := 0;
    while |rings0| + |rings1| < NUM
      invariant used <= |draws|
      invariant |placed| <= NUM
      invariant Generate(placed, draws[used..]) == Generate([], draws)
      invariant Tracks(rings0, rings1, placed)
      invariant forall o | o in rings0 :: fresh(o)
      invariant forall o | o in rings1 :: fresh(o)
      decreases |draws| - used
    {
      if used == |draws| {
        // randint would go on drawing; the supplied draws are used up
        return rings0, rings1, used, false;
      }
      GenerateUnroll(placed, draws, used);
      rings0, rings1 := PlaceCandidate(rings0, rings1, placed, draws[used]);
      placed := Step(placed, draws[used]);
      used := used + 1;
    }
    ok := true;
  }

  /**
   * `generate_obstacles` fed from `draws` (dredge.py:63-95): fill both lists,
   * then return the ring-2 list extended by the ring-1 list. On success
   * `rest` is what is left of the supply.
   */
  method GenerateObstacles(draws: seq<Draw>) returns (obs: seq<Obstacle>, rest: seq<Draw>, ok: bool)
    requires ValidDraws(draws)
    ensures ok == Generate([], draws).Generated?
    ensures ok ==> rest == Generate([], draws).rest && Arranged(obs, Generate([], draws).placed)
    ensures ok ==> |obs| == NUM
    ensures Distinct(obs) && forall o | o in obs :: fresh(o)
  {
    var rings0, rings1, used;
    rings0, rings1, used, ok := FillRings(draws);
    obs := rings1 + rings0;
    rest := if ok then draws[used..] else [];
    DistinctAcrossRings(rings1, rings0);
    if ok {
      ArrangedFromRings(rings0, rings1, Generate([], draws).placed);
    }
  }

  /** The concatenated lists are the arrangement `Arranged` describes. */
  lemma ArrangedFromRings(rings0: seq<Obstacle>, rings1: seq<Obstacle>, placed: seq<Draw>)
    requires ThetasOf(rings0) == OnRing(placed, 0) && ThetasOf(rings1) == OnRing(placed, 1)
    requires forall o | o in rings0 :: o.ring == 1 && o.speed == 1
    requires forall o | o in rings1 :: o.ring == 2 && o.speed == 1
    ensures Arranged(rings1 + rings0, placed)
  {
    var obs := rings1 + rings0;
    assert ThetasOf(obs) == ThetasOf(rings1) + ThetasOf(rings0);
    forall i | 0 <= i < |obs|
      ensures obs[i].speed == 1 && obs[i].ring == (if i < |OnRing(placed, 1)| then 2 else 1)
    {
      if i < |rings1| {
        assert obs[i] in rings1;
      } else {
        assert obs[i] == rings0[i - |rings1|] && obs[i] in rings0;
      }
    }
  }
}
