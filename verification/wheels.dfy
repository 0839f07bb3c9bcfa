/**
 * The wheel: the obstacle list with its ring-balance retry, the two ring
 * templates, and the per-tick rotation.
 */
module Wheels {
  import opened Layout
  import opened Geometry
  import opened Obstacles

  datatype Option<T> = None | Some(value: T)

  /** 0.3 < k / n < 0.7, by cross-multiplication (dredge.py:118). */
  predicate RatioInRange(k: int, n: int)
  {
    3 * n < 10 * k < 7 * n
  }

  /** Over nine obstacles the ratio test admits exactly 3 to 6 of them on ring 1. */
  lemma RatioOfNine(k: int)
    ensures RatioInRange(k, NUM) <==> 3 <= k <= 6
  {
  }

  /** The number of ring-1 obstacles in a list (dredge.py:120). */
  function RingOneCount(obs: seq<Obstacle>): (k: nat)
    ensures k <= |obs|
  {
    if obs == [] then 0
    else RingOneCount(obs[..|obs| - 1]) + (if obs[|obs| - 1].ring == 1 then 1 else 0)
  }

  /**
   * In a list whose first m obstacles are on ring 2 and the others on
   * ring 1, the ring-1 count is the length of the second part.
   */
  lemma {:induction false} RingOneCountSplit(obs: seq<Obstacle>, m: nat)
    requires m <= |obs|
    requires forall i | 0 <= i < |obs| :: obs[i].ring == (if i < m then 2 else 1)
    ensures RingOneCount(obs) == |obs| - m
  {
    if |obs| > 0 {
      var init := obs[..|obs| - 1];
      if m == |obs| {
        RingOneCountSplit(init, m - 1);
      } else {
        RingOneCountSplit(init, m);
      }
    }
  }

  /** The generated list has as many ring-1 obstacles as list 0 of the sampler holds. */
  lemma ArrangedRingOneCount(obs: seq<Obstacle>, placed: seq<Draw>)
    requires Arranged(obs, placed)
    ensures |obs| == |OnRing(placed, 1)| + |OnRing(placed, 0)|
    ensures RingOneCount(obs) == |OnRing(placed, 0)|
  {
    assert |obs| == |ThetasOf(obs)|;
    RingOneCountSplit(obs, |OnRing(placed, 1)|);
  }

  /** Every obstacle of an arrangement is on ring 1 or 2 and has speed 1. */
  lemma ArrangedRings(obs: seq<Obstacle>, placed: seq<Draw>)
    requires Arranged(obs, placed)
    ensures forall o | o in obs :: (o.ring == 1 || o.ring == 2) && o.speed == 1
  {
    forall o | o in obs ensures (o.ring == 1 || o.ring == 2) && o.speed == 1 {
      var i :| 0 <= i < |obs| && obs[i] == o;
    }
  }

  /** The ratio test of dredge.py:118-120 applied to the accepted draws. */
  predicate Balanced(placed: seq<Draw>)
  {
    RatioInRange(|OnRing(placed, 0)|, |placed|)
  }

  /**
   * The constructor's retry loop as a function of the draws: generate from
   * scratch until the ring-1 ratio is in range. None when the draws run out.
   */
  function Retry(draws: seq<Draw>): (o: Option<seq<Draw>>)
    ensures o.Some? ==> |o.value| == NUM && Balanced(o.value)
    decreases |draws|
  {
    match Generate([], draws)
    case OutOfDraws => None
    case Generated(placed, rest) => if Balanced(placed) then Some(placed) else Retry(rest)
  }

  /** A suffix of valid draws is valid. */
  lemma ValidDrawsSuffix(draws: seq<Draw>, k: nat)
    requires ValidDraws(draws) && k <= |draws|
    ensures ValidDraws(draws[k..])
  {
    forall i | 0 <= i < |draws[k..]| ensures ValidDraw(draws[k..][i]) {
      assert draws[k..][i] == draws[k + i];
    }
  }

  /**
   * One turn of the retry loop, from draws that let the loop finish: the
   * generation completes, and the returned list's ratio test is the ratio
   * test on its placements.
   */
  lemma RetryTurn(supply: seq<Draw>, obs: seq<Obstacle>) returns (placed: seq<Draw>)
    requires ValidDraws(supply) && Retry(supply).Some?
    requires Generate([], supply).Generated? ==> Arranged(obs, Generate([], supply).placed)
    ensures Generate([], supply).Generated? && placed == Generate([], supply).placed
    ensures |obs| == NUM && (RatioInRange(RingOneCount(obs), |obs|) <==> Balanced(placed))
  {
    placed := Generate([], supply).placed;
    GenerateWellPlaced([], supply);
    WellPlacedRings(placed);
    ArrangedRingOneCount(obs, placed);
  }

  /** An unbalanced generation sends the retry loop on to the draws left over. */
  lemma RetryAgain(supply: seq<Draw>)
    requires ValidDraws(supply) && Generate([], supply).Generated?
    requires !Balanced(Generate([], supply).placed)
    ensures Retry(supply) == Retry(Generate([], supply).rest)
    ensures ValidDraws(Generate([], supply).rest)
  {
    var rest := Generate([], supply).rest;
    ValidDrawsSuffix(supply, |supply| - |rest|);
  }

  /**
   * What the retry loop accepts is a well-placed generation of NUM
   * obstacles with 3 to 6 of them on ring 1.
   */
  lemma {:induction false} RetryAccepts(draws: seq<Draw>)
    requires ValidDraws(draws) && Retry(draws).Some?
    ensures |Retry(draws).value| == NUM
    ensures WellPlaced(Retry(draws).value)
    ensures Balanced(Retry(draws).value)
    ensures 3 <= |OnRing(Retry(draws).value, 0)| <= 6
    decreases |draws|
  {
    var g := Generate([], draws);
    if !Balanced(g.placed) {
      assert Retry(draws) == Retry(g.rest);
      ValidDrawsSuffix(draws, |draws| - |g.rest|);
      RetryAccepts(g.rest);
    } else {
      assert Retry(draws).value == g.placed;
      GenerateWellPlaced([], draws);
      RatioOfNine(|OnRing(g.placed, 0)|);
    }
  }

  /**
   * The obstacles the retry loop accepts have angles in [0, 359], and those
   * on ring 1 stay out of the start zone above 280 degrees.
   */
  lemma RetryAngles(draws: seq<Draw>, obs: seq<Obstacle>)
    requires ValidDraws(draws) && Retry(draws).Some?
    requires Arranged(obs, Retry(draws).value)
    ensures forall i | 0 <= i < |obs| :: 0 <= obs[i].theta <= 359
    ensures forall i | 0 <= i < |obs| && obs[i].ring == 1 :: obs[i].theta <= 360 - SPACE_BEFORE_FIRST
  {
    var placed := Retry(draws).value;
    RetryAccepts(draws);
    WellPlacedRings(placed);
    var ring2, ring1 := OnRing(placed, 1), OnRing(placed, 0);
    forall i | 0 <= i < |obs|
      ensures 0 <= obs[i].theta <= 359
      ensures obs[i].ring == 1 ==> obs[i].theta <= 360 - SPACE_BEFORE_FIRST
    {
      assert obs[i].theta == (ring2 + ring1)[i];
      if i < |ring2| {
        assert ring2[i] in ring2;
      } else {
        assert ring1[i - |ring2|] in ring1;
      }
    }
  }

  /** Nine distinct obstacles, each on ring 1 or 2 with speed 1, and the ring-1 ratio in range. */
  predicate WheelObstacles(obs: seq<Obstacle>)
  {
    |obs| == NUM && Distinct(obs) &&
    (forall o | o in obs :: (o.ring == 1 || o.ring == 2) && o.speed == 1) &&
    RatioInRange(RingOneCount(obs), |obs|)
  }

  class Wheel {
    var obstacles: seq<Obstacle>
    const size: int
    const distFromEdge: int
    const boxRadius: int
    /** The corner templates of ring 1 and ring 2, by ring number. */
    const rings: map<int, PointSet>

    ghost predicate Valid()
      reads this
    {
      WheelObstacles(obstacles)
    }

    /** The template square: side 2 * box radius, centred size - dist_from_edge above the origin (dredge.py:126-128). */
    static function TemplateBox(size: int, distFromEdge: int, boxRadius: int): (b: Rect)
      ensures b.w == 2 * boxRadius && b.h == 2 * boxRadius
      ensures b.x + boxRadius == 0 && b.y + boxRadius == -size + distFromEdge
    {
      Rect(0, 0, 2 * boxRadius, 2 * boxRadius).Moved(-boxRadius, -boxRadius).Moved(0, -size + distFromEdge)
    }

    /**
     * The retry loop of `Wheel.__init__` (dredge.py:116-120): generate until
     * the ring-1 ratio is strictly between 0.3 and 0.7. The source retries
     * without bound; the model requires the supplied draws to be enough for
     * the loop to finish.
     */
    static method GenerateBalanced(draws: seq<Draw>) returns (obs: seq<Obstacle>)
      requires ValidDraws(draws) && Retry(draws).Some?
      ensures Arranged(obs, Retry(draws).value)
      ensures WheelObstacles(obs) && 3 <= RingOneCount(obs) <= 6
      ensures forall o | o in obs :: fresh(o)
    {
      var supply := draws;
      var rest, ok;
      obs, rest, ok := GenerateObstacles(supply);
      ghost var placed := RetryTurn(supply, obs);
      while !RatioInRange(RingOneCount(obs), |obs|)
        invariant ValidDraws(supply) && Retry(supply) == Retry(draws)
        invariant Generate([], supply) == Generated(placed, rest)
        invariant Arranged(obs, placed) && |obs| == NUM
        invariant RatioInRange(RingOneCount(obs), |obs|) <==> Balanced(placed)
        invariant Distinct(obs) && forall o | o in obs :: fresh(o)
        decreases |supply|
      {
        RetryAgain(supply);
        supply := rest;
        obs, rest, ok := GenerateObstacles(supply);
        placed := RetryTurn(supply, obs);
      }
      RatioOfNine(RingOneCount(obs));
      ArrangedRings(obs, placed);
    }

    /**
     * The ring templates (dredge.py:126-133): the corners of the template
     * square for ring 1, and a copy of them moved outwards by RING_SEP for
     * ring 2.
     */
    static method RingTemplates(box: Rect) returns (points1: PointSet, points2: PointSet)
      ensures fresh(points1) && fresh(points1.points) && fresh(points2) && fresh(points2.points)
      ensures points1.points != points2.points
      ensures points1.points[..] == box.Corners()
      ensures points2.points[..] == Translated(points1.points[..], 0, RING_SEP)
    {
      points1 := new PointSet(box.Corners());
      points2 := points1.Copy();
      points2 := points2.Move(0, RING_SEP);
    }

    /** `Wheel.__init__` fed from `draws` (dredge.py:110-133). */
    constructor (draws: seq<Draw>)
      requires ValidDraws(draws) && Retry(draws).Some?
      ensures Valid()
      ensures Arranged(obstacles, Retry(draws).value)
      ensures 3 <= RingOneCount(obstacles) <= 6
      ensures forall o | o in obstacles :: fresh(o)
      ensures size == 250 && distFromEdge == 20 && boxRadius == 10
      ensures rings.Keys == {1, 2}
      ensures fresh(rings[1]) && fresh(rings[1].points) && fresh(rings[2]) && fresh(rings[2].points)
      ensures rings[1].points != rings[2].points
      ensures rings[1].points[..] == TemplateBox(size, distFromEdge, boxRadius).Corners()
      ensures rings[2].points[..] == Translated(rings[1].points[..], 0, RING_SEP)
    {
      var obs := GenerateBalanced(draws);
      var points1, points2 := RingTemplates(TemplateBox(250, 20, 10));
      obstacles := obs;
      size, distFromEdge, boxRadius := 250, 20, 10;
      rings := map[1 := points1, 2 := points2];
    }

    /** Advances every obstacle's angle by its speed; nothing else changes (dredge.py:135-137). */
    method Rotate()
      requires Valid()
      modifies obstacles
      ensures Valid()
      ensures forall i :: 0 <= i < |obstacles| ==> obstacles[i].theta == old(obstacles[i].theta) + obstacles[i].speed
    {
      for i := 0 to |obstacles|
        invariant forall k :: 0 <= k < i ==> obstacles[k].theta == old(obstacles[k].theta) + obstacles[k].speed
        invariant forall k :: i <= k < |obstacles| ==> obstacles[k].theta == old(obstacles[k].theta)
      {
        var ob := obstacles[i];
        ob.theta := ob.theta + ob.speed;
      }
    }
  }
}
