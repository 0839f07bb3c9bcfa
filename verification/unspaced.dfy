/**
 * A finished wheel whose rings are not 35 degrees apart. Each candidate of
 * `generate_obstacles` is compared only with the other ring's obstacles on
 * the side of that ring's first angle (dredge.py:77-89), so the sampler can
 * accept a ring-1 obstacle at 150 between ring-2 obstacles at 140 and 160.
 */
module Unspaced {
  import opened Obstacles
  import opened Wheels

  /** Nine draws, every one of which the sampler accepts. */
  const Draws: seq<Draw> := [
    Draw(300, 1), Draw(140, 1), Draw(250, 0), Draw(150, 0), Draw(160, 1),
    Draw(0, 0), Draw(10, 0), Draw(20, 1), Draw(30, 1)
  ]

  /** List 0 (ring 1) after the first k draws. */
  const Ring1After: seq<seq<int>> := [
    [], [], [], [250], [250, 150], [250, 150], [250, 150, 0],
    [250, 150, 0, 10], [250, 150, 0, 10], [250, 150, 0, 10]
  ]

  /** List 1 (ring 2) after the first k draws. */
  const Ring2After: seq<seq<int>> := [
    [], [300], [300, 140], [300, 140], [300, 140], [300, 140, 160],
    [300, 140, 160], [300, 140, 160], [300, 140, 160, 20], [300, 140, 160, 20, 30]
  ]

  /** Draw k extends its own list by its angle. */
  lemma PrefixStep(k: nat)
    requires k < |Draws|
    ensures OnRing(Draws[..k + 1], 0) == OnRing(Draws[..k], 0) + (if Draws[k].r == 0 then [Draws[k].d] else [])
    ensures OnRing(Draws[..k + 1], 1) == OnRing(Draws[..k], 1) + (if Draws[k].r == 1 then [Draws[k].d] else [])
  {
    assert Draws[..k + 1] == Draws[..k] + [Draws[k]];
    OnRingAppend(Draws[..k], Draws[k], 0);
    OnRingAppend(Draws[..k], Draws[k], 1);
  }

  /** The tables grow by draw k - 1 on its own list. */
  lemma TablesStep(k: nat)
    requires 0 < k <= |Draws|
    ensures Ring1After[k] == Ring1After[k - 1] + (if Draws[k - 1].r == 0 then [Draws[k - 1].d] else [])
    ensures Ring2After[k] == Ring2After[k - 1] + (if Draws[k - 1].r == 1 then [Draws[k - 1].d] else [])
  {
    if k == 1 {
    } else if k == 2 {
    } else if k == 3 {
    } else if k == 4 {
    } else if k == 5 {
    } else if k == 6 {
    } else if k == 7 {
    } else if k == 8 {
    } else {
    }
  }

  /** The two lists after the first k draws, when every one of them was accepted. */
  lemma {:induction false} ListsAfter(k: nat)
    requires k <= |Draws|
    ensures OnRing(Draws[..k], 0) == Ring1After[k]
    ensures OnRing(Draws[..k], 1) == Ring2After[k]
    decreases k
  {
    if k == 0 {
      assert Draws[..0] == [];
    } else {
      ListsAfter(k - 1);
      PrefixStep(k - 1);
      TablesStep(k);
    }
  }

  /** Every draw passes both refusal tests against the lists before it. */
  lemma AdmitsEach(k: nat)
    requires k < |Draws|
    ensures Admits(Draws[..k], Draws[k])
  {
    ListsAfter(k);
    if k < 3 {
    } else if k < 6 {
    } else {
    }
  }

  /** From any point on, the remaining draws complete the generation with all nine accepted. */
  lemma {:induction false} GenerateFrom(k: nat)
    requires k <= |Draws|
    ensures Generate(Draws[..k], Draws[k..]) == Generated(Draws, [])
    decreases |Draws| - k
  {
    if k == |Draws| {
      assert Draws[..k] == Draws;
    } else {
      AdmitsEach(k);
      assert Draws[..k] + [Draws[k]] == Draws[..k + 1];
      GenerateUnroll(Draws[..k], Draws, k);
      GenerateFrom(k + 1);
    }
  }

  /** Every draw is a valid pair of `randint` results. */
  lemma DrawsValid()
    ensures ValidDraws(Draws)
  {
    forall i | 0 <= i < |Draws| ensures ValidDraw(Draws[i]) {
      if i < 3 {
      } else if i < 6 {
      } else {
      }
    }
  }

  /** The sampler accepts all nine draws and uses no more. */
  lemma GeneratesDraws()
    ensures Generate([], Draws) == Generated(Draws, [])
  {
    GenerateFrom(0);
    assert Draws[..0] == [] && Draws[0..] == Draws;
  }

  /** The two lists of the finished generation. */
  lemma FinalLists()
    ensures OnRing(Draws, 0) == [250, 150, 0, 10]
    ensures OnRing(Draws, 1) == [300, 140, 160, 20, 30]
  {
    ListsAfter(|Draws|);
    assert Draws[..|Draws|] == Draws;
  }

  /** The retry loop keeps the first generation: 4 of its 9 obstacles are on ring 1. */
  lemma RetryKeepsDraws()
    ensures Retry(Draws) == Some(Draws)
  {
    GeneratesDraws();
    FinalLists();
    assert Balanced(Draws);
  }

  /**
   * The retry loop keeps these nine placements (4 on ring 1), yet the ring-1
   * obstacle at 150 (list 0) has ring-2 obstacles (list 1) 10 degrees away
   * on both sides, at 140 and 160.
   */
  lemma FinishedWheelUnspaced()
    ensures ValidDraws(Draws) && Retry(Draws) == Some(Draws)
    ensures OnRing(Draws, 0) == [250, 150, 0, 10]
    ensures OnRing(Draws, 1) == [300, 140, 160, 20, 30]
  {
    DrawsValid();
    RetryKeepsDraws();
    FinalLists();
  }
}
