/**
 * The state-changing part of the game loop: one tick (dredge.py:231-255)
 * and a round of ticks (dredge.py:230-259), with the drawing, the clock and
 * the collision test left to the caller: the events of each tick and
 * whether the player's box hit an obstacle are inputs.
 */
module Game {
  import opened Obstacles
  import opened Wheels
  import opened Players
  import opened Progress

  import opened Layout

  /** Ticks of flawless play needed to win: two full turns of the wheel (dredge.py:226). */
  const WIN_TICKS: int := 360 * 2

  /**
   * The set-up of `main` (dredge.py:216-227): a wheel from the draws, the
   * player on ring 1 at the wheel's edge, and an empty progress bar left of
   * the wheel that needs WIN_TICKS ticks.
   */
  method StartRound(draws: seq<Draw>) returns (wheel: Wheel, player: Player, bar: ProgressBar)
    requires ValidDraws(draws) && Retry(draws).Some?
    ensures fresh(wheel) && fresh(player) && fresh(bar)
    ensures wheel.Valid() && 3 <= RingOneCount(wheel.obstacles) <= 6
    ensures Arranged(wheel.obstacles, Retry(draws).value)
    ensures forall o | o in wheel.obstacles :: fresh(o)
    ensures wheel.size == 250 && wheel.distFromEdge == 20 && wheel.boxRadius == 10
    ensures player.Valid() && player.ring == 1 && player.box == HomeBox(wheel.boxRadius, wheel.size)
    ensures bar.progress == 0 && bar.total == WIN_TICKS
    ensures bar.x == CENTER_X - wheel.size - 60 && bar.y == CENTER_Y - wheel.size
    ensures bar.width == 30 && bar.height == 2 * wheel.size
  {
    wheel := new Wheel(draws);
    ghost var placed := Retry(draws).value;
    assert Arranged(wheel.obstacles, placed);
    player := new Player(wheel.boxRadius, wheel.size);
    bar := new ProgressBar(CENTER_X - wheel.size - 60, CENTER_Y - wheel.size, 30, 2 * wheel.size, WIN_TICKS);
  }

  /** An input event: the window's close request, a key press (space or another key), anything else. */
  datatype Event = Quit | KeyDown(space: bool) | Other

  /** What one tick receives from outside the core: its events and the outcome of the collision test. */
  datatype TickInput = TickInput(events: seq<Event>, hit: bool)

  /** The number of space-key presses among the events. */
  function SpacePresses(events: seq<Event>): (n: nat)
    ensures n <= |events|
  {
    if events == [] then 0
    else SpacePresses(events[..|events| - 1]) + (if events[|events| - 1] == KeyDown(true) then 1 else 0)
  }

  /** The number of space-key presses over a sequence of ticks. */
  function RoundPresses(inputs: seq<TickInput>): nat
  {
    if inputs == [] then 0
    else RoundPresses(inputs[..|inputs| - 1]) + SpacePresses(inputs[|inputs| - 1].events)
  }

  /**
   * The event loop of one tick (dredge.py:231-236): a close request stops
   * the game after this tick, each space press toggles the player's ring.
   */
  method HandleEvents(player: Player, events: seq<Event>) returns (running: bool)
    modifies player
    ensures Pose(player.ring, player.box) == ToggledTimes(old(Pose(player.ring, player.box)), SpacePresses(events))
    ensures old(player.Valid()) ==> player.Valid()
    ensures running <==> Quit !in events
  {
    running := true;
    for i := 0 to |events|
      invariant Pose(player.ring, player.box) == ToggledTimes(old(Pose(player.ring, player.box)), SpacePresses(events[..i]))
      invariant old(player.Valid()) ==> player.Valid()
      invariant running <==> Quit !in events[..i]
    {
      assert events[..i + 1][..i] == events[..i];
      match events[i]
      case Quit =>
        running := false;
      case KeyDown(space) =>
        if space {
          player.Move();
        }
      case Other =>
    }
    assert events[..|events|] == events;
  }

  /**
   * One tick of the main loop: events (ring toggles), rotation, the progress
   * count and its win signal, then the reset on a hit. The win is read
   * before the reset, so a winning tick wins even when it is also a hit.
   */
  method Tick(wheel: Wheel, player: Player, bar: ProgressBar, input: TickInput) returns (running: bool, win: bool)
    requires wheel.Valid() && bar.total != 0
    modifies wheel.obstacles, player, bar`progress
    ensures wheel.Valid()
    ensures forall i :: 0 <= i < |wheel.obstacles| ==>
      wheel.obstacles[i].theta == old(wheel.obstacles[i].theta) + wheel.obstacles[i].speed
    ensures Pose(player.ring, player.box) == ToggledTimes(old(Pose(player.ring, player.box)), SpacePresses(input.events))
    ensures old(player.Valid()) ==> player.Valid()
    ensures win <==> old(bar.progress) + 1 == bar.total
    ensures bar.progress == if input.hit then 0 else old(bar.progress) + 1
    ensures running <==> Quit !in input.events && !win
  {
    running := HandleEvents(player, input.events);
    wheel.Rotate();
    win := bar.Increase();
    if win {
      running := false;
    }
    if input.hit {
      bar.Reset();
    }
  }

  /** How a round ends: the ticks played, whether it was won, and the final count. */
  datatype RoundResult = RoundResult(ticks: nat, won: bool, progress: int)

  /**
   * The main loop on the progress count: play ticks until one wins or
   * receives a close request, or the inputs run out.
   */
  function Play(progress: int, total: int, inputs: seq<TickInput>): RoundResult
    decreases |inputs|
  {
    if inputs == [] then RoundResult(0, false, progress)
    else
      var win := progress + 1 == total;
      var next := if inputs[0].hit then 0 else progress + 1;
      if win || Quit in inputs[0].events then RoundResult(1, win, next)
      else
        var r := Play(next, total, inputs[1..]);
        RoundResult(r.ticks + 1, r.won, r.progress)
  }

  /**
   * A round plays at least one tick when there is one and never more than
   * there are; it stops before the inputs run out only after a tick that
   * wins or receives a close request, and no earlier tick received one.
   */
  lemma {:induction false} PlayStops(progress: int, total: int, inputs: seq<TickInput>)
    ensures Play(progress, total, inputs).ticks <= |inputs|
    ensures inputs != [] ==> 1 <= Play(progress, total, inputs).ticks
    ensures var r := Play(progress, total, inputs);
      0 < r.ticks < |inputs| ==> r.won || Quit in inputs[r.ticks - 1].events
    ensures forall i | 0 <= i < Play(progress, total, inputs).ticks - 1 :: Quit !in inputs[i].events
    decreases |inputs|
  {
    if inputs != [] {
      var next := if inputs[0].hit then 0 else progress + 1;
      if !(progress + 1 == total || Quit in inputs[0].events) {
        var rest := inputs[1..];
        PlayStops(next, total, rest);
        forall i | 0 <= i < Play(progress, total, inputs).ticks - 1 ensures Quit !in inputs[i].events {
          if i > 0 {
            assert inputs[i] == rest[i - 1];
          }
        }
      }
    }
  }

  /**
   * `main`'s loop (dredge.py:230-259) over a finite sequence of tick inputs:
   * it stops after a tick that wins or receives a close request.
   */
  method PlayRound(wheel: Wheel, player: Player, bar: ProgressBar, inputs: seq<TickInput>) returns (ticks: nat, won: bool)
    requires wheel.Valid() && bar.total != 0
    modifies wheel.obstacles, player, bar`progress
    ensures RoundResult(ticks, won, bar.progress) == Play(old(bar.progress), bar.total, inputs)
    ensures ticks <= |inputs|
    ensures wheel.Valid()
    ensures forall i :: 0 <= i < |wheel.obstacles| ==> wheel.obstacles[i].theta == old(wheel.obstacles[i].theta) + ticks
    ensures Pose(player.ring, player.box) == ToggledTimes(old(Pose(player.ring, player.box)), RoundPresses(inputs[..ticks]))
    ensures old(player.Valid()) ==> player.Valid()
  {
    var running := true;
    ticks, won := 0, false;
    ghost var start := Pose(player.ring, player.box);
    while running && ticks < |inputs|
      invariant ticks <= |inputs|
      invariant wheel.Valid()
      invariant forall i :: 0 <= i < |wheel.obstacles| ==> wheel.obstacles[i].theta == old(wheel.obstacles[i].theta) + ticks
      invariant Pose(player.ring, player.box) == ToggledTimes(start, RoundPresses(inputs[..ticks]))
      invariant old(player.Valid()) ==> player.Valid()
      invariant running ==> !won
      invariant running ==> Play(old(bar.progress), bar.total, inputs) == Later(ticks, Play(bar.progress, bar.total, inputs[ticks..]))
      invariant !running ==> Play(old(bar.progress), bar.total, inputs) == RoundResult(ticks, won, bar.progress)
      decreases |inputs| - ticks
    {
      PlayUnroll(bar.progress, bar.total, inputs, ticks);
      PressesAppend(start, Pose(player.ring, player.box), inputs, ticks);
      running, won := Tick(wheel, player, bar, inputs[ticks]);
      ticks := ticks + 1;
    }
  }

  /** The round from tick k on: tick k ends it, or the rest of the round follows it. */
  lemma PlayUnroll(progress: int, total: int, inputs: seq<TickInput>, k: nat)
    requires k < |inputs|
    ensures Play(progress, total, inputs[k..]) ==
      var win := progress + 1 == total;
      var next := if inputs[k].hit then 0 else progress + 1;
      if win || Quit in inputs[k].events then RoundResult(1, win, next)
      else Later(1, Play(next, total, inputs[k + 1..]))
  {
    assert inputs[k..][1..] == inputs[k + 1..];
  }

  /** The toggles of one more tick add to the toggles of the ticks before it. */
  lemma PressesAppend(p: Pose, q: Pose, inputs: seq<TickInput>, k: nat)
    requires k < |inputs| && q == ToggledTimes(p, RoundPresses(inputs[..k]))
    ensures ToggledTimes(q, SpacePresses(inputs[k].events)) == ToggledTimes(p, RoundPresses(inputs[..k + 1]))
  {
    assert inputs[..k + 1][..k] == inputs[..k];
    ToggledTimesAdd(p, RoundPresses(inputs[..k]), SpacePresses(inputs[k].events));
  }

  /** A result seen k ticks later. */
  function Later(k: nat, r: RoundResult): RoundResult
  {
    r.(ticks := r.ticks + k)
  }

  /** The hit outcomes of a sequence of ticks. */
  function Hits(inputs: seq<TickInput>): (hits: seq<bool>)
    ensures |hits| == |inputs|
    ensures forall i :: 0 <= i < |inputs| ==> hits[i] == inputs[i].hit
  {
    seq(|inputs|, i requires 0 <= i < |inputs| => inputs[i].hit)
  }

  /** The count after ticks with the given hit outcomes, none of which ended the round. */
  function Replay(progress: int, hits: seq<bool>): int
  {
    if hits == [] then progress
    else if hits[|hits| - 1] then 0
    else Replay(progress, hits[..|hits| - 1]) + 1
  }

  /** The number of hit-free ticks at the end of a sequence of hit outcomes. */
  function TrailingClear(hits: seq<bool>): (n: nat)
    ensures n <= |hits|
  {
    if hits == [] || hits[|hits| - 1] then 0
    else TrailingClear(hits[..|hits| - 1]) + 1
  }

  /**
   * The count is the number of flawless ticks since the last hit, or the
   * starting count plus the ticks played when there was no hit.
   */
  lemma {:induction false} ReplayCountsFlawlessTicks(progress: int, hits: seq<bool>)
    ensures Replay(progress, hits) == if true in hits then TrailingClear(hits) else progress + |hits|
  {
    if hits != [] {
      var init := hits[..|hits| - 1];
      assert hits == init + [hits[|hits| - 1]];
      ReplayCountsFlawlessTicks(progress, init);
    }
  }

  /** Replaying the first tick and then the rest is replaying them all. */
  lemma {:induction false} ReplayFirst(progress: int, h: bool, hits: seq<bool>)
    ensures Replay(progress, [h] + hits) == Replay(if h then 0 else progress + 1, hits)
  {
    if hits != [] {
      var init := hits[..|hits| - 1];
      assert ([h] + hits)[..|hits|] == [h] + init;
      ReplayFirst(progress, h, init);
    }
  }

  /**
   * A won round is won on its last tick, and only because the count before
   * that tick, the replay of all the earlier ticks, was total - 1.
   */
  lemma {:induction false} WonRound(progress: int, total: int, inputs: seq<TickInput>)
    requires Play(progress, total, inputs).won
    ensures 1 <= Play(progress, total, inputs).ticks <= |inputs|
    ensures Replay(progress, Hits(inputs[..Play(progress, total, inputs).ticks - 1])) + 1 == total
    decreases |inputs|
  {
    var r := Play(progress, total, inputs);
    if progress + 1 == total || Quit in inputs[0].events {
      assert inputs[..r.ticks - 1] == [];
    } else {
      var next := if inputs[0].hit then 0 else progress + 1;
      var rest := inputs[1..];
      WonRound(next, total, rest);
      var t := Play(next, total, rest).ticks;
      assert inputs[..r.ticks - 1] == [inputs[0]] + rest[..t - 1];
      assert Hits(inputs[..r.ticks - 1]) == [inputs[0].hit] + Hits(rest[..t - 1]);
      ReplayFirst(progress, inputs[0].hit, Hits(rest[..t - 1]));
    }
  }

  /**
   * From a count below the total, the round is won on the tick that brings
   * the count to the total, if no earlier tick is a hit or receives a close
   * request. That tick wins even if it is a hit or receives one.
   */
  lemma {:induction false} FlawlessRunWins(progress: int, total: int, inputs: seq<TickInput>)
    requires 0 <= progress < total
    requires total - progress <= |inputs|
    requires forall i | 0 <= i < total - progress - 1 :: Quit !in inputs[i].events
    requires forall i | 0 <= i < total - progress - 1 :: !inputs[i].hit
    ensures Play(progress, total, inputs).won
    ensures Play(progress, total, inputs).ticks == total - progress
    decreases total - progress
  {
    if progress + 1 < total {
      var rest := inputs[1..];
      assert Quit !in inputs[0].events && !inputs[0].hit;
      forall i | 0 <= i < total - (progress + 1) - 1 ensures Quit !in rest[i].events {
        assert rest[i] == inputs[i + 1];
      }
      forall i | 0 <= i < total - (progress + 1) - 1 ensures !rest[i].hit {
        assert rest[i] == inputs[i + 1];
      }
      FlawlessRunWins(progress + 1, total, rest);
    }
  }
}
