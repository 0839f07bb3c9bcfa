# Dredge core, modelled in Dafny

Dredge is a small arcade game (`dredge.py`). A wheel carries nine obstacles
around two concentric rings. The player's box sits at the top of the wheel
and toggles between the rings with the space key. A progress bar counts
flawless ticks, resets to 0 on a collision, and the round is won when it
reaches two full turns of the wheel (720 ticks).

This project models the logic of that game that is not drawing:

- `Geometry` (`geometry.dfy`): integer points, pygame-style rectangles as
  values, and `PointSet`, an in-place buffer of points (an `array`) with the
  x/y getters and setters, `move` and `copy`.
- `Obstacles` (`obstacles.dfy`): the `Obstacle` class and
  `generate_obstacles`. This is the rejection sampler that places nine
  obstacles. The two `randint` calls per candidate are replaced by an input
  sequence of `Draw(d, r)` values. The sampler is specified by the recursive
  function `Generate` over the accepted draws (`placed`). The methods are
  proved equal to it, and the lemmas state what every accepted candidate
  satisfied.
- `Wheels` (`wheels.dfy`): the constructor's ratio retry loop (a ring-1
  share strictly between 0.3 and 0.7, checked as `3*n < 10*k < 7*n`), the
  two corner templates, and `rotate`.
- `Players` (`players.dfy`): the player's ring toggle.
- `Progress` (`progress.dfy`): the progress bar's counter and win signal.
- `Game` (`game.dfy`): the set-up of `main`, one tick of its loop, and a
  round of ticks. Each tick takes its events and the collision outcome
  (`hit`) as inputs.
- `Unspaced` (`unspaced.dfy`): a complete run of the sampler and the retry
  loop whose finished wheel has obstacles of the two rings 10° apart.

Naming: the sampler keeps two lists indexed by r in {0, 1}. A candidate
accepted into list r becomes an obstacle on ring r + 1. So list 0 is ring 1,
the ring the player starts on.

## How the spacing check really works

The spacing check (dredge.py:77-89) compares a candidate angle `d` only with
the obstacles already on the *other* ring. Same-ring obstacles are never
compared.

The natural reading of the check is "refuse when both neighbouring angles
are closer than 35°". The code does something else. Both `min_greater` and
`max_less` start at the other ring's *first* angle, and the 1000 sentinel is
used only when that ring is empty. The model follows the code. As a result:

- if the first angle is above `d`, `d` is accepted iff the nearest
  other-ring angle above `d` is at least 35° away (`max_less` stays at the
  first angle, so its gap is negative);
- if the first angle is below `d`, the same holds for the nearest angle below;
- if the first angle equals `d`, the candidate is refused.

`SpacingDecision` proves that this characterisation (`SpacingOk`) is exactly
what the code's test decides. `FirstSideOnly` and `OppositeSideUnchecked`
give concrete cases:

- other ring `[200, 100]` with `d = 190`: refused, although the gap to 100
  is 90°;
- other ring `[100, 200]` with `d = 190`: accepted, although 200 is only 10°
  away;
- other ring `[100, 150]` with `d = 150`: accepted, although 150 is already
  taken on the other ring.

In the other direction the check is never stricter than a real gap: a
candidate at least 35° from every other-ring angle is always accepted
(`SpacingFarAccepted`).

So the finished wheel does not guarantee a 35° gap between the obstacles of
the two rings. `FinishedWheelUnspaced` (`unspaced.dfy`) gives a whole run:
the nine draws (300, list 1), (140, 1), (250, 0), (150, 0), (160, 1), (0, 0),
(10, 0), (20, 1), (30, 1) are all accepted, and the retry loop keeps them
(4 on ring 1). Yet the ring-1 obstacle at 150 has ring-2 obstacles at 140 and
160, 10° away on both sides. 150 is checked against ring 2 = [300, 140],
whose first angle is above it, so only 300 counts. 160 is checked against
ring 1 = [250, 150], whose first angle is above it, so 150 is never looked at. The guarantee that does hold is `WellPlaced`: each obstacle
passed `SpacingOk` against the other ring as it was when the obstacle was
placed.

The comment at dredge.py:65 speaks of a 300° limit. The code refuses ring-1
candidates above `360 - 80 = 280`°, and the model follows the code.

## Model

| member | source | states |
|---|---|---|
| `Geometry.Rect.Moved` | dredge.py:126-128 | `move_ip` shifts a rectangle's corner by (dx, dy) and keeps its width and height |
| `Geometry.TranslatedInverse` | dredge.py:28-32 | moving by (dx, dy) and then by (-dx, -dy) restores every point |
| `Geometry.TranslatedCompose` | dredge.py:28-32 | two moves equal one move by the summed offset |
| `Geometry.TranslatedCoordinates` | dredge.py:28-32 | a move adds dx to every x, dy to every y, and keeps the number of points |
| `Geometry.PointSet.constructor` | dredge.py:7-8 | a new point set owns a fresh buffer holding the given points in order |
| `Geometry.PointSet.X` | dredge.py:10-12 | the x getter lists every point's x coordinate in order |
| `Geometry.PointSet.Y` | dredge.py:19-21 | the y getter lists every point's y coordinate in order |
| `Geometry.PointSet.SetX` | dredge.py:14-17 | after the x setter every point has that x; all y coordinates are unchanged |
| `Geometry.PointSet.SetY` | dredge.py:23-26 | after the y setter every point has that y; all x coordinates are unchanged |
| `Geometry.PointSet.Move` | dredge.py:28-32 | moves every point by (dx, dy) in place and returns the same object |
| `Geometry.PointSet.Copy` | dredge.py:39-40 | the copy is a new object with a new buffer and the same points, so later changes to either do not reach the other |
| `Obstacles.Obstacle.constructor` | dredge.py:46-49 | an obstacle starts with the given angle, ring and speed |
| `Obstacles.ScanOtherRing` | dredge.py:79-86 | empty other ring: both bounds 1000. Otherwise the bound on the first angle's side becomes the nearest other-ring angle on that side, and the other bound stays at the first angle. If the first angle equals `d`, both bounds equal `d` |
| `Obstacles.SpacingOk` | dredge.py:77-89 | the spacing check never refuses a candidate when the other ring is empty, and always refuses one that sits on the other ring's first angle |
| `Obstacles.SpacingFarAccepted` | dredge.py:77-89 | a candidate at least 35° from every other-ring angle is always accepted |
| `Obstacles.SpacingDecision` | dredge.py:79-89 | for every angle in [0, 359], the refusal test on the scanned bounds rejects exactly the candidates that fail `SpacingOk` |
| `Obstacles.SpacingOkOneSideClear` | dredge.py:77-89 | an accepted candidate has no other-ring angle within 35° on at least one side, and never equals the other ring's first angle |
| `Obstacles.FirstSideOnly` | dredge.py:79-89 | other ring [200, 100]: candidate 190 is refused although its gap below is 90° |
| `Obstacles.OppositeSideUnchecked` | dredge.py:79-89 | a candidate 10° from, or equal to, an other-ring angle on the side opposite the first angle can be accepted: [100, 200] with 190, and [100, 150] with 150 |
| `Obstacles.SameRingIgnored` | dredge.py:77-91 | appending a same-ring obstacle changes neither the other ring's list nor the acceptance of a candidate |
| `Obstacles.Admits` | dredge.py:73-89 | an accepted ring-1 candidate is at most 280°; an accepted candidate never sits on the other ring's first angle; a candidate outside the start zone is always accepted while the other ring is empty |
| `Obstacles.Step` | dredge.py:71-91 | one loop turn extends the placements by at most one, and it extends them, by the candidate itself, exactly when the candidate is accepted |
| `Obstacles.CandidateAccepted` | dredge.py:73-89 | a candidate is accepted iff it is outside the ring-1 start zone (above 280°) and passes `SpacingOk` against the other ring's current list |
| `Obstacles.PlaceCandidate` | dredge.py:71-91 | one loop turn keeps the two object lists equal to the lists of the accepted draws, each obstacle on its own ring with speed 1 and none twice. A new obstacle is fresh |
| `Obstacles.TracksAppend` | dredge.py:91 | appending an accepted candidate's obstacle to its own list keeps both lists equal to the lists of accepted angles |
| `Obstacles.Generate` | dredge.py:70-91 | a completed generation has exactly 9 placements. It extends the placements it started from, and leaves over a suffix of the draws that is shorter by at least the number of new placements |
| `Obstacles.StepKeepsWellPlaced` | dredge.py:71-91 | one loop turn keeps every placement valid, outside the start zone, and spaced from the other ring as that ring was when the placement was accepted |
| `Obstacles.GenerateWellPlaced` | dredge.py:70-91 | every completed generation is well placed (the loop invariant over all turns) |
| `Obstacles.WellPlacedRings` | dredge.py:68-91 | in a well-placed generation every angle is in [0, 359], every ring-1 angle is at most 280, and the two lists together hold every placement |
| `Obstacles.FillRings` | dredge.py:69-91 | the loop succeeds iff `Generate` completes on the draws. On success the two lists are the lists of accepted angles with their rings and speed 1, and `used` draws are consumed |
| `Obstacles.GenerateObstacles` | dredge.py:63-95 | succeeds iff the draws suffice. Returns 9 distinct fresh obstacles: all ring-2 obstacles in insertion order, then all ring-1 obstacles in insertion order, speed 1 |
| `Wheels.RatioOfNine` | dredge.py:118 | out of nine obstacles, the ratio test admits exactly 3 to 6 ring-1 obstacles |
| `Wheels.RingOneCount` | dredge.py:120 | the ring-1 count never exceeds the list length |
| `Wheels.RingOneCountSplit` | dredge.py:93-95 | a list of m ring-2 obstacles followed by ring-1 obstacles has length minus m ring-1 obstacles |
| `Wheels.ArrangedRingOneCount` | dredge.py:93-95 | the returned list's ring-1 count equals the number of ring-1 placements |
| `Wheels.ArrangedRings` | dredge.py:91-95 | every returned obstacle is on ring 1 or 2 and has speed 1 |
| `Wheels.Retry` | dredge.py:116-120 | whatever the retry loop selects has 9 placements and passes the ratio test |
| `Wheels.RetryTurn` | dredge.py:117-119 | one turn of the retry loop on draws that let it finish: the generation completes with 9 obstacles, and the float ratio test on them is exactly `Balanced` on their placements |
| `Wheels.RetryAgain` | dredge.py:117-119 | after an unbalanced generation the loop continues on the draws left over, which are still valid, and selects what it would have selected from the start |
| `Wheels.RetryAccepts` | dredge.py:116-120 | the generation the retry loop accepts has 9 well-placed obstacles with 3 to 6 on ring 1 |
| `Wheels.RetryAngles` | dredge.py:70-95 | every obstacle of the selected generation has an angle in [0, 359], and every ring-1 obstacle's angle is at most 280 |
| `Unspaced.AdmitsEach` | dredge.py:73-89 | each of the nine sample draws passes the start-zone test and the spacing check against the lists before it |
| `Unspaced.GeneratesDraws` | dredge.py:70-91 | the sampler accepts all nine sample draws and consumes no more |
| `Unspaced.RetryKeepsDraws` | dredge.py:117-120 | the retry loop keeps that first generation, whose ring-1 share is 4 of 9 |
| `Unspaced.FinishedWheelUnspaced` | dredge.py:77-91 | the nine sample draws are valid and the retry loop keeps them; the finished lists are [250, 150, 0, 10] on ring 1 and [300, 140, 160, 20, 30] on ring 2, so the ring-1 obstacle at 150 is 10° from ring-2 obstacles at 140 and 160 |
| `Wheels.Wheel.GenerateBalanced` | dredge.py:116-120 | the retry loop returns the generation `Retry` selects: 9 distinct fresh obstacles, each on ring 1 or 2 with speed 1, whose ring-1 ratio is strictly between 0.3 and 0.7, that is 3 to 6 on ring 1 |
| `Wheels.Wheel.TemplateBox` | dredge.py:126-128 | the template square has side 2 * box radius and is centred size - dist_from_edge above the origin |
| `Wheels.Wheel.RingTemplates` | dredge.py:126-133 | the ring-1 template holds the template square's corners. The ring-2 template is an independent copy shifted by (0, 25) |
| `Wheels.Wheel.constructor` | dredge.py:110-133 | a new wheel is valid with 3 to 6 of its 9 obstacles on ring 1. Its constants are 250, 20 and 10. Its templates are the corners of the square (-10, -240, 20, 20) for ring 1 and those corners shifted by (0, 25), in a separate buffer, for ring 2 |
| `Wheels.Wheel.Rotate` | dredge.py:135-137 | every obstacle's angle grows by its speed. The list, rings, speeds and validity are unchanged |
| `Players.ToggledMoves` | dredge.py:168-174 | a toggle always lands on the other ring, 1 or 2; it moves the box 25 down when it goes to ring 2 and 25 up otherwise, and keeps its x, width and height |
| `Players.ToggledTwice` | dredge.py:168-174 | on ring 1 or 2, two toggles restore ring and box |
| `Players.ToggledTimesParity` | dredge.py:231-236 | n toggles in one tick act like n mod 2 toggles |
| `Players.ToggledTimesAdd` | dredge.py:231-236 | toggling a times and then b times is toggling a + b times |
| `Players.HomeBox` | dredge.py:160-163 | the player's home box has side 2 * box radius and is centred wheel size - 20 above the screen centre |
| `Players.ToggledOnTrack` | dredge.py:168-174 | a toggle always changes the ring and keeps the box on its track (home on ring 1, 25 lower on ring 2). Box x, width and height are unchanged |
| `Players.Player.constructor` | dredge.py:157-163 | the player starts on ring 1 with the box of side 2 * radius centred wheel size - 20 above the screen centre |
| `Players.Player.Move` | dredge.py:168-174 | ring 1 becomes 2 with the box 25 lower; any other ring becomes 1 with the box 25 higher. The track invariant is kept |
| `Progress.ProgressBar.constructor` | dredge.py:178-186 | a new bar has progress 0, the given total, and both rectangles covering the given area |
| `Progress.ProgressBar.Increase` | dredge.py:188-193 | progress grows by one; the result is true iff the new progress equals the total |
| `Progress.ProgressBar.Reset` | dredge.py:195-196 | progress becomes 0 and nothing else changes |
| `Progress.ProgressBar.IncreaseTimes` | dredge.py:188-193 | n successive increase calls raise the count by n and return exactly the signals `WinSignals` lists |
| `Progress.WinSignals` | dredge.py:188-193 | n calls give n signals (the signals `IncreaseTimes` returns) |
| `Progress.WinSignalsAt` | dredge.py:188-193 | call i + 1 from count p signals a win iff p + i + 1 equals the total |
| `Progress.WinsOnlyAtTotal` | dredge.py:188-193 | from a fresh bar, only call number `total` returns true; earlier and later calls return false |
| `Game.StartRound` | dredge.py:216-227 | the round starts with a valid wheel whose obstacles are the ones the retry loop selects from the draws, with size 250, distance from edge 20 and box radius 10; the player on ring 1 at the home box; and a bar at 0 of 720, 30 wide and twice the wheel size high, placed left of the wheel |
| `Game.HandleEvents` | dredge.py:231-236 | the player is toggled once per space press. The loop keeps running iff no close request came |
| `Game.Tick` | dredge.py:231-255 | in one tick the ring toggles come first, then the obstacles rotate, then the count goes up. The win is read before the hit, so a tick wins iff the count before it is total - 1, even when it is also a hit. A hit resets the count to 0. A close request or a win stops the loop |
| `Game.PlayStops` | dredge.py:230-259 | a round plays at least one tick if there is one and never more than there are. It stops before the inputs run out only after a tick that wins or receives a close request, and no earlier tick received one |
| `Game.PlayUnroll` | dredge.py:230-259 | from any tick on, that tick either ends the round (win or close request) or is followed by the rest of the round from the updated count |
| `Game.PlayRound` | dredge.py:230-259 | the loop's ticks, win and final count are those of `Play`, and it plays at most one tick per input. Each obstacle advanced one degree per tick. The player was toggled once per space press over all ticks played, and stays on its track |
| `Game.ReplayCountsFlawlessTicks` | dredge.py:242-255 | after ticks that did not end the round, the count is the number of hit-free ticks since the last hit (or the start count plus the ticks if there was no hit) |
| `Game.ReplayFirst` | dredge.py:242-255 | the count after a first tick and then the rest equals the count after replaying them all |
| `Game.WonRound` | dredge.py:242-255 | a won round is won on its last tick, and only because the earlier ticks left the count at total - 1 |
| `Game.FlawlessRunWins` | dredge.py:242-255 | from count p below the total, with no hit and no close request on the total - p - 1 ticks before it, the round is won on tick total - p, whether or not that tick is a hit or receives a close request |

## Left out

- `PointSet.rotate` (dredge.py:34-37): it uses floating-point trigonometry through pygame's `Vector2.rotate_ip`.
- `Wheel.render` (dredge.py:139-153) is left out, together with the obstacle polygons it builds from rotated templates, and the drawing in `Player.render` and `ProgressBar.render`.
- The collision test `Rect.collidelist` (dredge.py:250) works on the bounds of rotated float polygons. Its outcome is the `hit` input of each tick.
- The `gray.height` update in `ProgressBar.increase` (dredge.py:190) is left out. It is a float fill ratio used only for drawing, so `gray` never changes here. Its division by the total is kept as the requirement `total != 0`.
- Event polling, the red tint, the display flip, `clock.tick` and `pygame.init`/`quit` are left out, as are the `print` calls, `victory` and `Obstacle.__repr__`. They are I/O and pacing.
- `randint` is not modelled. The draws are an input sequence, each draw a pair (angle in [0, 359], list index in {0, 1}).
- `reasonable_patterns` (dredge.py:98-105) builds a list it never returns and is never called.
- Coordinates are integers. `Vector2` and the screen centre are floats in the source, but without rotation every coordinate here has an integer value.
- `Obstacles.GenerateObstacles`: the source draws without bound until 9 obstacles are placed. The model returns `ok == false` when the supplied draws run out first.
- `Wheels.Wheel.constructor`, `Wheels.Wheel.GenerateBalanced` and `Game.StartRound`: the source retries without bound. The model requires that the supplied draws let the retry loop finish (`Retry(draws).Some?`).
- `Game.PlayRound`: it models the main loop over a finite sequence of tick inputs, so it also stops when the inputs run out.
