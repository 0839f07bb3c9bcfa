/** The player's box and its ring toggle. */
module Players {
  import opened Layout
  import opened Geometry

  /** Which ring the player is on and where the player's box is. */
  datatype Pose = Pose(ring: int, box: Rect)

  /**
   * The ring toggle on values (dredge.py:168-174): from ring 1 to ring 2
   * with the box RING_SEP lower on the screen, from any other ring back to
   * ring 1 with the box RING_SEP higher.
   */
  function Toggled(p: Pose): Pose
  {
    if p.ring == 1 then Pose(2, p.box.Moved(0, RING_SEP))
    else Pose(1, p.box.Moved(0, -RING_SEP))
  }

  /**
   * A toggle always lands on the other ring, 1 or 2, and moves the box
   * RING_SEP down when it goes to ring 2 and RING_SEP up otherwise, keeping
   * its x, width and height.
   */
  lemma ToggledMoves(p: Pose)
    ensures Toggled(p).ring != p.ring && (Toggled(p).ring == 1 || Toggled(p).ring == 2)
    ensures Toggled(p).box.x == p.box.x && Toggled(p).box.w == p.box.w && Toggled(p).box.h == p.box.h
    ensures Toggled(p).box.y == p.box.y + (if Toggled(p).ring == 2 then RING_SEP else -RING_SEP)
  {
  }

  /** On rings 1 and 2, toggling twice restores ring and box. */
  lemma ToggledTwice(p: Pose)
    requires p.ring == 1 || p.ring == 2
    ensures Toggled(Toggled(p)) == p
  {
  }

  /** The pose after n toggles. */
  function ToggledTimes(p: Pose, n: nat): Pose
  {
    if n == 0 then p else Toggled(ToggledTimes(p, n - 1))
  }

  /** Toggling a times and then b times is toggling a + b times. */
  lemma {:induction false} ToggledTimesAdd(p: Pose, a: nat, b: nat)
    ensures ToggledTimes(ToggledTimes(p, a), b) == ToggledTimes(p, a + b)
  {
    if b > 0 {
      ToggledTimesAdd(p, a, b - 1);
    }
  }

  /** Only the parity of the number of toggles matters. */
  lemma {:induction false} ToggledTimesParity(p: Pose, n: nat)
    requires p.ring == 1 || p.ring == 2
    ensures ToggledTimes(p, n) == if n % 2 == 0 then p else Toggled(p)
  {
    if n > 0 {
      ToggledTimesParity(p, n - 1);
      if n % 2 == 0 {
        ToggledTwice(p);
      }
    }
  }

  /**
   * The box on ring 1 (dredge.py:160-163): side 2 * box radius, centred
   * wheel size - 20 above the screen centre.
   */
  function HomeBox(boxRadius: int, wheelSize: int): (b: Rect)
    ensures b.w == 2 * boxRadius && b.h == 2 * boxRadius
    ensures b.x + boxRadius == CENTER_X && b.y + boxRadius == CENTER_Y - wheelSize + 20
  {
    Rect(0, 0, 2 * boxRadius, 2 * boxRadius)
      .Moved(-boxRadius, -boxRadius)
      .Moved(0, -wheelSize + 20)
      .Moved(CENTER_X, CENTER_Y)
  }

  /** The box sits on the home box on ring 1 and RING_SEP below it on ring 2. */
  predicate OnTrack(p: Pose, home: Rect)
  {
    (p.ring == 1 && p.box == home) || (p.ring == 2 && p.box == home.Moved(0, RING_SEP))
  }

  /** Toggling keeps the box on its track and always changes the ring. */
  lemma ToggledOnTrack(p: Pose, home: Rect)
    requires OnTrack(p, home)
    ensures OnTrack(Toggled(p), home) && Toggled(p).ring != p.ring
    ensures Toggled(p).box.x == p.box.x && Toggled(p).box.w == p.box.w && Toggled(p).box.h == p.box.h
  {
  }

  class Player {
    var ring: int
    var box: Rect
    /** Where the box is on ring 1; not a field of the source. */
    ghost const home: Rect

    ghost predicate Valid()
      reads this
    {
      OnTrack(Pose(ring, box), home)
    }

    /** `Player.__init__` (dredge.py:157-163): ring 1, box at the home position. */
    constructor (boxRadius: int, wheelSize: int)
      ensures Valid()
      ensures ring == 1 && box == HomeBox(boxRadius, wheelSize) && home == box
    {
      ring := 1;
      box := HomeBox(boxRadius, wheelSize);
      home := HomeBox(boxRadius, wheelSize);
    }

    /** `Player.move` (dredge.py:168-174): toggle the ring and move the box with it. */
    method Move()
      modifies this
      ensures Pose(ring, box) == Toggled(old(Pose(ring, box)))
      ensures old(Valid()) ==> Valid()
    {
      if ring == 1 {
        ring := 2;
        box := box.Moved(0, RING_SEP);
      } else {
        ring := 1;
        box := box.Moved(0, -RING_SEP);
      }
      ToggledOnTrackIfValid(old(Pose(ring, box)), home);
    }
  }

  /** `ToggledOnTrack` for a pose that may be off its track. */
  lemma ToggledOnTrackIfValid(p: Pose, home: Rect)
    ensures OnTrack(p, home) ==> OnTrack(Toggled(p), home)
  {
    if OnTrack(p, home) {
      ToggledOnTrack(p, home);
    }
  }
}
