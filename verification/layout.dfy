/** Screen-level constants shared by the wheel, the player and the game loop. */
module Layout {
  /** Window size in pixels (dredge.py:202). */
  const SCREEN_WIDTH: int := 1280
  const SCREEN_HEIGHT: int := 720

  /** The screen centre, the element-wise floor division of the window size by 2 (dredge.py:203). */
  const CENTER_X: int := SCREEN_WIDTH / 2
  const CENTER_Y: int := SCREEN_HEIGHT / 2

  /** Radial distance between the two rings, in pixels (dredge.py:204). */
  const RING_SEP: int := 25
}
