/** The progress bar: a counter of flawless ticks with a win threshold. */
module Progress {
  import opened Geometry

  class ProgressBar {
    const x: int
    const y: int
    const width: int
    const height: int
    const green: Rect
    const gray: Rect
    var progress: int
    const total: int

    /** `ProgressBar.__init__` (dredge.py:178-186): both bars cover the full area, progress 0. */
    constructor (x: int, y: int, width: int, height: int, total: int)
      ensures this.x == x && this.y == y && this.width == width && this.height == height
      ensures green == Rect(x, y, width, height) && gray == Rect(x, y, width, height)
      ensures progress == 0 && this.total == total
    {
      this.x, this.y, this.width, this.height := x, y, width, height;
      green := Rect(x, y, width, height);
      gray := Rect(x, y, width, height);
      progress := 0;
      this.total := total;
    }

    /**
     * `ProgressBar.increase` (dredge.py:188-193): count one tick and signal
     * a win exactly when the count reaches the total. The source divides by
     * the total, so a total of 0 raises an error there.
     */
    method Increase() returns (win: bool)
      requires total != 0
      modifies this`progress
      ensures progress == old(progress) + 1
      ensures win <==> progress == total
    {
      progress := progress + 1;
      win := progress == total;
    }

    /**
     * n successive `increase` calls, as n flawless ticks of the main loop
     * make them (dredge.py:242): their win signals are `WinSignals`.
     */
    method IncreaseTimes(n: nat) returns (wins: seq<bool>)
      requires total != 0
      modifies this`progress
      ensures progress == old(progress) + n
      ensures wins == WinSignals(old(progress), total, n)
    {
      wins := [];
      for i := 0 to n
        invariant progress == old(progress) + i
        invariant |wins| == i
        invariant forall j | 0 <= j < i :: wins[j] <==> old(progress) + j + 1 == total
      {
        var win := Increase();
        wins := wins + [win];
      }
      forall j | 0 <= j < n ensures wins[j] == WinSignals(old(progress), total, n)[j] {
        WinSignalsAt(old(progress), total, n, j);
      }
    }

    /** `ProgressBar.reset` (dredge.py:195-196): back to 0, nothing else changes. */
    method Reset()
      modifies this`progress
      ensures progress == 0
    {
      progress := 0;
    }
  }

  /** The win signals of n successive `increase` calls from count `progress`. */
  function WinSignals(progress: int, total: int, n: nat): (s: seq<bool>)
    ensures |s| == n
    decreases n
  {
    if n == 0 then [] else [progress + 1 == total] + WinSignals(progress + 1, total, n - 1)
  }

  /** The i-th call (from 0) signals a win exactly when it brings the count to the total. */
  lemma {:induction false} WinSignalsAt(progress: int, total: int, n: nat, i: nat)
    requires i < n
    ensures WinSignals(progress, total, n)[i] <==> progress + i + 1 == total
    decreases i
  {
    if i > 0 {
      WinSignalsAt(progress + 1, total, n - 1, i - 1);
    }
  }

  /**
   * From a fresh bar, calls 1 to total - 1 return false, call number total
   * returns true, and every later call returns false (call i + 1 is at
   * index i).
   */
  lemma WinsOnlyAtTotal(total: int, n: nat)
    requires total > 0
    ensures forall i | 0 <= i < n :: WinSignals(0, total, n)[i] <==> i + 1 == total
  {
    forall i | 0 <= i < n ensures WinSignals(0, total, n)[i] <==> i + 1 == total {
      WinSignalsAt(0, total, n, i);
    }
  }
}
