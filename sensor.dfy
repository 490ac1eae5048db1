/**
 * The P2 Pro module's fixed contract (video.py:15-17): a 256x384 stream at 25 frames per
 * second, and its USB vendor/product ids. Property values reported by a capture backend
 * are modelled as exact reals; Python's int() on them truncates toward zero.
 */
module Sensor {

  const Width: int := 256
  const Height: int := 384
  const Fps: real := 25.0
  const UsbVendorId: int := 0x0bda
  const UsbProductId: int := 0x5830

  /** int(x) for a float x: truncation toward zero. */
  function PyInt(x: real): (i: int)
    ensures x >= 0.0 ==> i as real <= x < i as real + 1.0
    ensures x < 0.0 ==> i as real - 1.0 < x <= i as real
  {
    if x >= 0.0 then x.Floor else -((-x).Floor)
  }

  /** `(w, h) == P2Pro_resolution and fps == P2Pro_fps`. */
  predicate MatchesContract(w: int, h: int, fps: real) {
    w == Width && h == Height && fps == Fps
  }

  /** The check of open(): width and height go through int(), the frame rate does not. */
  predicate ReportedMatches(w: real, h: real, fps: real) {
    MatchesContract(PyInt(w), PyInt(h), fps)
  }

  /** Exactly which reported values pass the check: truncation admits fractional sizes, the rate must be exact. */
  lemma ReportedMatchesExactly(w: real, h: real, fps: real)
    ensures ReportedMatches(w, h, fps) <==> 256.0 <= w < 257.0 && 384.0 <= h < 385.0 && fps == 25.0
  {
    if 256.0 <= w < 257.0 {
      assert PyInt(w) == 256;
    }
    if 384.0 <= h < 385.0 {
      assert PyInt(h) == 384;
    }
  }
}
