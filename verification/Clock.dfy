/** Maps between audio frames and nanoseconds: MonotonicAudioClock (src/audio/clock.cpp) and the
    rounding of LoopbackSink::aligned (src/audio/loopback.cpp). Time points are nanoseconds since
    the clock's epoch; a default-constructed time point is 0. Integers are unbounded. */
module Clock {
  import opened Modular

  const SECOND: int := 1_000_000_000

  /** Integer division as the program does it: toward zero. */
  function TruncDiv(a: int, b: int): int
    requires 0 < b
  {
    if a >= 0 then a / b else -(-a / b)
  }

  function CeilDiv(a: int, b: int): int
    requires 0 < b
  {
    (a + b - 1) / b
  }

  lemma CeilDivIs(a: int, b: int)
    requires 0 < b
    ensures CeilDiv(a, b) * b - b < a <= CeilDiv(a, b) * b
  {
    var q, r := (a + b - 1) / b, (a + b - 1) % b;
    assert a + b - 1 == q * b + r;
  }

  lemma TruncDivIs(a: int, b: int)
    requires 0 < b
    ensures a >= 0 ==> TruncDiv(a, b) * b <= a < TruncDiv(a, b) * b + b && 0 <= TruncDiv(a, b)
    ensures a <= 0 ==> TruncDiv(a, b) * b - b < a <= TruncDiv(a, b) * b && TruncDiv(a, b) <= 0
  {
    if a >= 0 {
      assert a == a / b * b + a % b;
    } else {
      assert -a == -a / b * b + -a % b;
    }
    if a == 0 { Divide(0, b, 0, 0); }
  }

  lemma TruncDivMonotone(x: int, y: int, b: int)
    requires 0 < b && x <= y
    ensures TruncDiv(x, b) <= TruncDiv(y, b)
  {
    TruncDivIs(x, b);
    TruncDivIs(y, b);
    hide TruncDiv;
    var p, q := TruncDiv(x, b), TruncDiv(y, b);
    if p > q { Ordered(q + 1, p, b); }
  }

  // ----- The clock -----

  class MonotonicAudioClock {
    var anchored: bool
    var sampleRate: nat
    var anchorFrame: nat
    var anchorNs: int
    var totalFrames: nat

    /** The first tick anchors frame 0, every later one the end of its buffer. */
    ghost predicate Valid()
      reads this
    {
      anchored ==> sampleRate > 0 && (anchorFrame == 0 || anchorFrame == totalFrames)
    }

    constructor ()
      ensures Valid() && !anchored && totalFrames == 0
    {
      anchored := false;
      sampleRate, anchorFrame, anchorNs, totalFrames := 0, 0, 0, 0;
    }

    method OnCaptureFrames(frameCount: nat, rate: nat, now: int)
      requires Valid()
      modifies this
      ensures Valid()
      ensures rate == 0 || frameCount == 0 ==> unchanged(this)
      ensures rate > 0 && frameCount > 0 ==>
                && anchored && anchorNs == now
                && sampleRate == (if old(anchored) then old(sampleRate) else rate)
                && totalFrames == (if old(anchored) then old(totalFrames) else 0) + frameCount
                && anchorFrame == if old(anchored) then totalFrames else 0
    {
      if rate == 0 || frameCount == 0 { return; }
      if !anchored {
        sampleRate, anchorFrame, anchorNs, totalFrames := rate, 0, now, frameCount;
        anchored := true;
        return;
      }
      totalFrames := totalFrames + frameCount;
      anchorFrame, anchorNs := totalFrames, now;
    }

    method SteadyFor(frame: nat) returns (ns: int)
      requires Valid()
      ensures ns == if !anchored then 0 else SteadyNs(anchorFrame, anchorNs, sampleRate, frame)
    {
      if !anchored || sampleRate == 0 { return 0; }
      var deltaFrames := frame - anchorFrame;
      var nsPerFrame := SECOND / sampleRate;
      ns := anchorNs + deltaFrames * nsPerFrame;
    }

    method FramesAt(ns: int) returns (frame: nat)
      requires Valid()
      ensures frame == if !anchored then 0 else FrameIndex(anchorFrame, anchorNs, sampleRate, ns)
    {
      if !anchored || sampleRate == 0 { return 0; }
      var deltaFrames := TruncDiv((ns - anchorNs) * sampleRate, SECOND);
      var result := anchorFrame + deltaFrames;
      frame := if result < 0 then 0 else result;
    }
  }

  function SteadyNs(anchorFrame: nat, anchorNs: int, rate: nat, frame: nat): int
    requires rate > 0
  {
    anchorNs + (frame - anchorFrame) * (SECOND / rate)
  }

  /** The frame index before it is clamped at zero. */
  function SignedIndex(anchorFrame: nat, anchorNs: int, rate: nat, ns: int): int {
    anchorFrame + TruncDiv((ns - anchorNs) * rate, SECOND)
  }

  function FrameIndex(anchorFrame: nat, anchorNs: int, rate: nat, ns: int): nat {
    var i := SignedIndex(anchorFrame, anchorNs, rate, ns);
    if i < 0 then 0 else i
  }

  /** How many frames a trip to nanoseconds and back loses at distance `d` from the anchor. */
  function RoundTripLoss(rate: nat, d: int): int
    requires rate > 0
  {
    CeilDiv((if d < 0 then -d else d) * (SECOND % rate), SECOND)
  }

  lemma LossBounds(rate: nat, d: nat)
    requires rate > 0
    ensures var loss := RoundTripLoss(rate, d);
            && loss * SECOND - SECOND < d * (SECOND % rate) <= loss * SECOND
            && 0 <= loss <= d
            && (loss == 0 <==> d == 0 || SECOND % rate == 0)
  {
    hide CeilDiv;
    var r := SECOND % rate;
    CeilDivIs(d * r, SECOND);
    assert 0 <= d * r <= d * SECOND by { if d > 0 { Ordered(0, r, d); Ordered(r, SECOND, d); } }
    if d > 0 && r > 0 { Ordered(1, r, d); }
  }

  lemma LossOfDistance(rate: nat, d: nat)
    requires rate > 0
    ensures 0 <= d * (SECOND / rate) * rate
    ensures TruncDiv(d * (SECOND / rate) * rate, SECOND) == d - RoundTripLoss(rate, d)
  {
    LossBounds(rate, d);
    var q, r, loss := SECOND / rate, SECOND % rate, RoundTripLoss(rate, d);
    assert SECOND == q * rate + r;
    assert d * q * rate == d * (q * rate) == d * SECOND - d * r;
    hide RoundTripLoss;
    Divide(d * q * rate, SECOND, d - loss, loss * SECOND - d * r);
  }

  /** Frame to time and back: the index moves toward the anchor by exactly the loss, and the clamp
      at zero never acts. */
  lemma RoundTrip(anchorFrame: nat, anchorNs: int, rate: nat, frame: nat)
    requires rate > 0
    ensures var ns := SteadyNs(anchorFrame, anchorNs, rate, frame);
            var loss := RoundTripLoss(rate, frame - anchorFrame);
            && SignedIndex(anchorFrame, anchorNs, rate, ns) == (if frame >= anchorFrame then frame - loss else frame + loss)
            && FrameIndex(anchorFrame, anchorNs, rate, ns) == SignedIndex(anchorFrame, anchorNs, rate, ns)
  {
    var d := frame - anchorFrame;
    var m, q := if d < 0 then -d else d, SECOND / rate;
    LossOfDistance(rate, m);
    LossBounds(rate, m);
    assert (SteadyNs(anchorFrame, anchorNs, rate, frame) - anchorNs) * rate == d * q * rate;
    if d < 0 { TruncDivOdd(m * q * rate, SECOND); }
  }

  lemma TruncDivOdd(a: int, b: int)
    requires 0 < b
    ensures TruncDiv(-a, b) == -TruncDiv(a, b)
  {
    if a == 0 { Divide(0, b, 0, 0); }
  }

  /** The trip is exact at the anchor, and everywhere else only if the rate divides a second. */
  lemma ExactWhenRateDivides(anchorFrame: nat, anchorNs: int, rate: nat, frame: nat)
    requires rate > 0
    ensures FrameIndex(anchorFrame, anchorNs, rate, SteadyNs(anchorFrame, anchorNs, rate, frame)) == frame
            <==> frame == anchorFrame || SECOND % rate == 0
  {
    RoundTrip(anchorFrame, anchorNs, rate, frame);
    var d := frame - anchorFrame;
    LossBounds(rate, if d < 0 then -d else d);
  }

  lemma MapsAreMonotone(anchorFrame: nat, anchorNs: int, rate: nat)
    requires rate > 0
    ensures forall f: nat, g: nat :: f <= g ==> SteadyNs(anchorFrame, anchorNs, rate, f) <= SteadyNs(anchorFrame, anchorNs, rate, g)
    ensures forall s, t :: s <= t ==> FrameIndex(anchorFrame, anchorNs, rate, s) <= FrameIndex(anchorFrame, anchorNs, rate, t)
  {
    var q := SECOND / rate;
    forall f: nat, g: nat | f <= g
      ensures SteadyNs(anchorFrame, anchorNs, rate, f) <= SteadyNs(anchorFrame, anchorNs, rate, g)
    {
      if q > 0 { Ordered(f - anchorFrame, g - anchorFrame, q); }
    }
    forall s, t | s <= t
      ensures FrameIndex(anchorFrame, anchorNs, rate, s) <= FrameIndex(anchorFrame, anchorNs, rate, t)
    {
      Ordered(s - anchorNs, t - anchorNs, rate);
      TruncDivMonotone((s - anchorNs) * rate, (t - anchorNs) * rate, SECOND);
    }
  }

  /** Time to frame and back, for a time after the anchor: never later, and earlier by less than
      one frame plus the drift of the rounded frame duration. */
  lemma TimeRoundTrip(anchorFrame: nat, anchorNs: int, rate: nat, ns: int)
    requires rate > 0 && anchorNs <= ns
    ensures var back := SteadyNs(anchorFrame, anchorNs, rate, FrameIndex(anchorFrame, anchorNs, rate, ns));
            && 0 <= ns - back
            && (ns - back) * SECOND <= (ns - anchorNs) * (SECOND % rate) + (SECOND / rate) * (SECOND - 1)
  {
    var q, r, e := SECOND / rate, SECOND % rate, ns - anchorNs;
    assert SECOND == q * rate + r;
    var k := TruncDiv(e * rate, SECOND);
    assert e * rate >= 0;
    TruncDivIs(e * rate, SECOND);
    assert q * (k * SECOND) <= q * (e * rate) by { Ordered(k * SECOND, e * rate, if q == 0 then 1 else q); }
    assert q * (e * rate - SECOND + 1) <= q * (k * SECOND) by {
      Ordered(e * rate - SECOND + 1, k * SECOND, if q == 0 then 1 else q);
    }
    assert q * (e * rate) == e * (SECOND - r);
    assert e * r >= 0;
    assert k >= 0;
  }

  // ----- The loopback's rounding -----

  /** Nanoseconds to frames, to the nearest, halves away from zero. */
  function DeltaFrames(deltaNs: int, rate: nat): int {
    if deltaNs >= 0 then TruncDiv(deltaNs * rate + 500_000_000, SECOND)
    else TruncDiv(deltaNs * rate - 500_000_000, SECOND)
  }

  /** The chosen frame is within half a frame of the requested time, ties going outward. */
  lemma WithinHalfAFrame(deltaNs: int, rate: nat)
    ensures var k := DeltaFrames(deltaNs, rate);
            && -500_000_000 <= k * SECOND - deltaNs * rate <= 500_000_000
            && DeltaFrames(-deltaNs, rate) == -k
    ensures DeltaFrames(0, rate) == 0
  {
    TruncDivIs(deltaNs * rate + 500_000_000, SECOND);
    TruncDivIs(deltaNs * rate - 500_000_000, SECOND);
    assert -deltaNs * rate == -(deltaNs * rate);
    if deltaNs >= 0 { assert deltaNs * rate >= 0; } else { assert deltaNs * rate <= 0; }
  }
}
