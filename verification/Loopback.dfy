/** LoopbackSink of src/audio/loopback.cpp: a wrapping ring that remembers the last samples sent to
    the loudspeaker and finds those that were emitted at a given time. */
module Loopback {
  import opened Audio
  import opened Clock
  import opened Modular

  /** The ring slot that lies `back` samples behind the write position. */
  function SlotBehind(writePos: nat, back: nat, capacity: nat): (slot: nat)
    requires 0 < capacity && back <= capacity
    ensures slot < capacity
  {
    (writePos + capacity - back) % capacity
  }

  /** The ring holds the last samples of the history, as many as it has room for. */
  ghost predicate Remembers(ring: seq<int>, writePos: nat, history: seq<int>) {
    && ring != []
    && forall back :: 1 <= back <= |ring| && back <= |history| ==>
         ring[SlotBehind(writePos, back, |ring|)] == history[|history| - back]
  }

  /** The sample of frame `f`: what was emitted, if the ring still has it, and silence otherwise. */
  function Heard(history: seq<int>, capacity: nat, f: int): int {
    if |history| - Min(capacity, |history|) <= f < |history| then history[f] else 0
  }

  function HeardFrom(history: seq<int>, capacity: nat, first: int, n: nat): (s: seq<int>)
    ensures |s| == n && forall i :: 0 <= i < n ==> s[i] == Heard(history, capacity, first + i)
  {
    seq(n, i => Heard(history, capacity, first + i))
  }

  // ----- Writing a chunk -----

  /** `after` is `before` with `data` written at the write position, wrapping around. */
  ghost predicate Wrote(before: seq<int>, after: seq<int>, writePos: nat, data: seq<int>)
    requires before != []
  {
    && |after| == |before|
    && (forall j :: 0 <= j < |data| ==> after[Along(writePos, j, |before|)] == data[j])
    && (forall k :: 0 <= k < |before| && (forall j: nat :: j < |data| ==> k != Along(writePos, j, |before|)) ==>
          after[k] == before[k])
  }

  lemma BehindIsAhead(writePos: nat, n: nat, back: nat, c: nat)
    requires 0 < c && 1 <= back <= c && n <= c
    ensures back <= n ==> SlotBehind((writePos + n) % c, back, c) == Along(writePos, n - back, c)
    ensures back > n ==> SlotBehind((writePos + n) % c, back, c) == SlotBehind(writePos, back - n, c)
    ensures back > n ==> forall j: nat :: j < n ==> SlotBehind(writePos, back - n, c) != Along(writePos, j, c)
  {
    ModStep(writePos + n, c - back, c);
    if back <= n {
      assert (writePos + n) + (c - back) == (writePos + (n - back)) + c;
      Wrap(writePos + (n - back), c);
    } else {
      forall j: nat | j < n ensures SlotBehind(writePos, back - n, c) != Along(writePos, j, c) {
        ModDistinct(writePos + c - (back - n), writePos + j + c, c);
        Wrap(writePos + j, c);
      }
    }
  }

  lemma Wrap(n: nat, c: nat)
    requires 0 < c
    ensures (n + c) % c == n % c
  {
    Divide(n + c, c, n / c + 1, n % c);
  }

  /** Emitting a chunk keeps the ring a window on the longer history, however large the chunk. */
  lemma EmitRemembers(before: seq<int>, after: seq<int>, writePos: nat, history: seq<int>, samples: seq<int>)
    requires Remembers(before, writePos, history)
    requires Wrote(before, after, writePos, samples[|samples| - Min(|samples|, |before|)..])
    ensures Remembers(after, (writePos + Min(|samples|, |before|)) % |before|, history + samples)
  {
    var c, n := |before|, Min(|samples|, |before|);
    var data, writeNext := samples[|samples| - n..], (writePos + n) % c;
    forall back | 1 <= back <= c && back <= |history + samples|
      ensures after[SlotBehind(writeNext, back, c)] == (history + samples)[|history + samples| - back]
    {
      BehindIsAhead(writePos, n, back, c);
      if back <= n {
        assert after[Along(writePos, n - back, c)] == data[n - back];
      } else {
        assert after[SlotBehind(writePos, back - n, c)] == before[SlotBehind(writePos, back - n, c)];
      }
    }
  }

  // ----- The sink -----

  class LoopbackSink {
    const sampleRate: nat
    const ring: array<int>
    var writePos: nat
    var totalFrames: nat
    var lastEmitFirstFrame: nat
    var lastEmitTime: int
    ghost var history: seq<int>

    ghost predicate Valid()
      reads this, ring
    {
      && 0 < ring.Length && writePos < ring.Length
      && totalFrames == |history|
      && Remembers(ring[..], writePos, history)
    }

    constructor (capacity: nat, rate: nat)
      ensures Valid() && fresh(ring)
      ensures history == [] && lastEmitTime == 0 && ring.Length == (if capacity > 0 then capacity else 1) && sampleRate == rate
    {
      sampleRate := rate;
      ring := new int[if capacity > 0 then capacity else 1](_ => 0);
      writePos, totalFrames, lastEmitFirstFrame, lastEmitTime := 0, 0, 0, 0;
      history := [];
    }

    /** `memcpy` into the ring. */
    method CopyIn(at: nat, samples: seq<int>, from: nat, n: nat)
      requires at + n <= ring.Length && from + n <= |samples|
      modifies ring
      ensures forall k :: at <= k < at + n ==> ring[k] == samples[from + (k - at)]
      ensures forall k :: 0 <= k < at || at + n <= k < ring.Length ==> ring[k] == old(ring[k])
    {
      for j := 0 to n
        invariant forall k :: at <= k < at + j ==> ring[k] == samples[from + (k - at)]
        invariant forall k :: 0 <= k < at || at + j <= k < ring.Length ==> ring[k] == old(ring[k])
      {
        ring[at + j] := samples[from + j];
      }
    }

    /** The one or two copies that put a chunk's tail into the ring. */
    method CopyTail(samples: seq<int>, skipped: nat)
      requires Valid() && skipped + Min(|samples|, ring.Length) == |samples|
      modifies ring
      ensures Wrote(old(ring[..]), ring[..], writePos, samples[skipped..])
    {
      hide Remembers, Wrote;
      var cap, toCopy := ring.Length, |samples| - skipped;
      ghost var before := ring[..];
      if toCopy <= cap - writePos {
        CopyIn(writePos, samples, skipped, toCopy);
      } else {
        var first := cap - writePos;
        CopyIn(writePos, samples, skipped, first);
        CopyIn(0, samples, skipped + first, toCopy - first);
      }
      SplitWrote(before, ring[..], writePos, samples[skipped..]);
    }

    method OnEmitted(samples: seq<int>, emitTime: int)
      requires Valid()
      modifies this, ring
      ensures Valid()
      ensures samples == [] ==> unchanged(this)
      ensures samples != [] ==>
                && history == old(history) + samples
                && lastEmitTime == emitTime
                && lastEmitFirstFrame == |history| - Min(|samples|, ring.Length)
    {
      hide Remembers, Wrote;
      if samples == [] { return; }
      var cap, n := ring.Length, |samples|;
      var toCopy := if n < cap then n else cap;
      var skipped := n - toCopy;
      ghost var before := ring[..];
      CopyTail(samples, skipped);
      EmitRemembers(before, ring[..], writePos, history, samples);
      writePos := (writePos + toCopy) % cap;
      lastEmitFirstFrame := totalFrames + skipped;
      totalFrames := totalFrames + n;
      lastEmitTime := emitTime;
      history := history + samples;
    }

    /** The frame emitted at the capture time, were emission to go on at the nominal rate. */
    function TargetFrame(captureTime: int): int
      reads this
    {
      lastEmitFirstFrame + DeltaFrames(captureTime - lastEmitTime, sampleRate)
    }

    method Aligned(captureTime: int, dest: array<int>)
      requires Valid() && dest != ring
      modifies dest
      ensures dest[..] == if lastEmitTime == 0 then Silence(dest.Length)
                          else HeardFrom(history, ring.Length, TargetFrame(captureTime), dest.Length)
    {
      if dest.Length == 0 { return; }
      if lastEmitTime == 0 {
        forall i | 0 <= i < dest.Length { dest[i] := 0; }
        return;
      }
      var deltaNs := captureTime - lastEmitTime;
      var deltaFrames := DeltaFrames(deltaNs, sampleRate);
      var firstTarget := lastEmitFirstFrame + deltaFrames;
      var cap := ring.Length;
      var oldest := totalFrames - if cap < totalFrames then cap else totalFrames;
      var newest := totalFrames;
      for i := 0 to dest.Length
        invariant Valid() && dest[..i] == HeardFrom(history, cap, firstTarget, dest.Length)[..i]
      {
        var f := firstTarget + i;
        if f < oldest || f >= newest {
          dest[i] := 0;
        } else {
          var back := newest - f;
          assert ring[..][SlotBehind(writePos, back, cap)] == history[|history| - back];
          var slot := (writePos + cap - back) % cap;
          dest[i] := ring[slot];
        }
        assert dest[i] == Heard(history, cap, firstTarget + i);
      }
    }

    method Clear()
      requires Valid()
      modifies this, ring
      ensures Valid() && history == [] && lastEmitTime == 0 && lastEmitFirstFrame == 0
    {
      forall i | 0 <= i < ring.Length { ring[i] := 0; }
      writePos, totalFrames, lastEmitFirstFrame, lastEmitTime := 0, 0, 0, 0;
      history := [];
    }
  }

  /** One `memcpy` up to the end of the ring and one from its start write the chunk in wrapping order. */
  lemma SplitWrote(before: seq<int>, after: seq<int>, writePos: nat, data: seq<int>)
    requires |after| == |before| && writePos < |before| && |data| <= |before|
    requires var first := Min(|data|, |before| - writePos);
             && (forall k :: writePos <= k < writePos + first ==> after[k] == data[k - writePos])
             && (forall k :: 0 <= k < |data| - first ==> after[k] == data[first + k])
             && (forall k :: |data| - first <= k < writePos || writePos + first <= k < |before| ==> after[k] == before[k])
    ensures Wrote(before, after, writePos, data)
  {
    var c, first := |before|, Min(|data|, |before| - writePos);
    forall j: nat | j < |data| ensures after[Along(writePos, j, c)] == data[j] {
      AheadOf(writePos, j, c);
      if j >= first { assert after[j - first] == data[first + (j - first)]; }
    }
    forall k | 0 <= k < c && (forall j: nat :: j < |data| ==> k != Along(writePos, j, c))
      ensures after[k] == before[k]
    {
      if writePos <= k < writePos + first {
        AheadOf(writePos, k - writePos, c);
      } else if k < |data| - first {
        AheadOf(writePos, k + first, c);
      }
    }
  }

  lemma AheadOf(writePos: nat, j: nat, c: nat)
    requires writePos < c && j <= c
    ensures Along(writePos, j, c) == if writePos + j < c then writePos + j else writePos + j - c
  {
    if writePos + j < c { Divide(writePos + j, c, 0, writePos + j); } else { Divide(writePos + j, c, 1, writePos + j - c); }
  }

  // ----- What alignment at the emit time gives -----

  /** After a chunk was emitted, aligning at its emit time returns the chunk, if it fits the ring;
      a larger chunk shifts the anchor, and what comes back is its tail followed by silence. */
  lemma AlignedAtEmitTime(history: seq<int>, samples: seq<int>, capacity: nat, rate: nat)
    requires 0 < capacity
    ensures var kept := Min(|samples|, capacity);
            var first := |history + samples| - kept + DeltaFrames(0, rate);
            HeardFrom(history + samples, capacity, first, |samples|)
            == samples[|samples| - kept..] + Silence(|samples| - kept)
    ensures |samples| <= capacity ==>
              HeardFrom(history + samples, capacity, |history| + DeltaFrames(0, rate), |samples|) == samples
  {
    WithinHalfAFrame(0, rate);
    var kept := Min(|samples|, capacity);
    assert samples[0..] + Silence(0) == samples;
  }

  /** Emitting a chunk and then aligning at its emit time gives the chunk back if the ring can hold it, and
      otherwise its tail followed by silence; an emit time at the clock's epoch gives silence. */
  method EmitThenAlign(sink: LoopbackSink, samples: seq<int>, emitTime: int, dest: array<int>)
    requires sink.Valid() && dest != sink.ring && samples != [] && dest.Length == |samples|
    modifies sink, sink.ring, dest
    ensures sink.Valid() && sink.history == old(sink.history) + samples
    ensures var kept := Min(|samples|, sink.ring.Length);
            dest[..] == if emitTime == 0 then Silence(|samples|)
                        else samples[|samples| - kept..] + Silence(|samples| - kept)
    ensures emitTime != 0 && |samples| <= sink.ring.Length ==> dest[..] == samples
  {
    sink.OnEmitted(samples, emitTime);
    sink.Aligned(emitTime, dest);
    AlignedAtEmitTime(old(sink.history), samples, sink.ring.Length, sink.sampleRate);
    assert samples[0..] + Silence(0) == samples;
  }

  // ----- Alignment at any time -----

  lemma NearestFrame(deltaNs: int, rate: nat, k: int)
    requires -500_000_000 < k * SECOND - deltaNs * rate < 500_000_000
    ensures DeltaFrames(deltaNs, rate) == k
  {
    WithinHalfAFrame(deltaNs, rate);
    hide DeltaFrames;
  }

  /** What was sent to the loudspeaker `at` samples after the chunk's first one: the chunk itself, what came
      before it as far as the ring reaches, and silence beyond either end. */
  function Sent(before: seq<int>, samples: seq<int>, capacity: nat, at: int): int {
    if 0 <= at < |samples| then samples[at]
    else if at < 0 && -at <= |before| && -at + |samples| <= capacity then before[|before| + at]
    else 0
  }

  lemma HeardIsSent(before: seq<int>, samples: seq<int>, capacity: nat, at: int)
    requires |samples| <= capacity
    ensures Heard(before + samples, capacity, |before| + at) == Sent(before, samples, capacity, at)
  {}

  /** Aligning at a time less than half a frame away from `k` frames after the emit time, before or after it,
      gives what was sent from `k` samples after the chunk's first one on. */
  method EmitThenAlignLater(sink: LoopbackSink, samples: seq<int>, emitTime: int, captureTime: int, ghost k: int, dest: array<int>)
    requires sink.Valid() && dest != sink.ring && samples != [] && |samples| <= sink.ring.Length && emitTime != 0
    requires -500_000_000 < k * SECOND - (captureTime - emitTime) * sink.sampleRate < 500_000_000
    modifies sink, sink.ring, dest
    ensures sink.Valid() && sink.history == old(sink.history) + samples
    ensures forall i :: 0 <= i < dest.Length ==>
              dest[i] == Sent(old(sink.history), samples, sink.ring.Length, k + i)
  {
    hide DeltaFrames, Heard, Sent;
    ghost var before := sink.history;
    sink.OnEmitted(samples, emitTime);
    sink.Aligned(captureTime, dest);
    NearestFrame(captureTime - emitTime, sink.sampleRate, k);
    forall i | 0 <= i < dest.Length ensures dest[i] == Sent(before, samples, sink.ring.Length, k + i) {
      HeardIsSent(before, samples, sink.ring.Length, k + i);
      assert dest[i] == dest[..][i];
    }
  }
}
