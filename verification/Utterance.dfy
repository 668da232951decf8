/** UtteranceBuffer of src/audio/utterance.cpp. Time points are nanoseconds; the tracking of slices
    that consumers still hold is not modelled. */
module Utterance {
  import opened Clock
  import opened Wrappers

  const WORD: nat := 0x1_0000_0000_0000_0000
  const MS: int := 1_000_000

  datatype Config = Config(rate: nat, prePaddingMs: nat, postPaddingMs: nat, maxDurationMs: nat)

  function PrePadCapacity(cfg: Config): nat { cfg.rate * cfg.prePaddingMs / 1000 }
  function CapSamples(cfg: Config): nat { cfg.rate * cfg.maxDurationMs / 1000 }

  datatype Buffer = Buffer(pre: seq<int>, active: seq<int>, recording: bool, startedAt: int)

  datatype Slice = Slice(samples: seq<int>, startedAt: int, endedAt: int)

  const EMPTY: Buffer := Buffer([], [], false, 0)

  function Last(s: seq<int>, n: nat): seq<int> {
    if |s| > n then s[|s| - n..] else s
  }

  function Append(cfg: Config, b: Buffer, samples: seq<int>): Buffer {
    if samples == [] then b
    else if b.recording then
      var grown := b.active + samples;
      var cap := CapSamples(cfg);
      if 0 < cap < |grown| then
        b.(active := Last(grown, cap), startedAt := b.startedAt + (|grown| - cap) * 1000 / cfg.rate * MS)
      else b.(active := grown)
    else b.(pre := Last(b.pre + samples, PrePadCapacity(cfg)))
  }

  function SpeechStarts(b: Buffer, prePadStart: int): Buffer {
    Buffer([], b.pre, true, prePadStart)
  }

  /** How many samples fit before the end plus the post padding, in unsigned 64-bit arithmetic. */
  function TargetSamples(cfg: Config, b: Buffer, endedAt: int): nat {
    var activeMs := TruncDiv(endedAt - b.startedAt, MS) + cfg.postPaddingMs;
    cfg.rate * (activeMs % WORD) % WORD / 1000
  }

  function SliceOf(cfg: Config, b: Buffer, endedAt: int): Slice {
    var target := TargetSamples(cfg, b, endedAt);
    Slice(if 0 < target < |b.active| then b.active[..target] else b.active, b.startedAt, endedAt)
  }

  function SpeechEnds(cfg: Config, b: Buffer, endedAt: int): (Buffer, Option<Slice>) {
    if !b.recording then (b, None)
    else (b.(active := [], recording := false), Some(SliceOf(cfg, b, endedAt)))
  }

  class UtteranceBuffer {
    const cfg: Config
    var preBuffer: seq<int>
    var activeSamples: seq<int>
    var recording: bool
    var activeStartedAt: int

    function View(): Buffer
      reads this
    {
      Buffer(preBuffer, activeSamples, recording, activeStartedAt)
    }

    constructor (c: Config)
      ensures cfg == c && View() == EMPTY
    {
      cfg := c;
      preBuffer, activeSamples, recording, activeStartedAt := [], [], false, 0;
    }

    method AppendSamples(samples: seq<int>)
      modifies this
      ensures View() == Append(cfg, old(View()), samples)
    {
      if samples == [] { return; }
      if recording {
        activeSamples := activeSamples + samples;
        var capSamples := cfg.rate * cfg.maxDurationMs / 1000;
        if capSamples > 0 && |activeSamples| > capSamples {
          var drop := |activeSamples| - capSamples;
          activeSamples := activeSamples[drop..];
          activeStartedAt := activeStartedAt + drop * 1000 / cfg.rate * MS;
        }
      } else {
        for i := 0 to |samples|
          invariant preBuffer == old(preBuffer) + samples[..i]
          invariant activeSamples == old(activeSamples) && !recording && activeStartedAt == old(activeStartedAt)
        {
          preBuffer := preBuffer + [samples[i]];
        }
        assert samples[..|samples|] == samples;
        TrimPreBuffer();
      }
    }

    method TrimPreBuffer()
      modifies this`preBuffer
      ensures preBuffer == Last(old(preBuffer), PrePadCapacity(cfg))
    {
      var n := PrePadCapacity(cfg);
      while |preBuffer| > n
        invariant Last(preBuffer, n) == Last(old(preBuffer), n)
      {
        preBuffer := preBuffer[1..];
      }
    }

    method OnSpeechStarted(prePadStart: int)
      modifies this
      ensures View() == SpeechStarts(old(View()), prePadStart)
    {
      if recording { activeSamples := []; }
      recording := true;
      activeStartedAt := prePadStart;
      activeSamples := preBuffer;
      preBuffer := [];
    }

    method OnSpeechEnded(endedAt: int) returns (slice: Option<Slice>)
      modifies this
      ensures (View(), slice) == SpeechEnds(cfg, old(View()), endedAt)
    {
      if !recording { return None; }
      var samples := activeSamples;
      activeSamples := [];
      recording := false;
      var activeDur := TruncDiv(endedAt - activeStartedAt, MS) + cfg.postPaddingMs;
      var target := cfg.rate * (activeDur % WORD) % WORD / 1000;
      if target > 0 && |samples| > target {
        samples := samples[..target];
      }
      return Some(Slice(samples, activeStartedAt, endedAt));
    }

    method AbortActive()
      modifies this
      ensures View() == if old(recording) then old(View()).(active := [], recording := false, startedAt := 0)
                        else old(View())
    {
      if !recording { return; }
      activeSamples := [];
      recording := false;
      activeStartedAt := 0;
    }
  }

  // ----- The start of a capped recording -----

  function AppendAll(cfg: Config, b: Buffer, chunks: seq<seq<int>>): Buffer {
    if chunks == [] then b else Append(cfg, AppendAll(cfg, b, chunks[..|chunks| - 1]), chunks[|chunks| - 1])
  }

  function Total(chunks: seq<seq<int>>): nat {
    if chunks == [] then 0 else Total(chunks[..|chunks| - 1]) + |chunks[|chunks| - 1]|
  }

  /** `ms` milliseconds are the time of `n` samples, short of it by less than one for each of the `k` times
      it was rounded down. */
  predicate Rounds(rate: int, ms: int, n: int, k: nat) {
    0 <= ms && ms * rate <= n * 1000 && n * 1000 <= ms * rate + k * (rate - 1)
  }

  lemma OneRound(rate: nat, ms: int, n: int, k: nat, more: nat)
    requires rate > 0 && Rounds(rate, ms, n, k)
    ensures Rounds(rate, ms + more * 1000 / rate, n + more, k + 1)
  {
    var q, r := more * 1000 / rate, more * 1000 % rate;
    assert more * 1000 == q * rate + r && 0 <= r < rate;
    assert (ms + q) * rate == ms * rate + q * rate;
    assert (k + 1) * (rate - 1) == k * (rate - 1) + (rate - 1);
  }

  /** One frame moves the start by the time of what it pushed out, rounded down. */
  lemma AppendShifts(cfg: Config, b: Buffer, samples: seq<int>, start: int, ms: int, n: int, k: nat)
    requires cfg.rate > 0 && b.recording && b.startedAt == start + ms * MS && Rounds(cfg.rate, ms, n, k)
    ensures var c := Append(cfg, b, samples);
            var out := |b.active| + |samples| - |c.active|;
            && c.recording && out >= 0
            && c.startedAt == start + (ms + out * 1000 / cfg.rate) * MS
            && Rounds(cfg.rate, ms + out * 1000 / cfg.rate, n + out, k + 1)
  {
    var c := Append(cfg, b, samples);
    var out := |b.active| + |samples| - |c.active|;
    hide CapSamples, Rounds;
    OneRound(cfg.rate, ms, n, k, out);
    assert 0 * 1000 / cfg.rate == 0;
  }

  /** While a recording is at its cap its start moves on by the time of the samples that were pushed out, less
      at most one rounded-off millisecond per frame. */
  lemma {:induction false} CapMovesStart(cfg: Config, b: Buffer, chunks: seq<seq<int>>) returns (ms: int)
    requires cfg.rate > 0 && b.recording
    ensures var c := AppendAll(cfg, b, chunks);
            && c.recording && c.startedAt == b.startedAt + ms * MS
            && Rounds(cfg.rate, ms, |b.active| + Total(chunks) - |c.active|, |chunks|)
  {
    hide Append, Rounds;
    if chunks == [] {
      ms := 0;
      assert Rounds(cfg.rate, 0, 0, 0) by { NoRounding(cfg.rate); }
    } else {
      var init, last := chunks[..|chunks| - 1], chunks[|chunks| - 1];
      ms := CapMovesStart(cfg, b, init);
      var c := AppendAll(cfg, b, init);
      AppendShifts(cfg, c, last, b.startedAt, ms, |b.active| + Total(init) - |c.active|, |init|);
      ms := ms + (|c.active| + |last| - |Append(cfg, c, last).active|) * 1000 / cfg.rate;
    }
  }

  lemma NoRounding(rate: nat)
    ensures Rounds(rate, 0, 0, 0)
  {}
}
