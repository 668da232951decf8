/** What AudioPipeline::process_frame of src/audio/pipeline.cpp publishes over a whole run, and which part of
    the stream each utterance is. */
module PublishedSpeech {
  import M = Modular
  import U = Utterance
  import opened Audio
  import opened Pipeline

  // ----- What is published -----

  /** The end of an utterance, and the utterance unless the gate drops it. */
  function Ended(minRms: nat, slice: U.Slice): seq<Published> {
    [SpeechEnded(slice.endedAt)] + if TooQuiet(minRms, slice.samples) then [] else [UtteranceReady(slice)]
  }

  /** One start for each utterance and its end, and perhaps one more start. */
  function Told(minRms: nat, starts: seq<int>, slices: seq<U.Slice>): seq<Published>
    requires |slices| <= |starts| <= |slices| + 1
    decreases |slices|, |starts|
  {
    var n := |slices|;
    if |starts| > n then Told(minRms, starts[..n], slices) + [SpeechStarted(starts[n])]
    else if n == 0 then []
    else Told(minRms, starts, slices[..n - 1]) + Ended(minRms, slices[n - 1])
  }

  /** What one frame publishes: the start or the end of speech with the frame's own time, and right after an
      end the utterance if it is loud enough. */
  lemma FramePublishes(cfg: Config, s: State, i: Input)
    requires cfg.utterance.rate > 0 && Agree(s)
    ensures var t := Process(cfg, s, i);
            && Agree(t)
            && (!s.inSpeech && t.inSpeech ==>
                  t.slices == s.slices && t.published == s.published + [SpeechStarted(i.capturedAt)])
            && (s.inSpeech && !t.inSpeech ==>
                  exists slice: U.Slice ::
                    && slice.endedAt == i.capturedAt && t.slices == s.slices + [slice]
                    && t.published == s.published + Ended(cfg.minRms, slice))
            && (s.inSpeech == t.inSpeech ==> t.slices == s.slices && t.published == s.published)
  {
    hide TooQuiet, SumSquares, U.Append, U.TargetSamples;
    ProcessAgrees(cfg, s, i);
    var b := U.Append(cfg.utterance, s.buffer, i.samples);
    AppendKind(cfg.utterance, s.buffer, i.samples);
    var slice, t := U.SliceOf(cfg.utterance, b, i.capturedAt), Process(cfg, s, i);
    if s.inSpeech && !t.inSpeech {
      assert slice.endedAt == i.capturedAt && t.slices == s.slices + [slice];
      assert t.published == s.published + Ended(cfg.minRms, slice);
    }
  }

  /** Over every run: what was published is one start per utterance, its end, and the utterance right after
      its end exactly if it is loud enough, in order and nothing else. */
  lemma {:induction false} PublishesLoudUtterances(cfg: Config, inputs: seq<Input>) returns (starts: seq<int>)
    requires cfg.utterance.rate > 0
    ensures var s := Run(cfg, inputs);
            && Agree(s)
            && |starts| == |s.slices| + (if s.inSpeech then 1 else 0)
            && s.published == Told(cfg.minRms, starts, s.slices)
  {
    hide Process, Told, Ended, Agree;
    if inputs == [] {
      starts := NothingTold(cfg);
    } else {
      var init, i := inputs[..|inputs| - 1], inputs[|inputs| - 1];
      starts := PublishesLoudUtterances(cfg, init);
      var s := Run(cfg, init);
      FramePublishes(cfg, s, i);
      var t := Process(cfg, s, i);
      if !s.inSpeech && t.inSpeech {
        TellStart(cfg.minRms, starts, s.slices, i.capturedAt);
        starts := starts + [i.capturedAt];
      } else if s.inSpeech && !t.inSpeech {
        TellEnd(cfg.minRms, starts, s.slices, t.slices[|s.slices|]);
      }
    }
  }

  lemma NothingTold(cfg: Config) returns (starts: seq<int>)
    ensures starts == [] && Agree(START) && START.published == Told(cfg.minRms, starts, START.slices)
  {
    starts := [];
  }

  lemma TellStart(minRms: nat, starts: seq<int>, slices: seq<U.Slice>, at: int)
    requires |starts| == |slices|
    ensures Told(minRms, starts + [at], slices) == Told(minRms, starts, slices) + [SpeechStarted(at)]
  {
    assert (starts + [at])[..|slices|] == starts;
    hide Ended;
  }

  lemma TellEnd(minRms: nat, starts: seq<int>, slices: seq<U.Slice>, slice: U.Slice)
    requires |starts| == |slices| + 1
    ensures Told(minRms, starts, slices + [slice]) == Told(minRms, starts, slices) + Ended(minRms, slice)
  {
    assert (slices + [slice])[..|slices|] == slices;
    hide Ended;
  }

  /** The utterances in what was published. */
  function Ready(published: seq<Published>): seq<U.Slice> {
    if published == [] then [] else
    var last := published[|published| - 1];
    Ready(published[..|published| - 1]) + if last.UtteranceReady? then [last.slice] else []
  }

  function Loud(minRms: nat, slices: seq<U.Slice>): seq<U.Slice> {
    if slices == [] then [] else
    var last := slices[|slices| - 1];
    Loud(minRms, slices[..|slices| - 1]) + if TooQuiet(minRms, last.samples) then [] else [last]
  }

  /** Every utterance is announced by the end of speech just before it. */
  ghost predicate Announced(published: seq<Published>) {
    forall k :: 0 <= k < |published| && published[k].UtteranceReady? ==>
      k > 0 && published[k - 1] == SpeechEnded(published[k].slice.endedAt)
  }

  lemma ReadyOneMore(published: seq<Published>, e: Published)
    ensures Ready(published + [e]) == Ready(published) + if e.UtteranceReady? then [e.slice] else []
  {
    assert (published + [e])[..|published|] == published;
  }

  lemma NoneReady()
    ensures Ready([]) == []
  {}

  lemma ReadyEnded(minRms: nat, published: seq<Published>, slice: U.Slice)
    requires Announced(published)
    ensures Ready(published + Ended(minRms, slice)) ==
            Ready(published) + if TooQuiet(minRms, slice.samples) then [] else [slice]
    ensures Announced(published + Ended(minRms, slice))
  {
    hide TooQuiet, Ready;
    var ended := published + [SpeechEnded(slice.endedAt)];
    ReadyOneMore(published, SpeechEnded(slice.endedAt));
    ReadyOneMore(ended, UtteranceReady(slice));
    assert published + Ended(minRms, slice) ==
           if TooQuiet(minRms, slice.samples) then ended else ended + [UtteranceReady(slice)];
  }

  lemma {:induction false} ReadyIsLoud(minRms: nat, starts: seq<int>, slices: seq<U.Slice>)
    requires |slices| <= |starts| <= |slices| + 1
    ensures Ready(Told(minRms, starts, slices)) == Loud(minRms, slices) && Announced(Told(minRms, starts, slices))
    decreases |slices|, |starts|
  {
    hide Ended, Ready;
    var n := |slices|;
    if |starts| > n {
      ReadyIsLoud(minRms, starts[..n], slices);
      ReadyOneMore(Told(minRms, starts[..n], slices), SpeechStarted(starts[n]));
    } else if n > 0 {
      ReadyIsLoud(minRms, starts, slices[..n - 1]);
      ReadyEnded(minRms, Told(minRms, starts, slices[..n - 1]), slices[n - 1]);
    } else {
      NoneReady();
    }
  }

  /** The utterances published are, in order, those not too quiet, each right after the end of speech with
      its own time. */
  lemma AudibleUtterances(cfg: Config, inputs: seq<Input>)
    requires cfg.utterance.rate > 0
    ensures var s := Run(cfg, inputs);
            Ready(s.published) == Loud(cfg.minRms, s.slices) && Announced(s.published)
  {
    hide Run, Ready, Loud, Announced;
    var starts := PublishesLoudUtterances(cfg, inputs);
    ReadyIsLoud(cfg.minRms, starts, Run(cfg, inputs).slices);
  }

  // ----- Which part of the stream an utterance is -----

  /** How many samples came since no utterance was going on. */
  ghost function Idle(cfg: Config, inputs: seq<Input>): (n: nat)
    requires cfg.utterance.rate > 0
    ensures n <= |Stream(inputs)|
  {
    if inputs == [] then 0 else
    var init := inputs[..|inputs| - 1];
    if Run(cfg, inputs).inSpeech || Run(cfg, init).inSpeech then 0
    else Idle(cfg, init) + |inputs[|inputs| - 1].samples|
  }

  lemma StepPadding(cfg: Config, s: State, i: Input, idle: nat)
    requires cfg.utterance.rate > 0 && Agree(s)
    requires !s.inSpeech ==> |s.buffer.pre| == Min(U.PrePadCapacity(cfg.utterance), idle)
    ensures var t := Process(cfg, s, i);
            var more := if s.inSpeech then 0 else idle + |i.samples|;
            !t.inSpeech ==> |t.buffer.pre| == Min(U.PrePadCapacity(cfg.utterance), more)
  {
    hide U.PrePadCapacity, U.TargetSamples, TooQuiet;
  }

  /** The pre-buffer holds what came since the last utterance, up to its capacity. */
  lemma {:induction false} PreBufferHolds(cfg: Config, inputs: seq<Input>)
    requires cfg.utterance.rate > 0
    ensures var s := Run(cfg, inputs);
            !s.inSpeech ==> |s.buffer.pre| == Min(U.PrePadCapacity(cfg.utterance), Idle(cfg, inputs))
  {
    hide Process, U.PrePadCapacity, Agree, Cut, Held;
    if inputs == [] {
      Emptiness(cfg);
    } else {
      var init := inputs[..|inputs| - 1];
      PreBufferHolds(cfg, init);
      RunKeeps(cfg, init);
      StepPadding(cfg, Run(cfg, init), inputs[|inputs| - 1], Idle(cfg, init));
    }
  }

  lemma Emptiness(cfg: Config)
    ensures START.buffer.pre == [] && !START.inSpeech
  {}

  /** A recording of `n` samples under a cap: all of them, or no fewer than the cap. */
  predicate Grown(active: seq<int>, n: int, cap: nat) {
    |active| == n || (0 < cap <= |active| <= n)
  }

  /** Exactly the cap once a frame was added to it. */
  predicate Capped(active: seq<int>, n: int, cap: nat) {
    |active| == if cap > 0 && n > cap then cap else n
  }

  lemma AppendGrows(cfg: U.Config, b: U.Buffer, samples: seq<int>, n: int)
    requires b.recording && samples != [] && Grown(b.active, n, U.CapSamples(cfg))
    ensures var c := U.Append(cfg, b, samples);
            && Grown(c.active, n + |samples|, U.CapSamples(cfg)) && Capped(c.active, n + |samples|, U.CapSamples(cfg))
            && (|c.active| == n + |samples| ==> c.startedAt == b.startedAt && |b.active| == n)
  {
    hide U.CapSamples;
  }

  /** What is known of the recording since the frame `at`. */
  ghost predicate Recording(cfg: Config, inputs: seq<Input>, at: nat, begin: int)
    requires cfg.utterance.rate > 0
  {
    var b := Run(cfg, inputs).buffer;
    && at < |inputs| && !Run(cfg, inputs[..at]).inSpeech
    && (forall m :: at < m <= |inputs| ==> Run(cfg, inputs[..m]).inSpeech)
    && begin == |Stream(inputs[..at + 1])| - Padded(cfg, inputs, at)
    && Grown(b.active, |Stream(inputs)| - begin, U.CapSamples(cfg.utterance))
    && (|b.active| == |Stream(inputs)| - begin ==>
          b.startedAt == inputs[at].capturedAt - cfg.utterance.prePaddingMs * U.MS)
  }

  /** How much of the stream up to and including the frame `at` an utterance begun there has. */
  ghost function Padded(cfg: Config, inputs: seq<Input>, at: nat): nat
    requires cfg.utterance.rate > 0 && at < |inputs|
  {
    Min(U.PrePadCapacity(cfg.utterance), Idle(cfg, inputs[..at]) + |inputs[at].samples|)
  }

  lemma Begins(cfg: Config, s: State, i: Input, idle: nat)
    requires cfg.utterance.rate > 0 && Agree(s) && !s.inSpeech && Process(cfg, s, i).inSpeech
    requires |s.buffer.pre| == Min(U.PrePadCapacity(cfg.utterance), idle)
    ensures var b := Process(cfg, s, i).buffer;
            && |b.active| == Min(U.PrePadCapacity(cfg.utterance), idle + |i.samples|)
            && b.startedAt == i.capturedAt - cfg.utterance.prePaddingMs * U.MS
  {
    hide U.PrePadCapacity, U.TargetSamples, TooQuiet;
  }

  lemma Continues(cfg: Config, s: State, i: Input)
    requires cfg.utterance.rate > 0 && Agree(s) && s.inSpeech && Process(cfg, s, i).inSpeech
    ensures s.buffer.recording
    ensures Process(cfg, s, i).buffer ==
            if i.samples == [] then s.buffer else U.Append(cfg.utterance, s.buffer, i.samples)
  {
    hide TooQuiet, U.CapSamples, U.Append;
  }

  lemma RunOneMore(cfg: Config, inputs: seq<Input>, i: Input)
    requires cfg.utterance.rate > 0
    ensures Run(cfg, inputs + [i]) == Process(cfg, Run(cfg, inputs), i)
    ensures Stream(inputs + [i]) == Stream(inputs) + i.samples
  {
    hide Process;
    assert (inputs + [i])[..|inputs|] == inputs;
  }

  lemma RecordingBegins(cfg: Config, inputs: seq<Input>, i: Input)
    requires cfg.utterance.rate > 0 && !Run(cfg, inputs).inSpeech && Run(cfg, inputs + [i]).inSpeech
    ensures Recording(cfg, inputs + [i], |inputs|, |Stream(inputs + [i])| - Padded(cfg, inputs + [i], |inputs|))
  {
    hide Process, Run, U.PrePadCapacity, U.CapSamples, Cut, Held, Agree, Stream, Idle;
    var now := inputs + [i];
    assert now[..|inputs|] == inputs && now[..|now|] == now;
    RunOneMore(cfg, inputs, i);
    RunKeeps(cfg, inputs);
    PreBufferHolds(cfg, inputs);
    Begins(cfg, Run(cfg, inputs), i, Idle(cfg, inputs));
  }

  lemma RecordingGoesOn(cfg: Config, inputs: seq<Input>, i: Input, at: nat, begin: int)
    requires cfg.utterance.rate > 0 && Recording(cfg, inputs, at, begin) && Run(cfg, inputs + [i]).inSpeech
    ensures Recording(cfg, inputs + [i], at, begin)
  {
    hide Process, Run, U.PrePadCapacity, U.CapSamples, U.Append, Cut, Held, Agree, Stream, Idle, Grown, Capped;
    var now := inputs + [i];
    assert now[..|inputs|] == inputs && inputs[..|inputs|] == inputs && now[..|now|] == now;
    RunOneMore(cfg, inputs, i);
    RunKeeps(cfg, inputs);
    Continues(cfg, Run(cfg, inputs), i);
    var n := |Stream(inputs)| - begin;
    if i.samples != [] { AppendGrows(cfg.utterance, Run(cfg, inputs).buffer, i.samples, n); }
    assert now[..at] == inputs[..at] && now[..at + 1] == inputs[..at + 1];
    forall m | at < m <= |now| ensures Run(cfg, now[..m]).inSpeech {
      if m <= |inputs| { assert now[..m] == inputs[..m]; }
    }
  }

  /** While an utterance goes on there is a frame at which it began. */
  lemma {:induction false} RecordingHolds(cfg: Config, inputs: seq<Input>) returns (at: nat, begin: int)
    requires cfg.utterance.rate > 0 && Run(cfg, inputs).inSpeech
    ensures Recording(cfg, inputs, at, begin)
  {
    hide Process, Recording;
    var init, i := inputs[..|inputs| - 1], inputs[|inputs| - 1];
    assert inputs == init + [i];
    if Run(cfg, init).inSpeech {
      at, begin := RecordingHolds(cfg, init);
      RecordingGoesOn(cfg, init, i, at, begin);
    } else {
      at, begin := |init|, |Stream(inputs)| - Padded(cfg, inputs, |init|);
      RecordingBegins(cfg, init, i);
    }
  }

  /** The samples in the time from `startedAt` to `endedAt` and the post-padding. */
  function PaddedSamples(cfg: U.Config, startedAt: int, endedAt: int): nat
    requires startedAt <= endedAt
  {
    cfg.rate * ((endedAt - startedAt) / U.MS + cfg.postPaddingMs) / 1000
  }

  lemma TargetIsPadded(cfg: U.Config, b: U.Buffer, endedAt: int)
    requires b.startedAt <= endedAt
    requires cfg.rate * ((endedAt - b.startedAt) / U.MS + cfg.postPaddingMs) < U.WORD && cfg.rate > 0
    ensures U.TargetSamples(cfg, b, endedAt) == PaddedSamples(cfg, b.startedAt, endedAt)
  {
    var ms := (endedAt - b.startedAt) / U.MS + cfg.postPaddingMs;
    NoWrap(cfg.rate, ms);
  }

  lemma NoWrap(rate: nat, ms: nat)
    requires 0 < rate && rate * ms < U.WORD
    ensures rate * (ms % U.WORD) % U.WORD == rate * ms
  {
    assert ms <= rate * ms by { M.Ordered(1, rate, ms + 1); }
    M.Divide(ms, U.WORD, 0, ms);
    M.Divide(rate * ms, U.WORD, 0, rate * ms);
  }

  /** The end of a stream, or its first `target` samples. */
  lemma SliceStands(stream: seq<int>, active: seq<int>, target: nat)
    requires Suffix(active, stream)
    ensures var from := |stream| - |active|;
            var cut := if 0 < target < |active| then active[..target] else active;
            cut == stream[from..if 0 < target < |active| then from + target else |stream|]
  {}

  lemma Ends(cfg: Config, s: State, i: Input)
    requires cfg.utterance.rate > 0 && Agree(s) && s.inSpeech && !Process(cfg, s, i).inSpeech
    ensures s.buffer.recording && i.samples != []
    ensures var b := U.Append(cfg.utterance, s.buffer, i.samples);
            Process(cfg, s, i).slices == s.slices + [U.SliceOf(cfg.utterance, b, i.capturedAt)]
  {
    hide TooQuiet, U.CapSamples, U.Append, U.TargetSamples;
    AppendKind(cfg.utterance, s.buffer, i.samples);
  }

  /** How far a slice goes: the stream's end, or as long as the padded duration lasts. */
  ghost predicate EndsWell(cfg: Config, slice: U.Slice, from: int, to: int, end: int) {
    slice.startedAt <= slice.endedAt
    && cfg.utterance.rate * ((slice.endedAt - slice.startedAt) / U.MS + cfg.utterance.postPaddingMs) < U.WORD ==>
      var padded := PaddedSamples(cfg.utterance, slice.startedAt, slice.endedAt);
      to == if 0 < padded < end - from then from + padded else end
  }

  lemma CutEndsWell(cfg: Config, b: U.Buffer, endedAt: int, end: int)
    requires cfg.utterance.rate > 0
    ensures var slice, from := U.SliceOf(cfg.utterance, b, endedAt), end - |b.active|;
            EndsWell(cfg, slice, from, from + |slice.samples|, end)
  {
    hide U.TargetSamples, PaddedSamples;
    if b.startedAt <= endedAt
       && cfg.utterance.rate * ((endedAt - b.startedAt) / U.MS + cfg.utterance.postPaddingMs) < U.WORD {
      TargetIsPadded(cfg.utterance, b, endedAt);
    }
  }

  lemma SliceOfEnd(cfg: Config, s: State, i: Input, before: seq<int>, cutTo: nat, begin: int)
    returns (slice: U.Slice, from: nat, to: nat)
    requires cfg.utterance.rate > 0 && Agree(s) && s.inSpeech && !Process(cfg, s, i).inSpeech
    requires Held(s.buffer, before, cutTo) && Grown(s.buffer.active, |before| - begin, U.CapSamples(cfg.utterance))
    ensures var stream, cap := before + i.samples, U.CapSamples(cfg.utterance);
            && from <= to <= |stream| && slice.samples == stream[from..to]
            && from == (if cap > 0 && |stream| - begin > cap then |stream| - cap else begin)
            && EndsWell(cfg, slice, from, to, |stream|)
    ensures Process(cfg, s, i).slices == s.slices + [slice] && slice.endedAt == i.capturedAt
    ensures from == begin ==> |s.buffer.active| == |before| - begin && slice.startedAt == s.buffer.startedAt
  {
    hide Process, U.CapSamples, U.Append, Grown, U.TargetSamples, EndsWell;
    Ends(cfg, s, i);
    AppendGrows(cfg.utterance, s.buffer, i.samples, |before| - begin);
    AppendHeld(cfg.utterance, s.buffer, i.samples, before, cutTo);
    var stream, b := before + i.samples, U.Append(cfg.utterance, s.buffer, i.samples);
    slice := U.SliceOf(cfg.utterance, b, i.capturedAt);
    from, to := |stream| - |b.active|, |stream| - |b.active| + |slice.samples|;
    SliceStands(stream, b.active, U.TargetSamples(cfg.utterance, b, i.capturedAt));
    CutEndsWell(cfg, b, i.capturedAt, |stream|);
  }

  /** Where the slice of an utterance that began at the frame `at` stands in the stream: from the onset back by
      the padding, or by the cap from the stream's end if that is later; up to the stream's end, or as long as
      the padded duration lasts. It is timed from the onset less the padding unless the cap moved it. */
  lemma SliceBounds(cfg: Config, inputs: seq<Input>, i: Input)
    returns (slice: U.Slice, at: nat, from: nat, to: nat)
    requires cfg.utterance.rate > 0 && Run(cfg, inputs).inSpeech && !Run(cfg, inputs + [i]).inSpeech
    ensures at < |inputs| && !Run(cfg, inputs[..at]).inSpeech
    ensures forall m :: at < m <= |inputs| ==> Run(cfg, inputs[..m]).inSpeech
    ensures var stream, cap := Stream(inputs + [i]), U.CapSamples(cfg.utterance);
            var begin := |Stream(inputs[..at + 1])| - Padded(cfg, inputs, at);
            && from <= to <= |stream| && slice.samples == stream[from..to]
            && from == (if cap > 0 && |stream| - begin > cap then |stream| - cap else begin)
            && EndsWell(cfg, slice, from, to, |stream|)
            && (from == begin ==> slice.startedAt == inputs[at].capturedAt - cfg.utterance.prePaddingMs * U.MS)
    ensures Run(cfg, inputs + [i]).slices == Run(cfg, inputs).slices + [slice] && slice.endedAt == i.capturedAt
  {
    hide Process, Run, U.CapSamples, Held, Cut, Agree, Stream, Spans, Grown, Padded, EndsWell;
    var begin;
    at, begin := RecordingHolds(cfg, inputs);
    RunOneMore(cfg, inputs, i);
    RunKeeps(cfg, inputs);
    slice, from, to :=
      SliceOfEnd(cfg, Run(cfg, inputs), i, Stream(inputs), CutTo(Spans(cfg, inputs)), begin);
  }
}
