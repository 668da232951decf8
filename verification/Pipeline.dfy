/** AudioPipeline::process_frame of src/audio/pipeline.cpp, which drives the endpointer and the
    utterance buffer. The resampler's output, the voice probability and the cleaning of one 10 ms block are
    inputs. */
module Pipeline {
  import E = Endpointer
  import M = Modular
  import U = Utterance
  import opened Audio
  import opened Wrappers

  /** A `minRms` of 0 turns the loudness gate off. */
  datatype Config = Config(endpointer: E.Config, utterance: U.Config, minRms: nat)

  /** One processed frame. */
  datatype Input = Input(samples: seq<int>, p: real, capturedAt: int)

  datatype Published = SpeechStarted(ts: int) | SpeechEnded(ts: int) | UtteranceReady(slice: U.Slice)

  datatype State = State(
    ep: E.Ep, buffer: U.Buffer, inSpeech: bool, live: seq<int>, slices: seq<U.Slice>, published: seq<Published>)

  const START: State := State(E.RESET, U.EMPTY, false, [], [], [])

  function FrameMs(cfg: Config, samples: seq<int>): nat
    requires cfg.utterance.rate > 0
  {
    |samples| * 1000 / cfg.utterance.rate
  }

  /** Whole milliseconds, rounded down. */
  lemma FrameMsRounds(cfg: Config, samples: seq<int>)
    requires cfg.utterance.rate > 0
    ensures var ms, rate := FrameMs(cfg, samples), cfg.utterance.rate;
            ms * rate <= |samples| * 1000 < ms * rate + rate
  {
    var n, rate := |samples| * 1000, cfg.utterance.rate;
    assert n == n / rate * rate + n % rate;
  }

  // ----- The loudness gate -----

  function SumSquares(samples: seq<int>): (sum: nat)
    ensures sum == 0 <==> forall k :: 0 <= k < |samples| ==> samples[k] == 0
  {
    if samples == [] then 0
    else
      var last := samples[|samples| - 1];
      Squared(last);
      SumSquares(samples[..|samples| - 1]) + last * last
  }

  lemma Squared(x: int)
    ensures x * x >= 0 && (x * x == 0 <==> x == 0)
  {}

  /** The root of the mean square is below the limit. */
  predicate TooQuiet(minRms: nat, samples: seq<int>) {
    minRms > 0 && samples != [] && SumSquares(samples) < minRms * minRms * |samples|
  }

  method IsTooQuiet(minRms: nat, samples: seq<int>) returns (drop: bool)
    ensures drop == TooQuiet(minRms, samples)
  {
    drop := false;
    if minRms > 0 && samples != [] {
      var sumSq := 0;
      for i := 0 to |samples|
        invariant sumSq == SumSquares(samples[..i])
      {
        assert samples[..i + 1][..i] == samples[..i];
        var v := samples[i];
        sumSq := sumSq + v * v;
      }
      assert samples[..|samples|] == samples;
      if sumSq < minRms * minRms * |samples| { drop := true; }
    }
  }

  lemma {:induction false} SquaresAdd(a: seq<int>, b: seq<int>)
    ensures SumSquares(a + b) == SumSquares(a) + SumSquares(b)
  {
    if b == [] {
      assert a + b == a;
    } else {
      assert (a + b)[..|a + b| - 1] == a + b[..|b| - 1];
      SquaresAdd(a, b[..|b| - 1]);
    }
  }

  /** What the limit says for `rms`, the root of the mean square. */
  lemma QuietIsBelowRms(minRms: nat, samples: seq<int>, rms: real)
    requires samples != [] && rms >= 0.0
    requires rms * rms * |samples| as real == SumSquares(samples) as real
    ensures TooQuiet(minRms, samples) <==> minRms > 0 && rms < minRms as real
  {
    hide SumSquares;
    BelowRms(SumSquares(samples), minRms, |samples|, rms);
  }

  lemma BelowRms(sum: nat, m: nat, n: nat, rms: real)
    requires n > 0 && rms >= 0.0 && rms * rms * n as real == sum as real
    ensures sum < m * m * n <==> rms < m as real
  {
    AsReals(m, n);
    RootOrder(rms, m as real, n as real);
    SameOrder(sum, m * m * n);
  }

  lemma SameOrder(x: nat, y: nat)
    ensures x < y <==> x as real < y as real
  {}

  lemma AsReals(m: nat, n: nat)
    ensures (m * m * n) as real == m as real * m as real * n as real
  {
    RealProduct(m, m);
    RealProduct(m * m, n);
  }

  lemma {:induction false} RealProduct(x: nat, y: nat)
    ensures (x * y) as real == x as real * y as real
  {
    if y > 0 {
      RealProduct(x, y - 1);
      assert x * y == x * (y - 1) + x;
    }
  }

  lemma Squares(a: real, b: real)
    requires 0.0 <= a < b
    ensures a * a < b * b
  {
    var d := b - a;
    assert b * b == (a + d) * (a + d) == a * a + 2.0 * (a * d) + d * d;
  }

  lemma RootOrder(a: real, b: real, n: real)
    requires a >= 0.0 && b >= 0.0 && n > 0.0
    ensures a * a * n < b * b * n <==> a < b
  {
    if a < b {
      Squares(a, b);
      Scale(a * a, b * b, n);
    } else if b < a {
      Squares(b, a);
      Scale(b * b, a * a, n);
    }
  }

  lemma Scale(x: real, y: real, n: real)
    requires x < y && n > 0.0
    ensures x * n < y * n
  {}

  // ----- One frame -----

  /** `live` is what the streaming recogniser was given since the last start of speech. */
  function Process(cfg: Config, s: State, i: Input): State
    requires cfg.utterance.rate > 0
  {
    if i.samples == [] then s else
    var buffer := U.Append(cfg.utterance, s.buffer, i.samples);
    var live := if s.inSpeech then s.live + i.samples else s.live;
    var (ep, outcome) := E.OnFrame(cfg.endpointer, s.ep, i.p, FrameMs(cfg, i.samples), i.capturedAt);
    match outcome
    case SpeechStarted =>
      State(ep, U.SpeechStarts(buffer, i.capturedAt - cfg.utterance.prePaddingMs * U.MS), true,
            buffer.pre + i.samples, s.slices, s.published + [SpeechStarted(i.capturedAt)])
    case SpeechEnded =>
      var (b, slice) := U.SpeechEnds(cfg.utterance, buffer, i.capturedAt);
      var ended := s.published + [SpeechEnded(i.capturedAt)];
      if slice.None? then State(ep, b, false, live, s.slices, ended)
      else State(ep, b, false, live, s.slices + [slice.value],
                 if TooQuiet(cfg.minRms, slice.value.samples) then ended else ended + [UtteranceReady(slice.value)])
    case _ => State(ep, buffer, s.inSpeech, live, s.slices, s.published)
  }

  class AudioPipeline {
    const cfg: Config
    const endpointer: E.Endpointer
    const utterance: U.UtteranceBuffer
    const apmFrame: nat
    var inSpeech: bool
    var live: seq<int>
    var slices: seq<U.Slice>
    var published: seq<Published>
    var apmCarry: seq<int>

    ghost predicate Valid() {
      && cfg.utterance.rate > 0 && 0 < apmFrame
      && endpointer.cfg == cfg.endpointer && utterance.cfg == cfg.utterance
    }

    function View(): State
      reads this, endpointer, utterance
    {
      State(endpointer.View(), utterance.View(), inSpeech, live, slices, published)
    }

    constructor (c: Config)
      requires c.utterance.rate >= 100
      ensures Valid() && View() == START && cfg == c && apmCarry == []
      ensures fresh(endpointer) && fresh(utterance)
    {
      cfg := c;
      endpointer := new E.Endpointer(c.endpointer);
      utterance := new U.UtteranceBuffer(c.utterance);
      apmFrame := c.utterance.rate / 100;
      inSpeech, live, slices, published, apmCarry := false, [], [], [], [];
    }

    method ProcessFrame(samples: seq<int>, p: real, capturedAt: int)
      requires Valid()
      modifies this, endpointer, utterance
      ensures View() == Process(cfg, old(View()), Input(samples, p, capturedAt))
      ensures apmCarry == old(apmCarry)
    {
      if samples == [] { return; }
      utterance.AppendSamples(samples);
      if inSpeech { live := live + samples; }
      var frameDur := |samples| * 1000 / cfg.utterance.rate;
      var outcome := endpointer.FrameIn(p, frameDur, capturedAt);
      match outcome {
        case Nothing =>
        case SpeechStarted =>
          var prePadStart := capturedAt - cfg.utterance.prePaddingMs * U.MS;
          var prePad := utterance.preBuffer;
          utterance.OnSpeechStarted(prePadStart);
          inSpeech := true;
          live := prePad + samples;
          published := published + [SpeechStarted(capturedAt)];
        case FalseStart =>
        case SpeechEnded =>
          var slice := utterance.OnSpeechEnded(capturedAt);
          inSpeech := false;
          published := published + [SpeechEnded(capturedAt)];
          if slice.Some? {
            slices := slices + [slice.value];
            var tooQuiet := IsTooQuiet(cfg.minRms, slice.value.samples);
            if !tooQuiet { published := published + [UtteranceReady(slice.value)]; }
          }
      }
    }

    /** The carry loop before echo cancellation: whole blocks are taken off, the rest waits. */
    method TakeBlocks(resampled: seq<int>) returns (blocks: seq<seq<int>>)
      requires Valid()
      modifies this`apmCarry
      ensures (apmCarry, blocks) == Reblocked(old(apmCarry) + resampled, apmFrame)
    {
      apmCarry := apmCarry + resampled;
      blocks := [];
      var off := 0;
      assert apmCarry[0..] == apmCarry;
      NothingBefore(Reblocked(apmCarry, apmFrame).1);
      while |apmCarry| - off >= apmFrame
        invariant 0 <= off <= |apmCarry| && apmCarry == old(apmCarry) + resampled
        invariant Reblocked(apmCarry, apmFrame).0 == Reblocked(apmCarry[off..], apmFrame).0
        invariant Reblocked(apmCarry, apmFrame).1 == blocks + Reblocked(apmCarry[off..], apmFrame).1
      {
        ghost var rest := apmCarry[off..];
        assert rest[..apmFrame] == apmCarry[off..off + apmFrame] && rest[apmFrame..] == apmCarry[off + apmFrame..];
        var chunk := apmCarry[off..off + apmFrame];
        BlocksAssociate(blocks, chunk, Reblocked(rest[apmFrame..], apmFrame).1);
        blocks := blocks + [chunk];
        off := off + apmFrame;
      }
      NothingBefore(blocks);
      apmCarry := apmCarry[off..];
    }
  }

  // ----- Re-blocking -----

  /** What is left after cutting blocks of `n` samples off the front, and the blocks. */
  function Reblocked(samples: seq<int>, n: nat): (seq<int>, seq<seq<int>>)
    requires 0 < n
    decreases |samples|
  {
    if |samples| < n then (samples, []) else
    var (rest, blocks) := Reblocked(samples[n..], n);
    (rest, [samples[..n]] + blocks)
  }

  lemma NothingBefore(blocks: seq<seq<int>>)
    ensures [] + blocks == blocks && blocks + [] == blocks
  {}

  lemma BlocksAssociate(a: seq<seq<int>>, x: seq<int>, b: seq<seq<int>>)
    ensures a + ([x] + b) == a + [x] + b
  {}

  function Concat(blocks: seq<seq<int>>): seq<int> {
    if blocks == [] then [] else blocks[0] + Concat(blocks[1..])
  }

  /** The carry and all blocks after a sequence of resampler outputs. */
  function ReblockAll(inputs: seq<seq<int>>, n: nat): (seq<int>, seq<seq<int>>)
    requires 0 < n
  {
    if inputs == [] then ([], []) else
    var (carry, blocks) := ReblockAll(inputs[..|inputs| - 1], n);
    var (rest, more) := Reblocked(carry + inputs[|inputs| - 1], n);
    (rest, blocks + more)
  }

  lemma {:induction false} ReblockedKeeps(samples: seq<int>, n: nat)
    requires 0 < n
    ensures var (rest, blocks) := Reblocked(samples, n);
            && Concat(blocks) + rest == samples && |rest| < n
            && forall i :: 0 <= i < |blocks| ==> |blocks[i]| == n
    decreases |samples|
  {
    if |samples| >= n {
      ReblockedKeeps(samples[n..], n);
      assert samples == samples[..n] + samples[n..];
    }
  }

  lemma {:induction false} ConcatAppend(a: seq<seq<int>>, b: seq<seq<int>>)
    ensures Concat(a + b) == Concat(a) + Concat(b)
  {
    if a == [] {
      assert a + b == b;
    } else {
      assert (a + b)[1..] == a[1..] + b;
      ConcatAppend(a[1..], b);
    }
  }

  /** However the resampler cuts its output, the blocks and the carry are that output, in order;
      every block has exactly the size the echo canceller asks for, and the carry is shorter. */
  lemma {:induction false} ReblockingConserves(inputs: seq<seq<int>>, n: nat)
    requires 0 < n
    ensures var (carry, blocks) := ReblockAll(inputs, n);
            && Concat(blocks) + carry == Concat(inputs) && |carry| < n
            && forall i :: 0 <= i < |blocks| ==> |blocks[i]| == n
  {
    hide Reblocked;
    if inputs != [] {
      var init, last := inputs[..|inputs| - 1], inputs[|inputs| - 1];
      ReblockingConserves(init, n);
      var (carry, blocks) := ReblockAll(init, n);
      ReblockedKeeps(carry + last, n);
      var (rest, more) := Reblocked(carry + last, n);
      ConcatAppend(blocks, more);
      ConcatAppend(init, [last]);
      assert inputs == init + [last] && Concat([last]) == last + [];
      Regroup(Concat(blocks), Concat(more), rest, carry, last);
    }
  }

  lemma Regroup(a: seq<int>, b: seq<int>, rest: seq<int>, carry: seq<int>, last: seq<int>)
    requires b + rest == carry + last
    ensures a + b + rest == a + carry + (last + [])
  {
    assert a + b + rest == a + (b + rest);
  }

  // ----- Runs -----

  function Run(cfg: Config, inputs: seq<Input>): State
    requires cfg.utterance.rate > 0
  {
    if inputs == [] then START else Process(cfg, Run(cfg, inputs[..|inputs| - 1]), inputs[|inputs| - 1])
  }

  /** The processed stream: every sample that reached the utterance buffer. */
  function Stream(inputs: seq<Input>): seq<int> {
    if inputs == [] then [] else Stream(inputs[..|inputs| - 1]) + inputs[|inputs| - 1].samples
  }

  datatype Span = Span(from: nat, to: nat)

  /** Where in the stream each slice was cut from. */
  function Spans(cfg: Config, inputs: seq<Input>): seq<Span>
    requires cfg.utterance.rate > 0
  {
    if inputs == [] then [] else
    var init := inputs[..|inputs| - 1];
    var before, after := Run(cfg, init), Run(cfg, inputs);
    if |after.slices| == |before.slices| then Spans(cfg, init)
    else
      var held := |U.Append(cfg.utterance, before.buffer, inputs[|inputs| - 1].samples).active|;
      var from := |Stream(inputs)| - held;
      Spans(cfg, init) + [if from < 0 then Span(0, 0) else Span(from, from + |after.slices[|after.slices| - 1].samples|)]
  }

  ghost predicate Suffix(part: seq<int>, whole: seq<int>) {
    |part| <= |whole| && part == whole[|whole| - |part|..]
  }

  predicate Talking(s: E.EpState) { s == E.Speaking || s == E.Endpoint }

  /** The three notions of being in an utterance agree. */
  ghost predicate Agree(s: State) {
    && s.inSpeech == s.buffer.recording == Talking(s.ep.state)
    && (s.buffer.recording ==> s.buffer.pre == []) && (!s.buffer.recording ==> s.buffer.active == [])
  }

  lemma ProcessAgrees(cfg: Config, s: State, i: Input)
    requires cfg.utterance.rate > 0 && Agree(s)
    ensures Agree(Process(cfg, s, i))
  {}

  /** What the buffer holds is the end of the stream, after everything already cut out. */
  ghost predicate Held(b: U.Buffer, stream: seq<int>, cutTo: nat) {
    && Suffix(b.pre, stream) && Suffix(b.active, stream)
    && cutTo + |b.pre| <= |stream| && cutTo + |b.active| <= |stream|
  }

  lemma SuffixOfSuffix(part: seq<int>, samples: seq<int>, whole: seq<int>, n: nat)
    requires Suffix(part, whole)
    ensures Suffix(part + samples, whole + samples)
    ensures Suffix(U.Last(part + samples, n), whole + samples)
  {}

  lemma AppendHeld(cfg: U.Config, b: U.Buffer, samples: seq<int>, stream: seq<int>, cutTo: nat)
    requires Held(b, stream, cutTo) && (b.recording ==> b.pre == []) && (!b.recording ==> b.active == [])
    ensures Held(U.Append(cfg, b, samples), stream + samples, cutTo)
    ensures samples != [] && b.recording && U.CapSamples(cfg) > 0 ==>
              |U.Append(cfg, b, samples).active| <= U.CapSamples(cfg)
  {
    hide U.CapSamples, U.PrePadCapacity;
    SuffixOfSuffix(b.active, samples, stream, U.CapSamples(cfg));
    SuffixOfSuffix(b.pre, samples, stream, U.PrePadCapacity(cfg));
  }

  ghost predicate IsSpanOf(samples: seq<int>, stream: seq<int>, span: Span) {
    span.from <= span.to <= |stream| && samples == stream[span.from..span.to]
  }

  /** The slices are the stream between their spans, which follow one another and respect the cap. */
  ghost predicate Cut(cfg: Config, slices: seq<U.Slice>, spans: seq<Span>, stream: seq<int>) {
    && |slices| == |spans|
    && (forall k :: 0 <= k < |spans| ==> IsSpanOf(slices[k].samples, stream, spans[k]))
    && (forall k :: 0 < k < |spans| ==> spans[k - 1].to <= spans[k].from)
    && (U.CapSamples(cfg.utterance) > 0 ==>
          forall k :: 0 <= k < |spans| ==> spans[k].to - spans[k].from <= U.CapSamples(cfg.utterance))
  }

  function CutTo(spans: seq<Span>): nat {
    if spans == [] then 0 else spans[|spans| - 1].to
  }

  lemma CutGrows(cfg: Config, slices: seq<U.Slice>, spans: seq<Span>, stream: seq<int>, more: seq<int>)
    requires Cut(cfg, slices, spans, stream)
    ensures Cut(cfg, slices, spans, stream + more)
  {}

  lemma OneMoreSlice(cfg: Config, slices: seq<U.Slice>, spans: seq<Span>, stream: seq<int>, b: U.Buffer, at: int)
    requires Cut(cfg, slices, spans, stream) && Held(b, stream, CutTo(spans))
    requires U.CapSamples(cfg.utterance) > 0 ==> |b.active| <= U.CapSamples(cfg.utterance)
    ensures var slice, from := U.SliceOf(cfg.utterance, b, at), |stream| - |b.active|;
            Cut(cfg, slices + [slice], spans + [Span(from, from + |slice.samples|)], stream)
            && from + |slice.samples| <= |stream|
  {
    hide U.CapSamples, U.TargetSamples;
  }

  /** The invariant of every run. */
  lemma {:induction false} RunKeeps(cfg: Config, inputs: seq<Input>)
    requires cfg.utterance.rate > 0
    ensures var s, spans, stream := Run(cfg, inputs), Spans(cfg, inputs), Stream(inputs);
            && Agree(s)
            && Cut(cfg, s.slices, spans, stream)
            && Held(s.buffer, stream, CutTo(spans))
  {
    hide Process, Cut, Held, Agree, U.Append;
    if inputs == [] {
      StartKeeps(cfg);
    } else {
      var init, i := inputs[..|inputs| - 1], inputs[|inputs| - 1];
      RunKeeps(cfg, init);
      StepKeeps(cfg, Run(cfg, init), i, Spans(cfg, init), Stream(init));
    }
  }

  lemma StartKeeps(cfg: Config)
    ensures Agree(START) && Cut(cfg, START.slices, [], []) && Held(START.buffer, [], CutTo([]))
  {}

  lemma StepKeeps(cfg: Config, s: State, i: Input, spans: seq<Span>, stream: seq<int>)
    requires cfg.utterance.rate > 0 && Agree(s)
    requires Cut(cfg, s.slices, spans, stream) && Held(s.buffer, stream, CutTo(spans))
    ensures var t, now := Process(cfg, s, i), stream + i.samples;
            var b := U.Append(cfg.utterance, s.buffer, i.samples);
            && Agree(t) && |b.active| <= |now|
            && (|t.slices| == |s.slices| ==> Cut(cfg, t.slices, spans, now) && Held(t.buffer, now, CutTo(spans)))
            && (|t.slices| != |s.slices| ==>
                  var from := |now| - |b.active|;
                  var spans' := spans + [Span(from, from + |t.slices[|t.slices| - 1].samples|)];
                  Cut(cfg, t.slices, spans', now) && Held(t.buffer, now, CutTo(spans')))
  {
    hide U.CapSamples, U.Append, U.SliceOf, Cut;
    ProcessAgrees(cfg, s, i);
    CutGrows(cfg, s.slices, spans, stream, i.samples);
    AppendHeld(cfg.utterance, s.buffer, i.samples, stream, CutTo(spans));
    assert stream + [] == stream;
    var b := U.Append(cfg.utterance, s.buffer, i.samples);
    AppendKind(cfg.utterance, s.buffer, i.samples);
    if b.recording && i.samples != [] { OneMoreSlice(cfg, s.slices, spans, stream + i.samples, b, i.capturedAt); }
  }

  lemma AppendKind(cfg: U.Config, b: U.Buffer, samples: seq<int>)
    ensures var c := U.Append(cfg, b, samples);
            && c.recording == b.recording
            && (b.recording ==> c.pre == b.pre) && (!b.recording ==> c.active == b.active)
  {}

  /** Every utterance slice is a contiguous piece of the processed stream; successive pieces do not
      overlap and come in order; none is longer than the cap. */
  lemma SlicesAreDisjointIntervals(cfg: Config, inputs: seq<Input>)
    requires cfg.utterance.rate > 0
    ensures var slices, spans, stream := Run(cfg, inputs).slices, Spans(cfg, inputs), Stream(inputs);
            && |slices| == |spans|
            && (forall k :: 0 <= k < |spans| ==> IsSpanOf(slices[k].samples, stream, spans[k]))
            && (forall j, k :: 0 <= j < k < |spans| ==> spans[j].to <= spans[k].from)
            && (U.CapSamples(cfg.utterance) > 0 ==>
                  forall k :: 0 <= k < |slices| ==> |slices[k].samples| <= U.CapSamples(cfg.utterance))
  {
    hide Run, Stream, Spans;
    RunKeeps(cfg, inputs);
    var spans := Spans(cfg, inputs);
    forall j, k | 0 <= j < k < |spans| ensures spans[j].to <= spans[k].from {
      InOrder(spans, j, k, |Stream(inputs)|);
    }
  }

  lemma {:induction false} InOrder(spans: seq<Span>, j: nat, k: nat, n: nat)
    requires j < k < |spans|
    requires forall i :: 0 <= i < |spans| ==> spans[i].from <= spans[i].to <= n
    requires forall i :: 0 < i < |spans| ==> spans[i - 1].to <= spans[i].from
    ensures spans[j].to <= spans[k].from
  {
    if j + 1 < k { InOrder(spans, j, k - 1, n); }
  }

  // ----- Starts and ends of speech -----

  function SpeechEvents(published: seq<Published>): seq<Published> {
    if published == [] then [] else
    var last := published[|published| - 1];
    SpeechEvents(published[..|published| - 1]) + if last.UtteranceReady? then [] else [last]
  }

  /** Starts and ends alternate, beginning with a start. */
  ghost predicate Alternates(es: seq<Published>) {
    forall k :: 0 <= k < |es| ==> if k % 2 == 0 then es[k].SpeechStarted? else es[k].SpeechEnded?
  }

  ghost predicate Nondecreasing(inputs: seq<Input>) {
    forall j, k :: 0 <= j < k < |inputs| ==> inputs[j].capturedAt <= inputs[k].capturedAt
  }

  function TimeOf(e: Published): int {
    if e.UtteranceReady? then e.slice.endedAt else e.ts
  }

  lemma SpeechEventsAppend(published: seq<Published>, e: Published)
    ensures SpeechEvents(published + [e]) == SpeechEvents(published) + if e.UtteranceReady? then [] else [e]
  {
    assert (published + [e])[..|published|] == published;
  }

  /** What one frame adds to the starts and ends. */
  lemma StepSpeechEvents(cfg: Config, s: State, i: Input)
    requires cfg.utterance.rate > 0 && Agree(s)
    ensures var t := Process(cfg, s, i);
            SpeechEvents(t.published) == SpeechEvents(s.published) +
              if t.inSpeech == s.inSpeech then []
              else if t.inSpeech then [SpeechStarted(i.capturedAt)] else [SpeechEnded(i.capturedAt)]
  {
    hide U.Append, SpeechEvents;
    var started, ended := SpeechStarted(i.capturedAt), SpeechEnded(i.capturedAt);
    SpeechEventsAppend(s.published, started);
    SpeechEventsAppend(s.published, ended);
    var b := U.Append(cfg.utterance, s.buffer, i.samples);
    SpeechEventsAppend(s.published + [ended], UtteranceReady(U.SliceOf(cfg.utterance, b, i.capturedAt)));
  }

  lemma AddEvent(es: seq<Published>, e: Published)
    requires Alternates(es) && (if |es| % 2 == 0 then e.SpeechStarted? else e.SpeechEnded?)
    ensures Alternates(es + [e])
  {}

  /** Between frames the pipeline's flag, the buffer and the endpointer agree on whether an utterance
      is running, so starts and ends of speech strictly alternate. */
  lemma {:induction false} SpeechAlternates(cfg: Config, inputs: seq<Input>)
    requires cfg.utterance.rate > 0
    ensures var s := Run(cfg, inputs);
            var es := SpeechEvents(s.published);
            && s.inSpeech == s.buffer.recording == (s.ep.state == E.Speaking || s.ep.state == E.Endpoint)
            && Alternates(es) && (s.inSpeech <==> |es| % 2 == 1)
  {
    hide Process, SpeechEvents, U.Append, Alternates, Cut, Held;
    RunKeeps(cfg, inputs);
    if inputs == [] {
      NoSpeechEvents();
    } else {
      var init, i := inputs[..|inputs| - 1], inputs[|inputs| - 1];
      SpeechAlternates(cfg, init);
      RunKeeps(cfg, init);
      StepSpeechEvents(cfg, Run(cfg, init), i);
      var es := SpeechEvents(Run(cfg, init).published);
      assert es + [] == es;
      if |es| % 2 == 0 { AddEvent(es, SpeechStarted(i.capturedAt)); } else { AddEvent(es, SpeechEnded(i.capturedAt)); }
    }
  }

  /** The times go up, and not past `t`. */
  ghost predicate InTime(es: seq<Published>, t: int) {
    && (forall j, k :: 0 <= j < k < |es| ==> TimeOf(es[j]) <= TimeOf(es[k]))
    && (forall k :: 0 <= k < |es| ==> TimeOf(es[k]) <= t)
  }

  lemma AddInTime(es: seq<Published>, e: Published, t: int, u: int)
    requires InTime(es, t) && t <= u && TimeOf(e) == u
    ensures InTime(es, u) && InTime(es + [e], u)
  {}

  /** When frames come with nondecreasing capture times, so do the starts and ends of speech. */
  lemma {:induction false} SpeechTimesNeverGoBack(cfg: Config, inputs: seq<Input>)
    requires cfg.utterance.rate > 0 && Nondecreasing(inputs)
    ensures inputs == [] ==> SpeechEvents(Run(cfg, inputs).published) == []
    ensures inputs != [] ==> InTime(SpeechEvents(Run(cfg, inputs).published), inputs[|inputs| - 1].capturedAt)
  {
    hide Process, SpeechEvents, U.Append, InTime, Cut, Held;
    if inputs == [] {
      NoSpeechEvents();
    } else {
      var init, i := inputs[..|inputs| - 1], inputs[|inputs| - 1];
      SpeechTimesNeverGoBack(cfg, init);
      RunKeeps(cfg, init);
      StepSpeechEvents(cfg, Run(cfg, init), i);
      var es := SpeechEvents(Run(cfg, init).published);
      var t := if init == [] then i.capturedAt else init[|init| - 1].capturedAt;
      assert InTime([], t) by { NothingInTime(t); }
      AddInTime(es, SpeechStarted(i.capturedAt), t, i.capturedAt);
      AddInTime(es, SpeechEnded(i.capturedAt), t, i.capturedAt);
      assert es + [] == es;
    }
  }

  lemma NothingInTime(t: int)
    ensures InTime([], t)
  {}

  lemma NoSpeechEvents()
    ensures SpeechEvents([]) == [] && Alternates([])
  {}

  // ----- The streaming recogniser -----

  /** How much of the past the recogniser is given at the onset, the onset frame included: what the
      pre-buffer holds after `samples` were added to it. */
  function Padding(cfg: Config, b: U.Buffer, samples: seq<int>): nat {
    Min(U.PrePadCapacity(cfg.utterance), |b.pre| + |samples|)
  }

  /** The recogniser was given the last `pad` samples before `onset`, then the onset frame of `len`
      samples, then everything after it; so the last `Min(pad, len)` samples before the onset came twice. */
  ghost predicate LiveRepeats(live: seq<int>, stream: seq<int>, onset: nat, pad: nat, len: nat) {
    && pad <= onset <= |stream| && len <= onset
    && live == stream[onset - pad..onset] + (stream[onset - len..onset] + stream[onset..])
  }

  /** In every run, while an utterance is going on: `at` is the frame at which it began, and what the
      recogniser was given since is the stream from there on, with exactly that overlap. */
  lemma {:induction false} LiveSinkSeesOnsetTwice(cfg: Config, inputs: seq<Input>)
    returns (onset: nat, at: nat, pad: nat)
    requires cfg.utterance.rate > 0 && Run(cfg, inputs).inSpeech
    ensures at < |inputs| && !Run(cfg, inputs[..at]).inSpeech && 0 < |inputs[at].samples|
    ensures onset == |Stream(inputs[..at + 1])|
    ensures pad == Padding(cfg, Run(cfg, inputs[..at]).buffer, inputs[at].samples)
    ensures LiveRepeats(Run(cfg, inputs).live, Stream(inputs), onset, pad, |inputs[at].samples|)
  {
    hide Process, LiveRepeats, Padding;
    var init, i := inputs[..|inputs| - 1], inputs[|inputs| - 1];
    RunKeeps(cfg, init);
    var s := Run(cfg, init);
    if s.inSpeech {
      onset, at, pad := LiveSinkSeesOnsetTwice(cfg, init);
      assert init[..at] == inputs[..at] && init[..at + 1] == inputs[..at + 1];
      LiveGoesOn(cfg, s, i, Stream(init), onset, pad, |inputs[at].samples|);
    } else {
      at := |inputs| - 1;
      assert inputs[..at + 1] == inputs && inputs[..at] == init;
      onset := |Stream(inputs)|;
      pad := LiveBegins(cfg, s, i, Stream(init));
    }
  }

  lemma LiveGoesOn(cfg: Config, s: State, i: Input, stream: seq<int>, onset: nat, pad: nat, len: nat)
    requires cfg.utterance.rate > 0 && s.inSpeech && Agree(s) && LiveRepeats(s.live, stream, onset, pad, len)
    ensures LiveRepeats(Process(cfg, s, i).live, stream + i.samples, onset, pad, len)
  {
    hide U.Append, U.SpeechEnds;
    assert s.live + [] == s.live;
    assert Process(cfg, s, i).live == s.live + i.samples;
  }

  lemma LiveBegins(cfg: Config, s: State, i: Input, stream: seq<int>) returns (pad: nat)
    requires cfg.utterance.rate > 0 && !s.inSpeech && Agree(s) && Held(s.buffer, stream, 0)
    requires Process(cfg, s, i).inSpeech
    ensures i.samples != [] && pad == Padding(cfg, s.buffer, i.samples)
    ensures LiveRepeats(Process(cfg, s, i).live, stream + i.samples, |stream + i.samples|, pad, |i.samples|)
  {
    AppendHeld(cfg.utterance, s.buffer, i.samples, stream, 0);
    PreBufferSize(cfg, s.buffer, i.samples);
    hide U.Append, U.SpeechEnds, U.PrePadCapacity;
    var pre, now := U.Append(cfg.utterance, s.buffer, i.samples).pre, stream + i.samples;
    pad := |pre|;
    assert now[|now| - |i.samples|..|now|] + now[|now|..] == i.samples;
    assert now[|now| - pad..|now|] == pre;
  }

  lemma PreBufferSize(cfg: Config, b: U.Buffer, samples: seq<int>)
    requires !b.recording && samples != []
    ensures |U.Append(cfg.utterance, b, samples).pre| == Padding(cfg, b, samples)
  {}

  /** The recogniser was given one stretch of the stream, nothing twice. */
  ghost predicate Contiguous(live: seq<int>, stream: seq<int>) {
    exists a, b :: 0 <= a <= b <= |stream| && live == stream[a..b]
  }

  /** Silence of `n` samples, with one click at the very end. */
  function EndsWithClick(n: nat): (s: seq<int>)
    ensures |s| == n && forall i :: 0 <= i < n ==> s[i] == if i == n - 1 then 1 else 0
  {
    seq(n, i => if i == n - 1 then 1 else 0)
  }

  /** Two frames, both at the onset threshold and the second long enough. */
  function Click(cfg: Config): seq<Input> {
    [Input([0], cfg.endpointer.onset, 0),
     Input(EndsWithClick(cfg.utterance.rate * (cfg.endpointer.minSpeech + 1)), cfg.endpointer.onset, 0)]
  }

  lemma ClickIsLong(cfg: Config)
    requires cfg.utterance.rate > 0
    ensures |Click(cfg)[1].samples| == cfg.utterance.rate * (cfg.endpointer.minSpeech + 1) > 0
    ensures FrameMs(cfg, Click(cfg)[1].samples) >= cfg.endpointer.minSpeech
  {
    var rate, k := cfg.utterance.rate, cfg.endpointer.minSpeech + 1;
    assert rate * k >= 1 * 1 by { M.Ordered(1, rate, k); }
    M.Divide(rate * k * 1000, rate, k * 1000, 0);
  }

  lemma ClickRun(cfg: Config)
    requires cfg.utterance.rate > 0
    ensures var s, click := Run(cfg, Click(cfg)), Click(cfg)[1].samples;
            && s.inSpeech && s.live == U.Last(U.Last([0], U.PrePadCapacity(cfg.utterance)) + click, U.PrePadCapacity(cfg.utterance)) + click
    ensures Stream(Click(cfg)) == [0] + Click(cfg)[1].samples
  {
    ClickIsLong(cfg);
    var inputs := Click(cfg);
    var one := [inputs[0]];
    assert inputs[..1] == one && one[..0] == [];
    assert Run(cfg, one) == Process(cfg, START, inputs[0]);
    hide U.PrePadCapacity, FrameMs;
    assert [] + [0] == [0];
    assert Run(cfg, one).ep.state == E.Onset && Run(cfg, one).buffer.pre == U.Last([0], U.PrePadCapacity(cfg.utterance));
    assert Run(cfg, inputs) == Process(cfg, Run(cfg, one), inputs[1]);
    assert Stream(one) == [] + [0];
  }

  lemma NoSuchStretch(live: seq<int>, stream: seq<int>, first: nat, a: nat, b: nat)
    requires first < |live| - 1 && live[first] == live[|live| - 1] == 1 && a <= b <= |stream|
    requires forall i :: 0 <= i < |stream| - 1 ==> stream[i] == 0
    ensures live != stream[a..b]
  {}

  /** With any pre-padding the click reaches the recogniser twice. */
  lemma ClickComesTwice(cfg: Config)
    requires cfg.utterance.rate > 0 && U.PrePadCapacity(cfg.utterance) > 0
    ensures Run(cfg, Click(cfg)).inSpeech && !Contiguous(Run(cfg, Click(cfg)).live, Stream(Click(cfg)))
  {
    ClickIsLong(cfg);
    ClickRun(cfg);
    var click, live, stream := Click(cfg)[1].samples, Run(cfg, Click(cfg)).live, Stream(Click(cfg));
    hide Run, Process, U.PrePadCapacity, Stream;
    var first := |live| - |click| - 1;
    assert live[first] == 1 && live[|live| - 1] == 1;
    forall a, b | 0 <= a <= b <= |stream| ensures live != stream[a..b] {
      NoSuchStretch(live, stream, first, a, b);
    }
  }

  /** The recogniser is given one stretch of the stream in every run if and only if the pre-padding is
      less than a sample. */
  lemma ContiguousExactlyWithoutPadding(cfg: Config)
    requires cfg.utterance.rate > 0
    ensures U.PrePadCapacity(cfg.utterance) == 0 <==>
            forall inputs: seq<Input> :: Run(cfg, inputs).inSpeech ==> Contiguous(Run(cfg, inputs).live, Stream(inputs))
  {
    hide Run, Contiguous, U.PrePadCapacity, Stream;
    if U.PrePadCapacity(cfg.utterance) == 0 {
      forall inputs: seq<Input> | Run(cfg, inputs).inSpeech ensures Contiguous(Run(cfg, inputs).live, Stream(inputs)) {
        var onset, at, pad := LiveSinkSeesOnsetTwice(cfg, inputs);
        WithoutPadding(Run(cfg, inputs).live, Stream(inputs), onset, |inputs[at].samples|);
      }
    } else {
      ClickComesTwice(cfg);
    }
  }

  lemma WithoutPadding(live: seq<int>, stream: seq<int>, onset: nat, len: nat)
    requires LiveRepeats(live, stream, onset, 0, len)
    ensures Contiguous(live, stream)
  {
    assert live == stream[onset - len..|stream|];
  }
}
