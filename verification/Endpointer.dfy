/** Endpointer of src/audio/endpointer.cpp: speech begins and ends by voice probability and time.
    Probabilities are reals; durations and times are milliseconds. */
module Endpointer {
  datatype Config = Config(onset: real, offset: real, minSpeech: nat, hangover: nat)

  datatype EpState = Quiet | Onset | Speaking | Endpoint

  datatype Outcome = Nothing | SpeechStarted | FalseStart | SpeechEnded

  datatype Ep = Ep(state: EpState, speech: nat, quiet: nat, startedAt: int, endedAt: int)

  const RESET: Ep := Ep(Quiet, 0, 0, 0, 0)

  /** What a frame's probability means: the onset threshold is looked at first. */
  datatype Level = Above | Below | Between

  function LevelOf(cfg: Config, p: real): Level {
    if p >= cfg.onset then Above else if p < cfg.offset then Below else Between
  }

  function OnFrame(cfg: Config, s: Ep, p: real, dur: nat, t: int): (Ep, Outcome) {
    var level := LevelOf(cfg, p);
    match s.state
    case Quiet =>
      if level == Above then (s.(state := Onset, speech := dur, quiet := 0, startedAt := t), Nothing) else (s, Nothing)
    case Onset =>
      if level == Above then
        var m := s.(speech := s.speech + dur);
        if m.speech >= cfg.minSpeech then (m.(state := Speaking, quiet := 0), SpeechStarted) else (m, Nothing)
      else if level == Below then (s.(state := Quiet, speech := 0, quiet := 0, startedAt := 0), FalseStart)
      else (s, Nothing)
    case Speaking =>
      if level == Above then (s.(speech := s.speech + dur, quiet := 0), Nothing)
      else if level == Below then (s.(state := Endpoint, quiet := dur, endedAt := t), Nothing)
      else (s.(speech := s.speech + dur), Nothing)
    case Endpoint =>
      if level == Above then (s.(state := Speaking, speech := s.speech + dur, quiet := 0, endedAt := 0), Nothing)
      else
        var m := s.(quiet := s.quiet + dur);
        if m.quiet >= cfg.hangover then (m.(state := Quiet), SpeechEnded) else (m, Nothing)
  }

  function Force(s: Ep, now: int): (Ep, Outcome) {
    if s.state == Speaking || s.state == Endpoint then (s.(endedAt := now, state := Quiet), SpeechEnded)
    else if s.state == Onset then (s.(state := Quiet), FalseStart)
    else (s, Nothing)
  }

  class Endpointer {
    const cfg: Config
    var state: EpState
    var speech: nat
    var quiet: nat
    var startedAt: int
    var endedAt: int

    function View(): Ep
      reads this
    {
      Ep(state, speech, quiet, startedAt, endedAt)
    }

    constructor (c: Config)
      ensures cfg == c && View() == RESET
    {
      cfg := c;
      state, speech, quiet, startedAt, endedAt := Quiet, 0, 0, 0, 0;
    }

    method Reset()
      modifies this
      ensures View() == RESET
    {
      state, speech, quiet, startedAt, endedAt := Quiet, 0, 0, 0, 0;
    }

    method FrameIn(p: real, dur: nat, t: int) returns (outcome: Outcome)
      modifies this
      ensures (View(), outcome) == OnFrame(cfg, old(View()), p, dur, t)
    {
      var aboveOnset, belowOffset := p >= cfg.onset, p < cfg.offset;
      match state {
        case Quiet =>
          if aboveOnset {
            state, speech, quiet, startedAt := Onset, dur, 0, t;
          }
          return Nothing;
        case Onset =>
          if aboveOnset {
            speech := speech + dur;
            if speech >= cfg.minSpeech {
              state, quiet := Speaking, 0;
              return SpeechStarted;
            }
            return Nothing;
          }
          if belowOffset {
            state, speech, quiet, startedAt := Quiet, 0, 0, 0;
            return FalseStart;
          }
          return Nothing;
        case Speaking =>
          if aboveOnset {
            speech, quiet := speech + dur, 0;
            return Nothing;
          }
          if belowOffset {
            state, quiet, endedAt := Endpoint, dur, t;
            return Nothing;
          }
          speech := speech + dur;
          return Nothing;
        case Endpoint =>
          if aboveOnset {
            state, speech, quiet, endedAt := Speaking, speech + dur, 0, 0;
            return Nothing;
          }
          if belowOffset {
            quiet := quiet + dur;
            if quiet >= cfg.hangover {
              state := Quiet;
              return SpeechEnded;
            }
            return Nothing;
          }
          quiet := quiet + dur;
          if quiet >= cfg.hangover {
            state := Quiet;
            return SpeechEnded;
          }
          return Nothing;
      }
    }

    method ForceEndpoint(now: int) returns (outcome: Outcome)
      modifies this
      ensures (View(), outcome) == Force(old(View()), now)
    {
      if state == Speaking || state == Endpoint {
        endedAt, state := now, Quiet;
        return SpeechEnded;
      }
      if state == Onset {
        state := Quiet;
        return FalseStart;
      }
      return Nothing;
    }
  }

  // ----- Whole traces -----

  datatype Op = Frame(p: real, dur: nat, t: int) | ForceAt(now: int) | ResetOp

  function Step(cfg: Config, s: Ep, op: Op): (Ep, Outcome) {
    match op
    case Frame(p, dur, t) => OnFrame(cfg, s, p, dur, t)
    case ForceAt(now) => Force(s, now)
    case ResetOp => (RESET, Nothing)
  }

  function Run(cfg: Config, ops: seq<Op>): Ep {
    if ops == [] then RESET else Step(cfg, Run(cfg, ops[..|ops| - 1]), ops[|ops| - 1]).0
  }

  /** The outcome of operation `j` of a trace. */
  function OutcomeAt(cfg: Config, ops: seq<Op>, j: nat): Outcome
    requires j < |ops|
  {
    Step(cfg, Run(cfg, ops[..j]), ops[j]).1
  }

  predicate IsFrame(cfg: Config, op: Op, level: Level) {
    op.Frame? && LevelOf(cfg, op.p) == level
  }

  function TimeOf(op: Op): nat {
    if op.Frame? then op.dur else 0
  }

  /** The time of the frames from `i` up to `j`, and of those above the onset threshold. */
  function TotalTime(ops: seq<Op>, i: nat, j: nat): nat
    requires i <= j <= |ops|
  {
    if i == j then 0 else TotalTime(ops, i, j - 1) + TimeOf(ops[j - 1])
  }

  function AboveTime(cfg: Config, ops: seq<Op>, i: nat, j: nat): nat
    requires i <= j <= |ops|
  {
    if i == j then 0
    else AboveTime(cfg, ops, i, j - 1) + if IsFrame(cfg, ops[j - 1], Above) then TimeOf(ops[j - 1]) else 0
  }

  /** A run of frames that begins with one of the level `first` and has none of the level `never`. */
  ghost predicate FrameRun(cfg: Config, ops: seq<Op>, i: nat, j: nat, first: Level, never: Level) {
    && i < j <= |ops| && IsFrame(cfg, ops[i], first)
    && forall k :: i <= k < j ==> ops[k].Frame? && !IsFrame(cfg, ops[k], never)
  }

  /** The candidate that `Onset` stands for, and the silence that `Endpoint` stands for. */
  ghost predicate OnsetSince(cfg: Config, ops: seq<Op>, i: nat, j: nat) {
    && FrameRun(cfg, ops, i, j, Above, Below)
    && Run(cfg, ops[..i]).state == Quiet && (forall m :: i < m <= j ==> Run(cfg, ops[..m]).state == Onset)
    && Run(cfg, ops[..j]).speech == AboveTime(cfg, ops, i, j)
    && Run(cfg, ops[..j]).startedAt == ops[i].t
  }

  ghost predicate SilentSince(cfg: Config, ops: seq<Op>, i: nat, j: nat) {
    && FrameRun(cfg, ops, i, j, Below, Above)
    && Run(cfg, ops[..i]).state == Speaking
    && Run(cfg, ops[..j]).quiet == TotalTime(ops, i, j)
    && Run(cfg, ops[..j]).endedAt == ops[i].t
  }

  lemma RunStep(cfg: Config, ops: seq<Op>, j: nat)
    requires j < |ops|
    ensures Run(cfg, ops[..j + 1]) == Step(cfg, Run(cfg, ops[..j]), ops[j]).0
  {
    assert ops[..j + 1][..j] == ops[..j];
  }

  /** How a step can end in `Onset`, and how in `Endpoint`. */
  lemma StepToOnset(cfg: Config, s: Ep, op: Op)
    requires Step(cfg, s, op).0.state == Onset
    ensures op.Frame? && (s.state == Quiet || s.state == Onset) && !IsFrame(cfg, op, Below)
    ensures s.state == Quiet ==> IsFrame(cfg, op, Above)
    ensures Step(cfg, s, op).0.speech
            == (if s.state == Quiet then 0 else s.speech) + if IsFrame(cfg, op, Above) then TimeOf(op) else 0
    ensures Step(cfg, s, op).0.startedAt == if s.state == Quiet then op.t else s.startedAt
  {}

  lemma StepToEndpoint(cfg: Config, s: Ep, op: Op)
    requires Step(cfg, s, op).0.state == Endpoint
    ensures op.Frame? && (s.state == Speaking || s.state == Endpoint) && !IsFrame(cfg, op, Above)
    ensures s.state == Speaking ==> IsFrame(cfg, op, Below)
    ensures Step(cfg, s, op).0.quiet == (if s.state == Speaking then 0 else s.quiet) + TimeOf(op)
    ensures Step(cfg, s, op).0.endedAt == if s.state == Speaking then op.t else s.endedAt
  {}

  lemma TimesGrow(cfg: Config, ops: seq<Op>, i: nat, j: nat)
    requires i <= j < |ops|
    ensures AboveTime(cfg, ops, i, j + 1) == AboveTime(cfg, ops, i, j) + if IsFrame(cfg, ops[j], Above) then TimeOf(ops[j]) else 0
    ensures TotalTime(ops, i, j + 1) == TotalTime(ops, i, j) + TimeOf(ops[j])
    ensures AboveTime(cfg, ops, i, i) == TotalTime(ops, i, i) == 0
  {}

  lemma NothingRun(cfg: Config, ops: seq<Op>)
    ensures Run(cfg, ops[..0]) == RESET
  {}

  lemma {:induction false} OnsetHasRun(cfg: Config, ops: seq<Op>, j: nat) returns (i: nat)
    requires j <= |ops| && Run(cfg, ops[..j]).state == Onset
    ensures OnsetSince(cfg, ops, i, j)
    decreases j
  {
    hide Run, Step, AboveTime, IsFrame;
    NothingRun(cfg, ops);
    RunStep(cfg, ops, j - 1);
    StepToOnset(cfg, Run(cfg, ops[..j - 1]), ops[j - 1]);
    i := j - 1;
    if Run(cfg, ops[..j - 1]).state == Onset { i := OnsetHasRun(cfg, ops, j - 1); }
    TimesGrow(cfg, ops, i, j - 1);
  }

  lemma {:induction false} EndpointHasRun(cfg: Config, ops: seq<Op>, j: nat) returns (i: nat)
    requires j <= |ops| && Run(cfg, ops[..j]).state == Endpoint
    ensures SilentSince(cfg, ops, i, j)
    decreases j
  {
    hide Run, Step, TotalTime, IsFrame;
    NothingRun(cfg, ops);
    RunStep(cfg, ops, j - 1);
    StepToEndpoint(cfg, Run(cfg, ops[..j - 1]), ops[j - 1]);
    i := j - 1;
    if Run(cfg, ops[..j - 1]).state == Endpoint { i := EndpointHasRun(cfg, ops, j - 1); }
    TimesGrow(cfg, ops, i, j - 1);
  }

  /** Before every SpeechStarted there is a run of frames that left `Quiet`, never fell below the
      offset threshold, and spent at least `minSpeech` above the onset threshold; the speech counts from
      its first frame. */
  lemma SpeechStartsAfterEnoughSpeech(cfg: Config, ops: seq<Op>, j: nat) returns (i: nat)
    requires j < |ops| && OutcomeAt(cfg, ops, j) == SpeechStarted
    ensures FrameRun(cfg, ops, i, j + 1, Above, Below) && i < j
    ensures Run(cfg, ops[..i]).state == Quiet && IsFrame(cfg, ops[j], Above)
    ensures AboveTime(cfg, ops, i, j + 1) >= cfg.minSpeech
    ensures Run(cfg, ops[..j + 1]).startedAt == ops[i].t
  {
    hide Run;
    i := OnsetHasRun(cfg, ops, j);
    RunStep(cfg, ops, j);
    TimesGrow(cfg, ops, i, j);
  }

  /** A SpeechEnded that was not forced ends a run of frames that opened below the offset threshold,
      never rose above the onset threshold, and lasted at least the hangover; the speech ended with its
      first frame. */
  lemma SpeechEndsAfterEnoughSilence(cfg: Config, ops: seq<Op>, j: nat) returns (i: nat)
    requires j < |ops| && ops[j].Frame? && OutcomeAt(cfg, ops, j) == SpeechEnded
    ensures FrameRun(cfg, ops, i, j + 1, Below, Above) && i < j
    ensures Run(cfg, ops[..i]).state == Speaking
    ensures TotalTime(ops, i, j + 1) >= cfg.hangover
    ensures Run(cfg, ops[..j + 1]).endedAt == ops[i].t
  {
    hide Run;
    i := EndpointHasRun(cfg, ops, j);
    RunStep(cfg, ops, j);
    TimesGrow(cfg, ops, i, j);
  }

  /** The other way: such a run, of more than one frame, brings the outcome before it is over. */
  lemma {:induction false} EnoughSpeechStarts(cfg: Config, ops: seq<Op>, i: nat, j: nat) returns (k: nat)
    requires FrameRun(cfg, ops, i, j + 1, Above, Below) && i < j && Run(cfg, ops[..i]).state == Quiet
    requires IsFrame(cfg, ops[j], Above) && AboveTime(cfg, ops, i, j + 1) >= cfg.minSpeech
    ensures i < k <= j && OutcomeAt(cfg, ops, k) == SpeechStarted
  {
    hide Run, AboveTime;
    RunStep(cfg, ops, i);
    TimesGrow(cfg, ops, i, i);
    k := i + 1;
    while OutcomeAt(cfg, ops, k) != SpeechStarted
      invariant i < k <= j && Run(cfg, ops[..k]).state == Onset
      invariant Run(cfg, ops[..k]).speech == AboveTime(cfg, ops, i, k)
      decreases j - k
    {
      RunStep(cfg, ops, k);
      TimesGrow(cfg, ops, i, k);
      k := k + 1;
    }
  }

  lemma {:induction false} EnoughSilenceEnds(cfg: Config, ops: seq<Op>, i: nat, j: nat) returns (k: nat)
    requires FrameRun(cfg, ops, i, j + 1, Below, Above) && i < j && Run(cfg, ops[..i]).state == Speaking
    requires TotalTime(ops, i, j + 1) >= cfg.hangover
    ensures i < k <= j && OutcomeAt(cfg, ops, k) == SpeechEnded
  {
    hide Run, TotalTime;
    RunStep(cfg, ops, i);
    TimesGrow(cfg, ops, i, i);
    k := i + 1;
    while OutcomeAt(cfg, ops, k) != SpeechEnded
      invariant i < k <= j && Run(cfg, ops[..k]).state == Endpoint
      invariant Run(cfg, ops[..k]).quiet == TotalTime(ops, i, k)
      decreases j - k
    {
      RunStep(cfg, ops, k);
      TimesGrow(cfg, ops, i, k);
      k := k + 1;
    }
  }

  /** A candidate that began at `i` and has not become speech before `j`. */
  ghost predicate Candidate(cfg: Config, ops: seq<Op>, i: nat, j: nat) {
    && FrameRun(cfg, ops, i, j, Above, Below) && j < |ops| && Run(cfg, ops[..i]).state == Quiet
    && forall k :: i < k < j ==> OutcomeAt(cfg, ops, k) != SpeechStarted
  }

  lemma {:induction false} CandidateIsOnset(cfg: Config, ops: seq<Op>, i: nat, j: nat)
    requires Candidate(cfg, ops, i, j)
    ensures Run(cfg, ops[..j]).state == Onset
    decreases j
  {
    hide Run;
    RunStep(cfg, ops, j - 1);
    if j > i + 1 {
      CandidateIsOnset(cfg, ops, i, j - 1);
      assert OutcomeAt(cfg, ops, j - 1) != SpeechStarted;
    }
  }

  lemma OnsetIsCandidate(cfg: Config, ops: seq<Op>, i: nat, j: nat)
    requires OnsetSince(cfg, ops, i, j) && j < |ops|
    ensures Candidate(cfg, ops, i, j)
  {
    hide Run, AboveTime;
    forall k | i < k < j ensures OutcomeAt(cfg, ops, k) != SpeechStarted {
      RunStep(cfg, ops, k);
      assert Run(cfg, ops[..k + 1]).state == Onset;
    }
  }

  /** A false start is reported exactly when a candidate that has not become speech falls below the offset
      threshold or is forced to end. */
  lemma FalseStartExactlyWhen(cfg: Config, ops: seq<Op>, j: nat)
    requires j < |ops|
    ensures OutcomeAt(cfg, ops, j) == FalseStart <==>
            (IsFrame(cfg, ops[j], Below) || ops[j].ForceAt?) && exists i :: Candidate(cfg, ops, i, j)
  {
    hide Run, FrameRun, OnsetSince, Candidate;
    if i :| Candidate(cfg, ops, i, j) { CandidateIsOnset(cfg, ops, i, j); }
    if Run(cfg, ops[..j]).state == Onset {
      var i := OnsetHasRun(cfg, ops, j);
      OnsetIsCandidate(cfg, ops, i, j);
    }
  }

  // ----- Speech that goes on -----

  predicate InSpeech(s: EpState) { s == Speaking || s == Endpoint }

  /** Speech started with operation `k` and neither ended nor was reset before `j`. */
  ghost predicate GoesOn(cfg: Config, ops: seq<Op>, k: nat, j: nat) {
    && k < j <= |ops| && OutcomeAt(cfg, ops, k) == SpeechStarted
    && forall m :: k < m < j ==> OutcomeAt(cfg, ops, m) != SpeechEnded && !ops[m].ResetOp?
  }

  /** Only a start brings speech, only an end or a reset takes it away. */
  lemma StepInSpeech(cfg: Config, s: Ep, op: Op)
    ensures var (t, outcome) := Step(cfg, s, op);
            && (outcome == SpeechStarted ==> !InSpeech(s.state) && InSpeech(t.state))
            && (outcome == SpeechEnded ==> InSpeech(s.state) && !InSpeech(t.state))
            && (outcome != SpeechStarted && outcome != SpeechEnded ==>
                  InSpeech(t.state) == (InSpeech(s.state) && !op.ResetOp?))
            && (op.ResetOp? ==> outcome == Nothing)
            && (op.ForceAt? && InSpeech(s.state) ==> outcome == SpeechEnded && t.endedAt == op.now)
  {}

  lemma {:induction false} InSpeechExactlyWhen(cfg: Config, ops: seq<Op>, j: nat)
    requires j <= |ops|
    ensures InSpeech(Run(cfg, ops[..j]).state) <==> exists k :: GoesOn(cfg, ops, k, j)
    decreases j
  {
    hide Run, Step, InSpeech;
    NothingRun(cfg, ops);
    if j == 0 {
      assert !InSpeech(Quiet) by { SilentAtFirst(); }
    } else {
      var i := j - 1;
      InSpeechExactlyWhen(cfg, ops, i);
      RunStep(cfg, ops, i);
      StepInSpeech(cfg, Run(cfg, ops[..i]), ops[i]);
      if InSpeech(Run(cfg, ops[..j]).state) {
        if OutcomeAt(cfg, ops, i) == SpeechStarted {
          assert GoesOn(cfg, ops, i, j);
        } else {
          var k: nat :| GoesOn(cfg, ops, k, i);
          assert GoesOn(cfg, ops, k, j);
        }
      }
      forall k: nat | GoesOn(cfg, ops, k, j) ensures InSpeech(Run(cfg, ops[..j]).state) {
        if k < i { assert GoesOn(cfg, ops, k, i); }
      }
    }
  }

  lemma SilentAtFirst()
    ensures !InSpeech(Quiet)
  {}

  /** Forcing ends speech exactly when it has started and not ended, and at the time of the call. */
  lemma ForcedEndExactlyWhen(cfg: Config, ops: seq<Op>, j: nat)
    requires j < |ops| && ops[j].ForceAt?
    ensures OutcomeAt(cfg, ops, j) == SpeechEnded <==> exists k :: GoesOn(cfg, ops, k, j)
    ensures OutcomeAt(cfg, ops, j) == SpeechEnded ==> Run(cfg, ops[..j + 1]).endedAt == ops[j].now
  {
    hide Run, Step, InSpeech, GoesOn;
    InSpeechExactlyWhen(cfg, ops, j);
    RunStep(cfg, ops, j);
    StepInSpeech(cfg, Run(cfg, ops[..j]), ops[j]);
  }
}
