/** What the bridge does with the audio it gets from synthesis (src/dialogue/tts_bridge.cpp): which
    samples it puts into the playback queue, where the sentences end, and which counter a job adds to. */
module Speech {
  import opened Events
  import opened Playback
  import opened B = TtsBridge
  import opened Wrappers

  type Step = B.Step

  /** One sample of a sentence, or the end of a sentence. */
  datatype Sound = Sound(turn: TurnId, seqNo: nat, x: int) | SentenceEnd(turn: TurnId, seqNo: nat)

  function Voice(turn: TurnId, seqNo: nat, xs: seq<int>): (v: seq<Sound>)
    ensures |v| == |xs| && forall i :: 0 <= i < |xs| ==> v[i] == Sound(turn, seqNo, xs[i])
  {
    seq(|xs|, i requires 0 <= i < |xs| => Sound(turn, seqNo, xs[i]))
  }

  function VoiceOf(c: Chunk): seq<Sound> {
    Voice(c.turn, c.seqNo, c.samples) + if c.last then [SentenceEnd(c.turn, c.seqNo)] else []
  }

  /** The chunks one after the other. */
  function Voices(chunks: seq<Chunk>): seq<Sound> {
    if chunks == [] then [] else Voices(chunks[..|chunks| - 1]) + VoiceOf(chunks[|chunks| - 1])
  }

  lemma VoicesGrow(chunks: seq<Chunk>, c: Chunk)
    ensures Voices(chunks + [c]) == Voices(chunks) + VoiceOf(c)
  {
    assert (chunks + [c])[..|chunks|] == chunks;
  }

  lemma {:induction false} VoicesAppend(a: seq<Chunk>, b: seq<Chunk>)
    ensures Voices(a + b) == Voices(a) + Voices(b)
  {
    hide VoiceOf;
    if b == [] {
      assert a + b == a;
    } else {
      assert (a + b)[..|a + b| - 1] == a + b[..|b| - 1];
      VoicesAppend(a, b[..|b| - 1]);
    }
  }

  lemma VoicesOfOne(c: Chunk)
    ensures Voices([c]) == VoiceOf(c) && Voices([]) == []
  {
    assert [c][..0] == [];
    assert [] + VoiceOf(c) == VoiceOf(c);
  }

  // ----- What synthesis says and what is queued -----

  /** What a step of synthesis gives the bridge for its sentence, unless it failed or was cancelled. */
  function SpokenIn(s: Sys, step: Step): seq<Sound>
    requires B.Enabled(s, step)
  {
    match step
    case Audio(xs) =>
      if s.io.err || IsCancelled(s, s.io.job) then [] else Voice(s.io.job.turn, s.io.job.seqNo, xs)
    case LookAtTail(tail) =>
      if IsCancelled(s, s.io.job) then []
      else Voice(s.io.job.turn, s.io.job.seqNo, tail) + [SentenceEnd(s.io.job.turn, s.io.job.seqNo)]
    case _ => []
  }

  /** The chunk by which the queue has grown. */
  function QueuedIn(s: Sys, t: Sys): seq<Chunk> {
    if |t.queue| > |s.queue| then [t.queue[|t.queue| - 1]] else []
  }

  function Spoken(s0: Sys, steps: seq<Step>): seq<Sound>
    requires B.Run(s0, steps).Some?
  {
    if steps == [] then [] else
    var s := B.Run(s0, steps[..|steps| - 1]).value;
    Spoken(s0, steps[..|steps| - 1]) + SpokenIn(s, steps[|steps| - 1])
  }

  /** Every chunk that was ever put into the queue. */
  function EverQueued(s0: Sys, steps: seq<Step>): seq<Chunk>
    requires B.Run(s0, steps).Some?
  {
    if steps == [] then [] else
    var s := B.Run(s0, steps[..|steps| - 1]).value;
    EverQueued(s0, steps[..|steps| - 1]) + QueuedIn(s, B.Run(s0, steps).value)
  }

  /** What the I/O thread holds and has not queued yet. */
  function InHand(io: Io): seq<Sound> {
    match io
    case Deliver(job, _, xs) => Voice(job.turn, job.seqNo, xs)
    case Ending(job, _, xs) => Voice(job.turn, job.seqNo, xs) + [SentenceEnd(job.turn, job.seqNo)]
    case _ => []
  }

  lemma QueueGrows(s: Sys, step: Step)
    requires B.Enabled(s, step) && !step.Consume? && !step.ClearQueue?
    ensures var t := B.Apply(s, step);
            t.queue == s.queue + QueuedIn(s, t) && (!step.EnqueueAudio? && !step.EnqueueLast? ==> QueuedIn(s, t) == [])
  {
    hide AfterInterrupt, AfterSentence;
  }

  /** The steps that are not the I/O thread's. */
  lemma OthersSayNothing(s: Sys, step: Step)
    requires B.Enabled(s, step) && (step.HandleEvent? || step.Consume? || step.ClearQueue?)
    ensures var t := B.Apply(s, step);
            t.cap == s.cap && t.io == s.io && QueuedIn(s, t) == [] && SpokenIn(s, step) == []
  {
    hide AfterInterrupt, AfterSentence;
  }

  lemma IoSpeaks(s: Sys, step: Step)
    requires B.Enabled(s, step) && s.cap == 0 && !s.io.Blocked?
    requires !step.HandleEvent? && !step.Consume? && !step.ClearQueue?
    ensures var t := B.Apply(s, step);
            && t.cap == 0 && !t.io.Blocked?
            && (if step.EnqueueAudio? || step.EnqueueLast? then
                  exists c: Chunk :: t.queue == s.queue + [c] && VoiceOf(c) == InHand(s.io) && InHand(t.io) == []
                else t.queue == s.queue && InHand(t.io) == InHand(s.io) + SpokenIn(s, step))
            && (step.EnqueueAudio? || step.EnqueueLast? ==> SpokenIn(s, step) == [])
  {
    hide Handled;
    var t := B.Apply(s, step);
    if step.EnqueueAudio? || step.EnqueueLast? {
      var c := t.queue[|s.queue|];
      assert t.queue == s.queue + [c] && VoiceOf(c) == InHand(s.io) && InHand(t.io) == [];
    }
  }

  lemma StepSpeaks(s: Sys, step: Step)
    requires B.Enabled(s, step) && s.cap == 0 && !s.io.Blocked?
    ensures var t := B.Apply(s, step);
            && t.cap == 0 && !t.io.Blocked?
            && Voices(QueuedIn(s, t)) + InHand(t.io) == InHand(s.io) + SpokenIn(s, step)
  {
    hide Voices, VoiceOf, SpokenIn, InHand;
    var t := B.Apply(s, step);
    VoicesOfOne(if t.queue == [] then NO_CHUNK else t.queue[|t.queue| - 1]);
    assert [] + InHand(t.io) == InHand(t.io) && InHand(s.io) + [] == InHand(s.io);
    if step.HandleEvent? || step.Consume? || step.ClearQueue? {
      OthersSayNothing(s, step);
    } else {
      IoSpeaks(s, step);
      hide B.Apply, B.Enabled;
    }
  }

  lemma {:induction false} RunSpeaks(s0: Sys, steps: seq<Step>)
    requires B.Run(s0, steps).Some? && s0.cap == 0 && s0.io == Idle
    ensures var s := B.Run(s0, steps).value;
            && s.cap == 0 && !s.io.Blocked?
            && Voices(EverQueued(s0, steps)) + InHand(s.io) == Spoken(s0, steps)
  {
    hide B.Apply, B.Enabled, InHand, QueuedIn, SpokenIn, Voices;
    if steps == [] {
      VoicesOfOne(NO_CHUNK);
      assert InHand(Idle) == [] by { NothingInHand(); }
    } else {
      var init, step := steps[..|steps| - 1], steps[|steps| - 1];
      RunSpeaks(s0, init);
      var s, t := B.Run(s0, init).value, B.Run(s0, steps).value;
      StepSpeaks(s, step);
      VoicesAppend(EverQueued(s0, init), QueuedIn(s, t));
      var before := Voices(EverQueued(s0, init));
      assert before + Voices(QueuedIn(s, t)) + InHand(t.io) == before + (InHand(s.io) + SpokenIn(s, step));
      assert before + (InHand(s.io) + SpokenIn(s, step)) == before + InHand(s.io) + SpokenIn(s, step);
    }
  }

  lemma NothingInHand()
    ensures InHand(Idle) == []
  {}

  /** In every run with an unbounded queue, interrupted or not: the chunks ever queued carry, sample by
      sample and in order, what synthesis gave for the sentences that were neither cancelled nor failed,
      with each sentence's end right after its last sample; only what the I/O thread holds is missing. */
  lemma QueuedIsSpoken(inbox: seq<Event>, turn: TurnId, steps: seq<Step>)
    requires B.Run(B.Initial(inbox, 0, turn), steps).Some?
    ensures var s0 := B.Initial(inbox, 0, turn);
            Voices(EverQueued(s0, steps)) + InHand(B.Run(s0, steps).value.io) == Spoken(s0, steps)
  {
    RunSpeaks(B.Initial(inbox, 0, turn), steps);
  }

  /** With a bounded queue that is full, audio is dropped and an end of sentence waits. */
  lemma FullQueue(s: Sys)
    requires s.cap > 0 && |s.queue| >= s.cap
    ensures s.io.Deliver? ==> B.Apply(s, EnqueueAudio).queue == s.queue && InHand(B.Apply(s, EnqueueAudio).io) == []
    ensures s.io.Ending? ==>
              && B.Apply(s, EnqueueLast).queue == s.queue
              && (!IsCancelled(s, s.io.job) ==>
                    B.Apply(B.Apply(s, EnqueueLast), Poll).io == s.io)
  {}

  // ----- What the consumer gets -----

  /** The chunk that leaves the queue. */
  function TakenIn(s: Sys, step: Step): seq<Chunk> {
    if step.Consume? && s.queue != [] then s.queue[..1] else []
  }

  function Consumed(s0: Sys, steps: seq<Step>): seq<Chunk>
    requires B.Run(s0, steps).Some?
  {
    if steps == [] then [] else
    var s := B.Run(s0, steps[..|steps| - 1]).value;
    Consumed(s0, steps[..|steps| - 1]) + TakenIn(s, steps[|steps| - 1])
  }

  ghost predicate NoInterrupt(inbox: seq<Event>) {
    forall i :: 0 <= i < |inbox| ==> !inbox[i].UserInterrupted?
  }

  lemma StepConsumes(s: Sys, step: Step)
    requires B.Enabled(s, step) && NoInterrupt(s.inbox) && s.handler == Waiting
    ensures var t := B.Apply(s, step);
            && t.inbox == s.inbox && t.handler == Waiting
            && TakenIn(s, step) + t.queue == s.queue + QueuedIn(s, t)
  {
    hide AfterInterrupt;
    if step.Consume? { assert s.queue[..1] + s.queue[1..] == s.queue + []; }
  }

  /** Without an interrupt the queue loses nothing and keeps the order. */
  lemma {:induction false} ConsumedInOrder(inbox: seq<Event>, cap: nat, turn: TurnId, steps: seq<Step>)
    requires NoInterrupt(inbox) && B.Run(B.Initial(inbox, cap, turn), steps).Some?
    ensures var s0 := B.Initial(inbox, cap, turn);
            var s := B.Run(s0, steps).value;
            && s.inbox == inbox && s.handler == Waiting
            && Consumed(s0, steps) + s.queue == EverQueued(s0, steps)
  {
    hide B.Apply, B.Enabled, QueuedIn;
    var s0 := B.Initial(inbox, cap, turn);
    if steps != [] {
      var init, step := steps[..|steps| - 1], steps[|steps| - 1];
      ConsumedInOrder(inbox, cap, turn, init);
      var s, t := B.Run(s0, init).value, B.Run(s0, steps).value;
      StepConsumes(s, step);
      assert Consumed(s0, init) + TakenIn(s, step) + t.queue == Consumed(s0, init) + (s.queue + QueuedIn(s, t));
      assert Consumed(s0, init) + (s.queue + QueuedIn(s, t)) == EverQueued(s0, init) + QueuedIn(s, t);
    }
  }

  // ----- Which counter a job adds to -----

  /** Synthesis has failed since the last job was taken. */
  predicate JobFailed(steps: seq<Step>) {
    steps != [] &&
    var last := steps[|steps| - 1];
    last.Fail? || (!last.Take? && JobFailed(steps[..|steps| - 1]))
  }

  /** The jobs counted so far whose token was not cancelled at the last look: those in which synthesis
      failed, or did not. */
  function Finished(s0: Sys, steps: seq<Step>, failed: bool): nat
    requires B.Run(s0, steps).Some?
  {
    if steps == [] then 0 else
    var init, step := steps[..|steps| - 1], steps[|steps| - 1];
    var s := B.Run(s0, init).value;
    Finished(s0, init, failed) + if step.Count? && !IsCancelled(s, s.io.job) && JobFailed(init) == failed then 1 else 0
  }

  /** The error flag says whether synthesis has failed. */
  predicate FlagAgrees(io: Io, failed: bool) {
    match io
    case Synth(_, err) => err == failed
    case Deliver(_, err, _) => err == failed
    case Returned(_, err) => err == failed
    case Ending(_, err, _) => err == failed
    case Blocked(_, err, _) => err == failed
    case Tally(_, err) => err == failed
    case Begin(_) => !failed
    case _ => true
  }

  lemma HandlersCountNothing(s: Sys)
    requires B.Enabled(s, HandleEvent)
    ensures var t := B.Apply(s, HandleEvent);
            t.io == s.io && t.b.synthesized == s.b.synthesized && t.b.errored == s.b.errored
  {
    hide OtherTurns;
  }

  lemma StepCounts(s: Sys, step: Step, failed: bool)
    requires B.Enabled(s, step) && FlagAgrees(s.io, failed)
    ensures var t := B.Apply(s, step);
            && FlagAgrees(t.io, step.Fail? || (!step.Take? && failed))
            && t.b.synthesized == s.b.synthesized + (if step.Count? && !IsCancelled(s, s.io.job) && !failed then 1 else 0)
            && t.b.errored == s.b.errored + (if step.Count? && !IsCancelled(s, s.io.job) && failed then 1 else 0)
  {
    hide Handled;
    if step.HandleEvent? { HandlersCountNothing(s); }
  }

  /** In every run: a job counts as failed exactly when synthesis failed in it, as synthesized when it did
      not, and as neither when it was cancelled by the time of the last look. */
  lemma {:induction false} CountersTellOutcome(inbox: seq<Event>, cap: nat, turn: TurnId, steps: seq<Step>)
    requires B.Run(B.Initial(inbox, cap, turn), steps).Some?
    ensures var s0 := B.Initial(inbox, cap, turn);
            var s := B.Run(s0, steps).value;
            && FlagAgrees(s.io, JobFailed(steps))
            && s.b.errored == Finished(s0, steps, true) && s.b.synthesized == Finished(s0, steps, false)
  {
    hide B.Apply, B.Enabled, FlagAgrees, IsCancelled;
    var s0 := B.Initial(inbox, cap, turn);
    if steps == [] {
      assert FlagAgrees(Idle, false) by { NoFlag(); }
    } else {
      CountersTellOutcome(inbox, cap, turn, steps[..|steps| - 1]);
      StepCounts(B.Run(s0, steps[..|steps| - 1]).value, steps[|steps| - 1], JobFailed(steps[..|steps| - 1]));
    }
  }

  lemma NoFlag()
    ensures FlagAgrees(Idle, false)
  {}

  // ----- A cancelled job says nothing more -----

  /** The I/O thread works on the job, whose token is cancelled, and is past no look at the token that came
      before the cancellation. */
  ghost predicate Silenced(s: Sys, job: Job) {
    JobOf(s.io) == Some(job) && IsCancelled(s, job) && !s.io.Deliver? && !s.io.Ending?
  }

  lemma StepStaysSilent(s: Sys, step: Step, job: Job)
    requires B.Enabled(s, step) && step != EndOfJob && Silenced(s, job)
    ensures var t := B.Apply(s, step);
            Silenced(t, job) && QueuedIn(s, t) == [] && (s.io.Begin? || s.io.Done? ==> t.io.Begin? || t.io.Done?)
  {
    hide OtherTurns;
  }

  /** As long as the I/O thread is at the job nothing more of it is queued, also if its end of sentence was
      waiting for room; and if it had only been taken it is never synthesized. */
  lemma {:induction false} CancelledJobStaysSilent(s: Sys, steps: seq<Step>, job: Job)
    requires B.Run(s, steps).Some? && EndOfJob !in steps && Silenced(s, job)
    ensures var t := B.Run(s, steps).value;
            && EverQueued(s, steps) == [] && Silenced(t, job)
            && (s.io.Begin? || s.io.Done? ==> t.io.Begin? || t.io.Done?)
  {
    hide B.Apply, B.Enabled, QueuedIn, Silenced;
    if steps != [] {
      var init := steps[..|steps| - 1];
      CancelledJobStaysSilent(s, init, job);
      StepStaysSilent(B.Run(s, init).value, steps[|steps| - 1], job);
    }
  }

  /** `stop()` silences the job that is running, in every run. */
  lemma StopSilencesRunningJob(inbox: seq<Event>, cap: nat, before: seq<Step>, after: seq<Step>, job: Job)
    requires B.Run(B.Initial(inbox, cap, NO_TURN), before).Some?
    requires var s := B.Run(B.Initial(inbox, cap, NO_TURN), before).value;
             && B.Enabled(s, SignalStop) && JobOf(s.io) == Some(job) && !s.io.Deliver? && !s.io.Ending?
             && B.Run(B.Apply(s, SignalStop), after).Some? && EndOfJob !in after
    ensures EverQueued(B.Apply(B.Run(B.Initial(inbox, cap, NO_TURN), before).value, SignalStop), after) == []
  {
    var s := B.Run(B.Initial(inbox, cap, NO_TURN), before).value;
    B.RunConserves(B.Initial(inbox, cap, NO_TURN), before);
    hide B.Run;
    CancelledJobStaysSilent(B.Apply(s, SignalStop), after, job);
  }
}
