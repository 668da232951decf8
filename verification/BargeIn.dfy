/** The other half of the barge-in bound of TtsBridge: where the order of events does allow a sentence
    to revive an interrupted turn, some interleaving plays more than one chunk of it. */
module BargeIn {
  import opened Events
  import opened TtsBridge
  import opened Wrappers

  lemma Extend(s0: Sys, steps: seq<Step>, step: Step)
    requires Run(s0, steps).Some? && Enabled(Run(s0, steps).value, step)
    ensures Run(s0, steps + [step]) == Some(Apply(Run(s0, steps).value, step))
  {
    assert (steps + [step])[..|steps|] == steps;
  }

  /** Tokens of different turns are different, and all were minted before. */
  ghost predicate TokensApart(b: Bridge) {
    && (forall u :: u in b.tokens ==> b.tokens[u] < b.nextToken)
    && (forall t :: t in b.cancelledTokens ==> t < b.nextToken)
    && (forall u, v :: u in b.tokens && v in b.tokens && u != v ==> b.tokens[u] != b.tokens[v])
  }

  /** The first `m` events are handled and no job was taken yet. */
  ghost predicate Calm(s: Sys, m: nat) {
    && m <= |s.inbox| && s.next == m && s.handler == Waiting && s.io == Idle && s.phase == Running
    && s.queue == [] && s.b.inFlight == None && s.late == 0
    && (Interrupted(s.inbox[..m], s.target) ==> s.cleared)
    && TokensApart(s.b)
    && (!Barred(s.inbox[..m], s.target) && s.target in s.b.tokens ==>
          s.b.tokens[s.target] !in s.b.cancelledTokens)
  }

  /** The turn's token, if there is one, is not cancelled. */
  predicate Live(b: Bridge, turn: TurnId) {
    turn in b.tokens ==> b.tokens[turn] !in b.cancelledTokens
  }

  lemma SentenceIsCalm(b: Bridge, turn: TurnId, seqNo: nat, target: TurnId)
    requires TokensApart(b)
    ensures var c := AfterSentence(b, turn, seqNo);
            && TokensApart(c) && (Live(b, target) ==> Live(c, target)) && c.inFlight == b.inFlight
            && (turn == target && Live(b, target) ==>
                  && c.pending != [] && target in c.tokens
                  && c.pending[|c.pending| - 1] == Job(target, seqNo, c.tokens[target]))
  {}

  lemma StartAndEndAreCalm(b: Bridge, turn: TurnId, target: TurnId)
    requires TokensApart(b)
    ensures TokensApart(AfterStarted(b, turn)) && TokensApart(AfterFinished(b, turn))
    ensures turn == target || Live(b, target) ==> Live(AfterStarted(b, turn), target) && Live(AfterFinished(b, turn), target)
  {}

  lemma CalmOrdinary(s: Sys, m: nat)
    requires Calm(s, m) && m < |s.inbox| && !s.inbox[m].UserInterrupted?
    ensures Calm(Apply(s, HandleEvent), m + 1)
    ensures var e, t := s.inbox[m], Apply(s, HandleEvent);
            IsSentenceOf(e, s.target) && !Barred(s.inbox[..m], s.target) ==>
              && t.b.pending != [] && s.target in t.b.tokens
              && t.b.pending[|t.b.pending| - 1] == Job(s.target, e.seqNo, t.b.tokens[s.target])
  {
    hide Barred, Interrupted, AfterInterrupt, AfterSentence, TokensApart;
    NextEvent(s);
    match s.inbox[m]
    case LlmStarted(turn) => StartAndEndAreCalm(s.b, turn, s.target);
    case LlmSentence(turn, seqNo, _, _) => SentenceIsCalm(s.b, turn, seqNo, s.target);
    case LlmFinished(turn, _) => StartAndEndAreCalm(s.b, turn, s.target);
    case _ =>
  }

  /** The state after a whole interrupt: its lock region, its cancellation, the cleared queue. */
  function AfterWholeInterrupt(s: Sys, turn: TurnId): Sys {
    var (b, todo) := AfterInterrupt(s.b, turn);
    s.(b := b.(cancelledTokens := b.cancelledTokens + if todo == [] then {} else {todo[0]}),
       next := s.next + 1, queue := [], cleared := s.cleared || turn == s.target)
  }

  lemma CalmInterrupt(s: Sys, m: nat)
    requires Calm(s, m) && m < |s.inbox| && s.inbox[m].UserInterrupted?
    ensures Calm(AfterWholeInterrupt(s, s.inbox[m].turn), m + 1)
  {
    hide Barred, Interrupted, OtherTurns;
    assert s.inbox[..m + 1] == s.inbox[..m] + [s.inbox[m]];
    PastGrows(s.inbox[..m], s.inbox[m], s.target);
  }

  lemma InterruptSteps(s0: Sys, steps: seq<Step>, m: nat) returns (more: seq<Step>)
    requires Run(s0, steps).Some?
    requires var s := Run(s0, steps).value; Calm(s, m) && m < |s.inbox| && s.inbox[m].UserInterrupted?
    ensures Run(s0, more) == Some(AfterWholeInterrupt(Run(s0, steps).value, Run(s0, steps).value.inbox[m].turn))
  {
    hide Run, OtherTurns, Barred, Interrupted, TokensApart;
    Extend(s0, steps, HandleEvent);
    more := steps + [HandleEvent];
    var s := Run(s0, more).value;
    if s.handler.todo != [] {
      assert s.handler.todo == [s.handler.todo[0]];
      Extend(s0, more, CancelOne);
      more := more + [CancelOne];
    } else {
      assert s.b.cancelledTokens + {} == s.b.cancelledTokens;
    }
    Extend(s0, more, ClearQueue);
    more := more + [ClearQueue];
  }

  /** One event, with the rest of an interrupt's handler. */
  lemma CalmStep(s0: Sys, steps: seq<Step>, m: nat) returns (more: seq<Step>)
    requires Run(s0, steps).Some? && Calm(Run(s0, steps).value, m) && m < |Run(s0, steps).value.inbox|
    ensures Run(s0, more).Some? && Calm(Run(s0, more).value, m + 1)
    ensures Run(s0, more).value.inbox == Run(s0, steps).value.inbox && Run(s0, more).value.target == Run(s0, steps).value.target
    ensures var s, e := Run(s0, steps).value, Run(s0, steps).value.inbox[m];
            IsSentenceOf(e, s.target) && !Barred(s.inbox[..m], s.target) ==>
              var t := Run(s0, more).value;
              && t.b.pending != [] && s.target in t.b.tokens
              && t.b.pending[|t.b.pending| - 1] == Job(s.target, e.seqNo, t.b.tokens[s.target])
  {
    hide Run, AfterInterrupt, Barred, Interrupted, TokensApart;
    var s := Run(s0, steps).value;
    if s.inbox[m].UserInterrupted? {
      more := InterruptSteps(s0, steps, m);
      CalmInterrupt(s, m);
    } else {
      CalmOrdinary(s, m);
      Extend(s0, steps, HandleEvent);
      more := steps + [HandleEvent];
    }
  }

  lemma {:induction false} HandleAll(inbox: seq<Event>, cap: nat, turn: TurnId, m: nat) returns (steps: seq<Step>)
    requires m <= |inbox|
    ensures var r := Run(Initial(inbox, cap, turn), steps);
            r.Some? && r.value.inbox == inbox && r.value.target == turn && r.value.cap == cap && Calm(r.value, m)
  {
    if m == 0 {
      steps := [];
    } else {
      steps := HandleAll(inbox, cap, turn, m - 1);
      steps := CalmStep(Initial(inbox, cap, turn), steps, m - 1);
      CapStays(Initial(inbox, cap, turn), steps);
    }
  }

  lemma StepKeepsCap(s: Sys, step: Step)
    requires Enabled(s, step)
    ensures Apply(s, step).cap == s.cap
  {
    hide AfterInterrupt, AfterSentence, AfterStarted, AfterFinished;
  }

  lemma {:induction false} CapStays(s0: Sys, steps: seq<Step>)
    requires Run(s0, steps).Some?
    ensures Run(s0, steps).value.cap == s0.cap
  {
    hide Apply, Enabled;
    if steps != [] {
      CapStays(s0, steps[..|steps| - 1]);
      StepKeepsCap(Run(s0, steps[..|steps| - 1]).value, steps[|steps| - 1]);
    }
  }

  /** The I/O thread is idle with these jobs pending, nothing is queued, and the turn's silence has begun. */
  ghost predicate Ready(s: Sys, jobs: seq<Job>) {
    && s.io == Idle && s.b.pending == jobs && s.queue == [] && s.cleared
  }

  /** Taking the first job and finding its token live. */
  lemma TakeFirst(s0: Sys, steps: seq<Step>, jobs: seq<Job>) returns (more: seq<Step>)
    requires Run(s0, steps).Some? && Ready(Run(s0, steps).value, jobs) && jobs != []
    ensures Run(s0, more).Some?
    ensures var s, t := Run(s0, steps).value, Run(s0, more).value;
            && t.b.pending == jobs[1..] && t.queue == [] && t.cleared && t.target == s.target && t.late == s.late
            && t.cap == s.cap && t.b.cancelledTokens == s.b.cancelledTokens
            && t.io == if jobs[0].token in s.b.cancelledTokens then Done(jobs[0]) else Synth(jobs[0], false)
  {
    hide Run;
    Extend(s0, steps, Take);
    Extend(s0, steps + [Take], FirstLook);
    more := steps + [Take] + [FirstLook];
  }

  /** From inside `submit()` to the end of the job, the engine consuming what was enqueued. */
  lemma FinishJob(s0: Sys, steps: seq<Step>, jobs: seq<Job>) returns (more: seq<Step>)
    requires Run(s0, steps).Some?
    requires var s := Run(s0, steps).value;
             s.io.Synth? && s.io.job.token !in s.b.cancelledTokens && s.queue == [] && s.cleared && s.b.pending == jobs
    ensures Run(s0, more).Some? && Ready(Run(s0, more).value, jobs)
    ensures var s, t := Run(s0, steps).value, Run(s0, more).value;
            && t.target == s.target && t.cap == s.cap && t.b.cancelledTokens == s.b.cancelledTokens
            && t.late == s.late + if s.io.job.turn == s.target then 1 else 0
  {
    hide Run;
    more := steps;
    Extend(s0, more, Return);
    more := more + [Return];
    Extend(s0, more, LookAtTail([]));
    more := more + [LookAtTail([])];
    Extend(s0, more, EnqueueLast);
    more := more + [EnqueueLast];
    Extend(s0, more, Consume);
    more := more + [Consume];
    Extend(s0, more, Count);
    more := more + [Count];
    Extend(s0, more, EndOfJob);
    more := more + [EndOfJob];
  }

  /** All jobs but the last one are worked off. */
  lemma {:induction false} DrainToLast(s0: Sys, steps: seq<Step>, jobs: seq<Job>) returns (more: seq<Step>)
    requires Run(s0, steps).Some? && Ready(Run(s0, steps).value, jobs) && jobs != []
    ensures Run(s0, more).Some? && Ready(Run(s0, more).value, jobs[|jobs| - 1..])
    ensures var s, t := Run(s0, steps).value, Run(s0, more).value;
            t.target == s.target && t.cap == s.cap && t.b.cancelledTokens == s.b.cancelledTokens && t.late >= s.late
    decreases |jobs|
  {
    hide Run;
    if |jobs| == 1 {
      more := steps;
      assert jobs[0..] == jobs;
    } else {
      more := TakeFirst(s0, steps, jobs);
      if Run(s0, more).value.io.Done? {
        Extend(s0, more, EndOfJob);
        more := more + [EndOfJob];
      } else {
        more := FinishJob(s0, more, jobs[1..]);
      }
      assert jobs[1..][|jobs| - 2..] == jobs[|jobs| - 1..];
      more := DrainToLast(s0, more, jobs[1..]);
    }
  }

  /** The last job, of the interrupted turn and with a live token, plays two chunks. */
  lemma PlayTwo(s0: Sys, steps: seq<Step>, job: Job) returns (more: seq<Step>)
    requires Run(s0, steps).Some? && Ready(Run(s0, steps).value, [job])
    requires var s := Run(s0, steps).value; job.turn == s.target && job.token !in s.b.cancelledTokens
    ensures Run(s0, more).Some? && Run(s0, more).value.late >= 2
  {
    hide Run;
    more := TakeFirst(s0, steps, [job]);
    Extend(s0, more, Audio([0]));
    more := more + [Audio([0])];
    Extend(s0, more, EnqueueAudio);
    more := more + [EnqueueAudio];
    Extend(s0, more, Consume);
    more := more + [Consume];
    more := FinishJob(s0, more, []);
  }

  /** If a sentence follows an interrupt of its turn and a renewal of the token, some interleaving
      enqueues two or more chunks of the turn after the queue was cleared. */
  lemma RevivalBreaksBound(inbox: seq<Event>, cap: nat, turn: TurnId) returns (steps: seq<Step>)
    requires !NoRevival(inbox, turn)
    ensures Run(Initial(inbox, cap, turn), steps).Some? && Run(Initial(inbox, cap, turn), steps).value.late >= 2
  {
    hide Run, Barred, Interrupted;
    var k :| 0 <= k < |inbox| && IsSentenceOf(inbox[k], turn) && Interrupted(inbox[..k], turn) && !Barred(inbox[..k], turn);
    var s0 := Initial(inbox, cap, turn);
    steps := HandleAll(inbox, cap, turn, k);
    steps := CalmStep(s0, steps, k);
    assert inbox[..k + 1] == inbox[..k] + [inbox[k]];
    PastGrows(inbox[..k], inbox[k], turn);
    var s := Run(s0, steps).value;
    var jobs := s.b.pending;
    steps := DrainToLast(s0, steps, jobs);
    assert jobs[|jobs| - 1..] == [jobs[|jobs| - 1]];
    steps := PlayTwo(s0, steps, jobs[|jobs| - 1]);
  }

  /** The barge-in bound holds in every interleaving exactly when no sentence of the turn follows an
      interrupt of it and a renewal of its token. */
  lemma BoundIsExact(inbox: seq<Event>, cap: nat, turn: TurnId)
    ensures NoRevival(inbox, turn) <==>
            forall steps :: Run(Initial(inbox, cap, turn), steps).Some? ==> Run(Initial(inbox, cap, turn), steps).value.late <= 1
  {
    hide Run, NoRevival;
    if NoRevival(inbox, turn) {
      forall steps | Run(Initial(inbox, cap, turn), steps).Some?
        ensures Run(Initial(inbox, cap, turn), steps).value.late <= 1
      {
        BargeInBound(inbox, cap, turn, steps);
      }
    } else {
      var steps := RevivalBreaksBound(inbox, cap, turn);
    }
  }

  // ----- What the client's order gives -----

  /** The order in which the client publishes a turn's events: no sentence after the end of the reply, and
      no start after an interrupt. */
  ghost predicate ClientOrder(inbox: seq<Event>, turn: TurnId) {
    && (forall i, k :: 0 <= i < k < |inbox| && inbox[i].LlmFinished? && inbox[i].turn == turn ==> !IsSentenceOf(inbox[k], turn))
    && (forall i, k :: 0 <= i < k < |inbox| && inbox[i] == UserInterrupted(turn) ==> inbox[k] != LlmStarted(turn))
  }

  lemma {:induction false} BarredUntil(inbox: seq<Event>, turn: TurnId, k: nat)
    requires ClientOrder(inbox, turn) && k < |inbox| && IsSentenceOf(inbox[k], turn)
    ensures forall j :: 0 <= j <= k && Interrupted(inbox[..j], turn) ==> Barred(inbox[..j], turn)
  {
    for j := 0 to k
      invariant forall l :: 0 <= l <= j && Interrupted(inbox[..l], turn) ==> Barred(inbox[..l], turn)
    {
      assert inbox[..j + 1] == inbox[..j] + [inbox[j]];
      PastGrows(inbox[..j], inbox[j], turn);
      if Interrupted(inbox[..j], turn) {
        var i :| 0 <= i < j && inbox[..j][i] == UserInterrupted(turn);
        assert inbox[i] == UserInterrupted(turn);
      }
    }
  }

  /** In the client's order no interrupted turn is revived, so the bound holds in every interleaving. */
  lemma ClientOrderBounds(inbox: seq<Event>, cap: nat, turn: TurnId, steps: seq<Step>)
    requires ClientOrder(inbox, turn) && Run(Initial(inbox, cap, turn), steps).Some?
    ensures NoRevival(inbox, turn) && Run(Initial(inbox, cap, turn), steps).value.late <= 1
  {
    hide Run, Barred, Interrupted, ClientOrder;
    forall k | 0 <= k < |inbox| && IsSentenceOf(inbox[k], turn) && Interrupted(inbox[..k], turn) ensures Barred(inbox[..k], turn) {
      BarredUntil(inbox, turn, k);
    }
    BargeInBound(inbox, cap, turn, steps);
  }

  lemma Next(s0: Sys, steps: seq<Step>, s: Sys, step: Step) returns (more: seq<Step>, t: Sys)
    requires Run(s0, steps) == Some(s) && Enabled(s, step)
    ensures t == Apply(s, step) && Run(s0, more) == Some(t)
  {
    Extend(s0, steps, step);
    more, t := steps + [step], Apply(s, step);
  }

  function OneReply(turn: TurnId): seq<Event> {
    [LlmStarted(turn), LlmSentence(turn, 0, "", ""), UserInterrupted(turn)]
  }

  /** `on_audio` looked at the token just before the interrupt: a job of the turn is about to enqueue. */
  lemma AboutToEnqueue(turn: TurnId, cap: nat) returns (steps: seq<Step>, s: Sys)
    ensures Run(Initial(OneReply(turn), cap, turn), steps) == Some(s)
    ensures s.io == Deliver(Job(turn, 0, 0), false, [0]) && s.handler == Waiting && s.phase == Running && s.next == 2
    ensures s.inbox == OneReply(turn) && s.queue == [] && s.late == 0 && s.target == turn && s.cap == cap
    ensures s.b.tokens == map[turn := 0] && s.b.pending == [] && s.b.inFlight == Some(0)
  {
    var s0 := Initial(OneReply(turn), cap, turn);
    assert Run(s0, []) == Some(s0);
    hide Run, AfterInterrupt;
    steps, s := [], s0;
    steps, s := Next(s0, steps, s, HandleEvent);
    steps, s := Next(s0, steps, s, HandleEvent);
    steps, s := Next(s0, steps, s, Take);
    steps, s := Next(s0, steps, s, FirstLook);
    steps, s := Next(s0, steps, s, Audio([0]));
  }

  /** The bound is tight: in the client's order, one late chunk is possible. */
  lemma OneLateChunk(turn: TurnId, cap: nat) returns (steps: seq<Step>)
    ensures ClientOrder(OneReply(turn), turn)
    ensures Run(Initial(OneReply(turn), cap, turn), steps).Some? && Run(Initial(OneReply(turn), cap, turn), steps).value.late == 1
  {
    hide Run, OtherTurns;
    var s0 := Initial(OneReply(turn), cap, turn);
    var s;
    steps, s := AboutToEnqueue(turn, cap);
    steps, s := Next(s0, steps, s, HandleEvent);
    assert s.handler == Cancelling(turn, [0] + [0]);
    steps, s := Next(s0, steps, s, CancelOne);
    steps, s := Next(s0, steps, s, CancelOne);
    assert s.handler.todo == [];
    steps, s := Next(s0, steps, s, ClearQueue);
    steps, s := Next(s0, steps, s, EnqueueAudio);
  }
}
