/** TtsBridge of src/dialogue/tts_bridge.cpp: sentences become synthesis jobs, and jobs become audio
    chunks in the playback queue. The class holds what the two threads share, one method per lock
    region; the machine below interleaves the event handler, the I/O thread, the playback engine and
    `stop()`, one atomic step at a time. Tokens are numbers, and the cancelled ones form a set. */
module TtsBridge {
  import opened Events
  import opened Playback
  import opened Wrappers

  type Token = nat

  datatype Job = Job(turn: TurnId, seqNo: nat, token: Token)

  datatype Bridge = Bridge(
    tokens: map<TurnId, Token>, nextToken: Token, cancelledTokens: set<Token>,
    pending: seq<Job>, inFlight: Option<Token>,
    received: nat, synthesized: nat, cancelled: nat, errored: nat)

  const IDLE_BRIDGE: Bridge := Bridge(map[], 0, {}, [], None, 0, 0, 0, 0)

  // ----- Lock regions -----

  function AfterStarted(b: Bridge, turn: TurnId): Bridge {
    b.(tokens := b.tokens[turn := b.nextToken], nextToken := b.nextToken + 1)
  }

  /** The token of a turn, minted if there is none. */
  function WithToken(b: Bridge, turn: TurnId): (r: Bridge)
    ensures turn in r.tokens
  {
    if turn in b.tokens then b else AfterStarted(b, turn)
  }

  function AfterSentence(b0: Bridge, turn: TurnId, seqNo: nat): Bridge {
    var b := WithToken(b0.(received := b0.received + 1), turn);
    if b.tokens[turn] in b.cancelledTokens then b.(cancelled := b.cancelled + 1)
    else b.(pending := b.pending + [Job(turn, seqNo, b.tokens[turn])])
  }

  function AfterFinished(b: Bridge, turn: TurnId): Bridge {
    b.(tokens := b.tokens - {turn})
  }

  function OtherTurns(jobs: seq<Job>, turn: TurnId): (r: seq<Job>)
    ensures |r| <= |jobs|
  {
    if jobs == [] then [] else
    var n := |jobs| - 1;
    OtherTurns(jobs[..n], turn) + if jobs[n].turn == turn then [] else [jobs[n]]
  }

  /** The interrupt's lock region, and the tokens it goes on to cancel. */
  function AfterInterrupt(b: Bridge, turn: TurnId): (Bridge, seq<Token>) {
    var kept := OtherTurns(b.pending, turn);
    var c := b.(pending := kept, cancelled := b.cancelled + |b.pending| - |kept|);
    var own := if turn in b.tokens then [b.tokens[turn]] else [];
    var d := if turn in b.tokens then c
             else c.(tokens := c.tokens[turn := c.nextToken], nextToken := c.nextToken + 1,
                     cancelledTokens := c.cancelledTokens + {c.nextToken});
    (d, own + if b.inFlight.Some? then [b.inFlight.value] else [])
  }

  function AfterTake(b: Bridge): Bridge
    requires b.pending != []
  {
    b.(pending := b.pending[1..], inFlight := Some(b.pending[0].token))
  }

  class TtsBridge {
    const queue: PlaybackQueue
    var tokens: map<TurnId, Token>
    var nextToken: Token
    var cancelledTokens: set<Token>
    var pending: seq<Job>
    var inFlight: Option<Token>
    var received: nat
    var synthesized: nat
    var cancelled: nat
    var errored: nat

    function View(): Bridge
      reads this
    {
      Bridge(tokens, nextToken, cancelledTokens, pending, inFlight, received, synthesized, cancelled, errored)
    }

    constructor (q: PlaybackQueue)
      ensures View() == IDLE_BRIDGE && queue == q
    {
      queue := q;
      tokens, nextToken, cancelledTokens, pending, inFlight := map[], 0, {}, [], None;
      received, synthesized, cancelled, errored := 0, 0, 0, 0;
    }

    method OnLlmStarted(turn: TurnId)
      modifies this
      ensures View() == AfterStarted(old(View()), turn)
    {
      tokens := tokens[turn := nextToken];
      nextToken := nextToken + 1;
    }

    method TokenFor(turn: TurnId) returns (token: Token)
      modifies this
      ensures View() == WithToken(old(View()), turn) && token == tokens[turn]
    {
      if turn !in tokens {
        token := nextToken;
        tokens := tokens[turn := token];
        nextToken := nextToken + 1;
      } else {
        token := tokens[turn];
      }
    }

    method OnLlmSentence(turn: TurnId, seqNo: nat)
      modifies this
      ensures View() == AfterSentence(old(View()), turn, seqNo)
    {
      received := received + 1;
      var token := TokenFor(turn);
      if token in cancelledTokens {
        cancelled := cancelled + 1;
        return;
      }
      pending := pending + [Job(turn, seqNo, token)];
    }

    method OnLlmFinished(turn: TurnId)
      modifies this
      ensures View() == AfterFinished(old(View()), turn)
    {
      tokens := tokens - {turn};
    }

    /** The loop that rebuilds the pending jobs without those of the turn. */
    method DropPending(turn: TurnId)
      modifies this
      ensures var kept := OtherTurns(old(pending), turn);
              View() == old(View()).(pending := kept, cancelled := old(cancelled) + |old(pending)| - |kept|)
    {
      var kept: seq<Job> := [];
      for i := 0 to |pending|
        invariant pending == old(pending) && |kept| <= i
        invariant kept == OtherTurns(pending[..i], turn)
        invariant View() == old(View()).(cancelled := old(cancelled) + i - |kept|)
      {
        assert pending[..i + 1][..i] == pending[..i];
        if pending[i].turn == turn { cancelled := cancelled + 1; } else { kept := kept + [pending[i]]; }
      }
      assert pending[..|pending|] == pending;
      pending := kept;
    }

    method InterruptRegion(turn: TurnId) returns (toCancel: seq<Token>)
      modifies this
      ensures (View(), toCancel) == AfterInterrupt(old(View()), turn)
    {
      hide OtherTurns;
      toCancel := [];
      if turn in tokens {
        toCancel := toCancel + [tokens[turn]];
      } else {
        cancelledTokens := cancelledTokens + {nextToken};
        tokens := tokens[turn := nextToken];
        nextToken := nextToken + 1;
      }
      DropPending(turn);
      if inFlight.Some? { toCancel := toCancel + [inFlight.value]; }
      assert toCancel == AfterInterrupt(old(View()), turn).1;
    }

    /** The whole handler, when no other thread runs in between. */
    method OnUserInterrupted(turn: TurnId)
      modifies this, queue
      ensures var (b, toCancel) := AfterInterrupt(old(View()), turn);
              View() == b.(cancelledTokens := b.cancelledTokens + set t | t in toCancel)
      ensures queue.items == []
    {
      var toCancel := InterruptRegion(turn);
      ghost var b := View();
      for i := 0 to |toCancel|
        invariant View() == b.(cancelledTokens := b.cancelledTokens + set t | t in toCancel[..i])
      {
        cancelledTokens := cancelledTokens + {toCancel[i]};
      }
      assert toCancel[..|toCancel|] == toCancel;
      var _ := queue.Clear();
    }

    method TakeJob() returns (job: Option<Job>)
      modifies this
      ensures job == (if old(pending) == [] then None else Some(old(pending)[0]))
      ensures View() == if old(pending) == [] then old(View()) else AfterTake(old(View()))
    {
      if pending == [] { return None; }
      job := Some(pending[0]);
      pending := pending[1..];
      inFlight := Some(job.value.token);
    }

    method EndJob()
      modifies this
      ensures View() == old(View()).(inFlight := None)
    {
      inFlight := None;
    }
  }

  // ----- The machine -----

  /** The event handler: between events, or cancelling tokens before it clears the queue. */
  datatype Handler = Waiting | Cancelling(turn: TurnId, todo: seq<Token>)

  /** The I/O thread, by the next thing it does with its job. */
  datatype Io =
    | Idle
    | Begin(job: Job)                                   // first look at the token
    | Synth(job: Job, err: bool)                        // inside submit()
    | Deliver(job: Job, err: bool, samples: seq<int>)   // on_audio has looked at the token and will enqueue
    | Returned(job: Job, err: bool)                     // submit() is over
    | Ending(job: Job, err: bool, samples: seq<int>)    // the final chunk will be enqueued
    | Blocked(job: Job, err: bool, samples: seq<int>)   // the queue was full; look at the token
    | Tally(job: Job, err: bool)                        // last look at the token, and count
    | Done(job: Job)                                    // counted; the in-flight slot is still set
    | Exited

  datatype Phase = Running | Unsubscribed | Stopping

  /** `inbox` is everything delivered to the bridge, `next` the first event not yet handled. `cleared`
      tells that an interrupt of turn `target` has cleared the queue, and `late` counts the chunks of
      that turn enqueued since. */
  datatype Sys = Sys(
    b: Bridge, inbox: seq<Event>, next: nat, handler: Handler, io: Io, phase: Phase,
    queue: seq<Chunk>, cap: nat, target: TurnId, cleared: bool, late: nat)

  /** `Audio` brings samples from the resampler, `LookAtTail` what flushing it gives. */
  datatype Step =
    | HandleEvent | CancelOne | ClearQueue
    | Take | FirstLook | Audio(samples: seq<int>) | EnqueueAudio | Fail | Return
    | LookAtTail(tail: seq<int>) | EnqueueLast | Poll | Count | EndOfJob | Exit
    | Consume | Unsubscribe | SignalStop

  function JobOf(io: Io): Option<Job> {
    if io.Idle? || io.Exited? then None else Some(io.job)
  }

  predicate Room(s: Sys) { s.cap == 0 || |s.queue| < s.cap }

  predicate Enabled(s: Sys, step: Step) {
    match step
    case HandleEvent => s.phase == Running && s.handler == Waiting && s.next < |s.inbox|
    case CancelOne => s.handler.Cancelling? && s.handler.todo != []
    case ClearQueue => s.handler.Cancelling? && s.handler.todo == []
    case Take => s.io == Idle && s.b.pending != []
    case FirstLook => s.io.Begin?
    case Audio(_) => s.io.Synth?
    case EnqueueAudio => s.io.Deliver?
    case Fail => s.io.Synth?
    case Return => s.io.Synth?
    case LookAtTail(_) => s.io.Returned?
    case EnqueueLast => s.io.Ending?
    case Poll => s.io.Blocked?
    case Count => s.io.Tally?
    case EndOfJob => s.io.Done?
    case Exit => s.io == Idle && s.phase == Stopping && s.b.pending == []
    case Consume => s.queue != []
    case Unsubscribe => s.phase == Running && s.handler == Waiting
    case SignalStop => s.phase == Unsubscribed
  }

  predicate IsCancelled(s: Sys, job: Job) { job.token in s.b.cancelledTokens }

  function Handled(s: Sys, e: Event): Sys {
    match e
    case LlmStarted(turn) => s.(b := AfterStarted(s.b, turn))
    case LlmSentence(turn, seqNo, _, _) => s.(b := AfterSentence(s.b, turn, seqNo))
    case LlmFinished(turn, _) => s.(b := AfterFinished(s.b, turn))
    case UserInterrupted(turn) =>
      var (b, todo) := AfterInterrupt(s.b, turn);
      s.(b := b, handler := Cancelling(turn, todo))
    case _ => s
  }

  function Enqueued(s: Sys, c: Chunk): Sys {
    s.(queue := s.queue + [c], late := s.late + if s.cleared && c.turn == s.target then 1 else 0)
  }

  function Apply(s: Sys, step: Step): Sys
    requires Enabled(s, step)
  {
    match step
    case HandleEvent => Handled(s, s.inbox[s.next]).(next := s.next + 1)
    case CancelOne =>
      s.(b := s.b.(cancelledTokens := s.b.cancelledTokens + {s.handler.todo[0]}),
         handler := Cancelling(s.handler.turn, s.handler.todo[1..]))
    case ClearQueue =>
      s.(queue := [], handler := Waiting, cleared := s.cleared || s.handler.turn == s.target)
    case Take => s.(b := AfterTake(s.b), io := Begin(s.b.pending[0]))
    case FirstLook =>
      if IsCancelled(s, s.io.job) then s.(b := s.b.(cancelled := s.b.cancelled + 1), io := Done(s.io.job))
      else s.(io := Synth(s.io.job, false))
    case Audio(samples) =>
      if s.io.err || IsCancelled(s, s.io.job) || samples == [] then s else s.(io := Deliver(s.io.job, s.io.err, samples))
    case EnqueueAudio =>
      var t := s.(io := Synth(s.io.job, s.io.err));
      if Room(s) then Enqueued(t, Chunk(s.io.job.turn, s.io.job.seqNo, s.io.samples, false)) else t
    case Fail => s.(io := Synth(s.io.job, true))
    case Return => s.(io := Returned(s.io.job, s.io.err))
    case LookAtTail(tail) =>
      s.(io := if IsCancelled(s, s.io.job) then Tally(s.io.job, s.io.err) else Ending(s.io.job, s.io.err, tail))
    case EnqueueLast =>
      if Room(s) then
        Enqueued(s.(io := Tally(s.io.job, s.io.err)), Chunk(s.io.job.turn, s.io.job.seqNo, s.io.samples, true))
      else s.(io := Blocked(s.io.job, s.io.err, s.io.samples))
    case Poll =>
      s.(io := if IsCancelled(s, s.io.job) then Tally(s.io.job, s.io.err) else Ending(s.io.job, s.io.err, s.io.samples))
    case Count =>
      var b := if IsCancelled(s, s.io.job) then s.b.(cancelled := s.b.cancelled + 1)
               else if s.io.err then s.b.(errored := s.b.errored + 1)
               else s.b.(synthesized := s.b.synthesized + 1);
      s.(b := b, io := Done(s.io.job))
    case EndOfJob => s.(b := s.b.(inFlight := None), io := Idle)
    case Exit => s.(io := Exited)
    case Consume => s.(queue := s.queue[1..])
    case Unsubscribe => s.(phase := Unsubscribed)
    case SignalStop =>
      s.(phase := Stopping,
         b := if s.b.inFlight.Some? then s.b.(cancelledTokens := s.b.cancelledTokens + {s.b.inFlight.value}) else s.b)
  }

  function Initial(inbox: seq<Event>, cap: nat, target: TurnId): Sys {
    Sys(IDLE_BRIDGE, inbox, 0, Waiting, Idle, Running, [], cap, target, false, 0)
  }

  /** The state after the steps, or `None` when one of them was not possible. */
  function Run(s: Sys, steps: seq<Step>): Option<Sys> {
    if steps == [] then Some(s) else
    var before := Run(s, steps[..|steps| - 1]);
    if before.None? || !Enabled(before.value, steps[|steps| - 1]) then None
    else Some(Apply(before.value, steps[|steps| - 1]))
  }

  // ----- Conservation of sentences -----

  /** A job that is taken and not yet counted. */
  predicate IsRunning(io: Io) {
    JobOf(io).Some? && !io.Done?
  }

  ghost predicate Conserved(s: Sys) {
    && s.b.received == s.b.synthesized + s.b.cancelled + s.b.errored + |s.b.pending| + (if IsRunning(s.io) then 1 else 0)
    && s.b.inFlight == (if JobOf(s.io).Some? then Some(JobOf(s.io).value.token) else None)
    && (s.phase != Running ==> s.handler == Waiting)
    && (s.io == Exited ==> s.phase == Stopping && s.b.pending == [])
  }

  /** The sentences a bridge has accounted for, the running job aside. */
  function Accounted(b: Bridge): nat {
    b.synthesized + b.cancelled + b.errored + |b.pending|
  }

  lemma HandlersCount(b: Bridge, turn: TurnId, seqNo: nat)
    ensures var c := AfterSentence(b, turn, seqNo);
            c.inFlight == b.inFlight && c.received == b.received + 1 && Accounted(c) == Accounted(b) + 1
    ensures var c := AfterInterrupt(b, turn).0;
            c.inFlight == b.inFlight && c.received == b.received && Accounted(c) == Accounted(b)
  {
    hide OtherTurns;
  }

  lemma HandleConserves(s: Sys)
    requires Conserved(s) && Enabled(s, HandleEvent)
    ensures Conserved(Apply(s, HandleEvent))
  {
    hide AfterSentence, AfterInterrupt;
    match s.inbox[s.next]
    case LlmSentence(turn, seqNo, _, _) => HandlersCount(s.b, turn, seqNo);
    case UserInterrupted(turn) => HandlersCount(s.b, turn, 0);
    case _ =>
  }

  lemma StepConserves(s: Sys, step: Step)
    requires Conserved(s) && Enabled(s, step)
    ensures Conserved(Apply(s, step))
  {
    if step == HandleEvent {
      HandleConserves(s);
    } else {
      hide Handled;
    }
  }

  lemma {:induction false} RunConserves(s: Sys, steps: seq<Step>)
    requires Conserved(s) && Run(s, steps).Some?
    ensures Conserved(Run(s, steps).value)
  {
    hide Conserved, Apply, Enabled;
    if steps != [] {
      RunConserves(s, steps[..|steps| - 1]);
      StepConserves(Run(s, steps[..|steps| - 1]).value, steps[|steps| - 1]);
    }
  }

  /** In every reachable state each sentence received was synthesized, cancelled or failed, or is
      pending, or is the running job; once the I/O thread has left after `stop()`, the three counters
      alone account for all of them. */
  lemma SentencesConserved(inbox: seq<Event>, cap: nat, steps: seq<Step>)
    requires Run(Initial(inbox, cap, NO_TURN), steps).Some?
    ensures var s := Run(Initial(inbox, cap, NO_TURN), steps).value;
            && s.b.received == s.b.synthesized + s.b.cancelled + s.b.errored + |s.b.pending| + (if IsRunning(s.io) then 1 else 0)
            && (s.io == Exited ==> s.b.received == s.b.synthesized + s.b.cancelled + s.b.errored)
  {
    RunConserves(Initial(inbox, cap, NO_TURN), steps);
  }

  // ----- Barge-in -----

  predicate Interrupted(events: seq<Event>, turn: TurnId) {
    exists i :: 0 <= i < |events| && events[i] == UserInterrupted(turn)
  }

  /** Of the events that touch the turn's token, the last one was an interrupt. */
  predicate Barred(events: seq<Event>, turn: TurnId) {
    events != [] &&
    var last := events[|events| - 1];
    if last == UserInterrupted(turn) then true
    else if last == LlmStarted(turn) || (last.LlmFinished? && last.turn == turn) then false
    else Barred(events[..|events| - 1], turn)
  }

  predicate IsSentenceOf(e: Event, turn: TurnId) {
    e.LlmSentence? && e.turn == turn
  }

  /** No sentence of the turn comes after an interrupt of it and after its token was renewed since. */
  ghost predicate NoRevival(inbox: seq<Event>, turn: TurnId) {
    forall k :: 0 <= k < |inbox| && IsSentenceOf(inbox[k], turn) && Interrupted(inbox[..k], turn) ==> Barred(inbox[..k], turn)
  }

  /** The token is cancelled, or the running interrupt is about to cancel it. */
  predicate Doomed(s: Sys, token: Token) {
    token in s.b.cancelledTokens || (s.handler.Cancelling? && token in s.handler.todo)
  }

  predicate WillEnqueue(io: Io) { io.Deliver? || io.Ending? }

  predicate BusyWith(s: Sys, turn: TurnId) {
    JobOf(s.io).Some? && JobOf(s.io).value.turn == turn
  }

  /** How many queued chunks are of the turn. */
  function ChunksOf(queue: seq<Chunk>, turn: TurnId): nat {
    if queue == [] then 0 else ChunksOf(queue[..|queue| - 1], turn) + if queue[|queue| - 1].turn == turn then 1 else 0
  }

  lemma ChunksGrow(queue: seq<Chunk>, c: Chunk, turn: TurnId)
    ensures ChunksOf(queue + [c], turn) == ChunksOf(queue, turn) + if c.turn == turn then 1 else 0
  {
    assert (queue + [c])[..|queue|] == queue;
  }

  lemma {:induction false} ChunksShrink(queue: seq<Chunk>, turn: TurnId)
    requires queue != []
    ensures ChunksOf(queue[1..], turn) <= ChunksOf(queue, turn)
  {
    if |queue| > 1 {
      ChunksShrink(queue[..|queue| - 1], turn);
      assert queue[1..][..|queue| - 2] == queue[..|queue| - 1][1..];
    }
  }

  ghost predicate Quieted(s: Sys) {
    var t, past := s.target, s.inbox[..if s.next <= |s.inbox| then s.next else 0];
    && s.next <= |s.inbox|
    && s.b.inFlight == (if JobOf(s.io).Some? then Some(JobOf(s.io).value.token) else None)
    && (Barred(past, t) ==> t in s.b.tokens && Doomed(s, s.b.tokens[t]))
    && (Interrupted(past, t) ==>
          && (forall i :: 0 <= i < |s.b.pending| ==> s.b.pending[i].turn != t)
          && (BusyWith(s, t) ==> Doomed(s, JobOf(s.io).value.token)))
    && (s.cleared ==> Interrupted(past, t) && (BusyWith(s, t) ==> JobOf(s.io).value.token in s.b.cancelledTokens))
    && s.late + (if s.cleared && BusyWith(s, t) && WillEnqueue(s.io) then 1 else 0) <= 1
    && (!s.cleared ==> s.late == 0)
    && (s.cleared ==> ChunksOf(s.queue, t) <= s.late)
    && (s.handler.Cancelling? && s.handler.turn == t ==> Interrupted(past, t))
  }

  lemma {:induction false} OtherTurnsHasNone(jobs: seq<Job>, turn: TurnId, other: TurnId)
    ensures forall i :: 0 <= i < |OtherTurns(jobs, turn)| ==> OtherTurns(jobs, turn)[i].turn != turn
    ensures (forall i :: 0 <= i < |jobs| ==> jobs[i].turn != other) ==>
              forall i :: 0 <= i < |OtherTurns(jobs, turn)| ==> OtherTurns(jobs, turn)[i].turn != other
  {
    if jobs != [] { OtherTurnsHasNone(jobs[..|jobs| - 1], turn, other); }
  }

  lemma PastGrows(events: seq<Event>, e: Event, turn: TurnId)
    ensures Interrupted(events + [e], turn) <==> Interrupted(events, turn) || e == UserInterrupted(turn)
    ensures Barred(events + [e], turn) ==
            if e == UserInterrupted(turn) then true
            else if e == LlmStarted(turn) || (e.LlmFinished? && e.turn == turn) then false
            else Barred(events, turn)
  {
    var all := events + [e];
    assert all[..|events|] == events && all[|events|] == e;
    if Interrupted(events, turn) {
      var i :| 0 <= i < |events| && events[i] == UserInterrupted(turn);
      assert all[i] == UserInterrupted(turn);
    }
  }

  lemma NextEvent(s: Sys)
    requires s.next < |s.inbox|
    ensures var past, e, t := s.inbox[..s.next], s.inbox[s.next], s.target;
            && (Interrupted(s.inbox[..s.next + 1], t) <==> Interrupted(past, t) || e == UserInterrupted(t))
            && Barred(s.inbox[..s.next + 1], t) ==
               if e == UserInterrupted(t) then true
               else if e == LlmStarted(t) || (e.LlmFinished? && e.turn == t) then false
               else Barred(past, t)
  {
    hide Barred, Interrupted;
    assert s.inbox[..s.next + 1] == s.inbox[..s.next] + [s.inbox[s.next]];
    PastGrows(s.inbox[..s.next], s.inbox[s.next], s.target);
  }

  lemma InterruptKeepsQuiet(s: Sys)
    requires Quieted(s) && Enabled(s, HandleEvent) && s.inbox[s.next].UserInterrupted?
    ensures Quieted(Apply(s, HandleEvent))
  {
    hide Barred, Interrupted, OtherTurns;
    NextEvent(s);
    OtherTurnsHasNone(s.b.pending, s.inbox[s.next].turn, s.target);
  }

  lemma SentenceKeepsQuiet(s: Sys)
    requires Quieted(s) && Enabled(s, HandleEvent) && s.inbox[s.next].LlmSentence?
    requires var past := s.inbox[..s.next];
             IsSentenceOf(s.inbox[s.next], s.target) && Interrupted(past, s.target) ==> Barred(past, s.target)
    ensures Quieted(Apply(s, HandleEvent))
  {
    hide Barred, Interrupted;
    NextEvent(s);
  }

  /** One event of the handler. */
  lemma HandleKeepsQuiet(s: Sys)
    requires Quieted(s) && NoRevival(s.inbox, s.target) && Enabled(s, HandleEvent)
    ensures Quieted(Apply(s, HandleEvent))
  {
    var e := s.inbox[s.next];
    if e.UserInterrupted? {
      hide *;
      InterruptKeepsQuiet(s);
    } else if e.LlmSentence? {
      hide Quieted, Barred, Interrupted;
      SentenceKeepsQuiet(s);
    } else {
      hide Barred, Interrupted, OtherTurns, NoRevival, AfterSentence, AfterInterrupt;
      NextEvent(s);
    }
  }

  lemma OtherStepKeepsQuiet(s: Sys, step: Step)
    requires Quieted(s) && Enabled(s, step) && step != HandleEvent
    ensures Quieted(Apply(s, step))
  {
    hide Barred, Interrupted, Handled, ChunksOf;
    var t := Apply(s, step);
    if step.EnqueueAudio? || step.EnqueueLast? {
      if t.queue != s.queue { ChunksGrow(s.queue, t.queue[|t.queue| - 1], s.target); }
    } else if step.Consume? {
      ChunksShrink(s.queue, s.target);
    } else if step.ClearQueue? {
      NoChunks(s.target);
    }
  }

  lemma NoChunks(turn: TurnId)
    ensures ChunksOf([], turn) == 0
  {}

  lemma {:induction false} RunQuiet(s: Sys, steps: seq<Step>)
    requires Quieted(s) && NoRevival(s.inbox, s.target) && Run(s, steps).Some?
    ensures Quieted(Run(s, steps).value) && Run(s, steps).value.inbox == s.inbox && Run(s, steps).value.target == s.target
  {
    hide Quieted, NoRevival;
    if steps != [] {
      RunQuiet(s, steps[..|steps| - 1]);
      var t, step := Run(s, steps[..|steps| - 1]).value, steps[|steps| - 1];
      if step == HandleEvent { HandleKeepsQuiet(t); } else { OtherStepKeepsQuiet(t, step); }
    }
  }

  /** The barge-in bound: after an interrupt of a turn has cleared the queue, the I/O thread enqueues
      at most one more chunk of that turn, in every interleaving, provided no sentence of the turn
      follows the interrupt and a renewal of its token; and at most that chunk of it is queued. */
  lemma BargeInBound(inbox: seq<Event>, cap: nat, turn: TurnId, steps: seq<Step>)
    requires NoRevival(inbox, turn) && Run(Initial(inbox, cap, turn), steps).Some?
    ensures var s := Run(Initial(inbox, cap, turn), steps).value;
            s.late <= 1 && (s.cleared ==> ChunksOf(s.queue, turn) <= s.late)
  {
    RunQuiet(Initial(inbox, cap, turn), steps);
  }

  // ----- What an interrupt leaves alone -----

  function JobsOf(jobs: seq<Job>, turn: TurnId): seq<Job> {
    if jobs == [] then [] else JobsOf(jobs[..|jobs| - 1], turn) + if jobs[|jobs| - 1].turn == turn then [jobs[|jobs| - 1]] else []
  }

  lemma JobsGrow(jobs: seq<Job>, job: Job, turn: TurnId)
    ensures JobsOf(jobs + [job], turn) == JobsOf(jobs, turn) + if job.turn == turn then [job] else []
  {
    assert (jobs + [job])[..|jobs|] == jobs;
  }

  /** An interrupt drops every pending job of its turn, and of each other turn none, in order. */
  lemma {:induction false} InterruptDropsOnlyItsTurn(jobs: seq<Job>, turn: TurnId, other: TurnId)
    ensures JobsOf(OtherTurns(jobs, turn), other) == if other == turn then [] else JobsOf(jobs, other)
  {
    if jobs != [] {
      InterruptDropsOnlyItsTurn(jobs[..|jobs| - 1], turn, other);
      var rest, job := OtherTurns(jobs[..|jobs| - 1], turn), jobs[|jobs| - 1];
      JobsGrow(rest, job, other);
      assert rest + [] == rest && JobsOf(rest, other) + [] == JobsOf(rest, other);
    }
  }
}
