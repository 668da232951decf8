/** The audio of one uninterrupted turn: what synthesis gave is what the device gets, in order, over all
    interleavings of the threads of TurnProtocol. */
module TurnSpeech {
  import B = TtsBridge
  import F = Fsm
  import opened Events
  import opened Playback
  import opened Speech
  import opened TurnProtocol
  import opened Wrappers

  type Turn = TurnProtocol.Turn
  type Step = TurnProtocol.Step

  function SaidIn(s: Turn, step: Step): seq<Sound>
    requires TurnProtocol.Enabled(s, step)
  {
    if step.BridgeDoes? then SpokenIn(s.bridge, step.step) else []
  }

  function WrittenIn(s: Turn, step: Step): seq<Chunk>
    requires TurnProtocol.Enabled(s, step)
  {
    if step.WriteOut? then [s.player.chunk] else []
  }

  /** What synthesis gave for the sentences of the turn. */
  function Said(c: Setup, steps: seq<Step>): seq<Sound>
    requires TurnProtocol.Run(Initial(c), steps).Some?
  {
    if steps == [] then [] else
    Said(c, steps[..|steps| - 1]) + SaidIn(TurnProtocol.Run(Initial(c), steps[..|steps| - 1]).value, steps[|steps| - 1])
  }

  /** The chunks that were written to the device. */
  function Written(c: Setup, steps: seq<Step>): seq<Chunk>
    requires TurnProtocol.Run(Initial(c), steps).Some?
  {
    if steps == [] then [] else
    Written(c, steps[..|steps| - 1]) + WrittenIn(TurnProtocol.Run(Initial(c), steps[..|steps| - 1]).value, steps[|steps| - 1])
  }

  function Unwritten(p: Player): seq<Chunk> {
    if p.Playing? && !p.writtenOut then [p.chunk] else []
  }

  /** What is on its way from synthesis to the device. */
  function OnItsWay(s: Turn): seq<Sound> {
    Voices(Unwritten(s.player)) + (Voices(s.bridge.queue) + InHand(s.bridge.io))
  }

  lemma BridgeStepSpeaks(b: B.Sys, step: B.Step)
    requires B.Enabled(b, step) && Undisturbed(step) && b.cap == 0 && !b.io.Blocked?
    requires step.HandleEvent? ==> !b.inbox[b.next].UserInterrupted?
    ensures var c := B.Apply(b, step);
            && c.cap == 0 && !c.io.Blocked?
            && Voices(c.queue) + InHand(c.io) == Voices(b.queue) + InHand(b.io) + SpokenIn(b, step)
  {
    hide B.Apply, QueuedIn, InHand, SpokenIn, Voices, B.Enabled;
    var c := B.Apply(b, step);
    Speech.QueueGrows(b, step);
    StepSpeaks(b, step);
    VoicesAppend(b.queue, QueuedIn(b, c));
    Follows(Voices(b.queue), Voices(QueuedIn(b, c)), InHand(c.io), InHand(b.io), SpokenIn(b, step));
  }

  lemma Follows(a: seq<Sound>, more: seq<Sound>, after: seq<Sound>, before: seq<Sound>, spoken: seq<Sound>)
    requires more + after == before + spoken
    ensures a + more + after == a + before + spoken
  {
    assert a + more + after == a + (more + after);
  }

  lemma VoicesFirst(queue: seq<Chunk>)
    requires queue != []
    ensures Voices(queue) == Voices([queue[0]]) + Voices(queue[1..])
  {
    VoicesAppend([queue[0]], queue[1..]);
    assert queue == [queue[0]] + queue[1..];
  }

  lemma NothingVoiced()
    ensures Voices([]) == []
  {}

  ghost predicate Unbounded(s: Turn) {
    && s.bridge.cap == 0 && !s.bridge.io.Blocked?
    && forall i :: 0 <= i < |s.bridge.inbox| ==> !s.bridge.inbox[i].UserInterrupted?
  }

  lemma BridgeSays(s: Turn, step: B.Step)
    requires TurnProtocol.Enabled(s, BridgeDoes(step)) && Unbounded(s)
    ensures var t := TurnProtocol.Apply(s, BridgeDoes(step));
            Unbounded(t) && OnItsWay(t) == OnItsWay(s) + SpokenIn(s.bridge, step)
  {
    hide Voices, InHand, SpokenIn;
    InboxStays(s.bridge, step);
    BridgeStepSpeaks(s.bridge, step);
    hide B.Apply, B.Enabled;
    Regroup(Voices(Unwritten(s.player)), Voices(s.bridge.queue), InHand(s.bridge.io), SpokenIn(s.bridge, step));
  }

  lemma Regroup(a: seq<Sound>, b: seq<Sound>, c: seq<Sound>, d: seq<Sound>)
    ensures a + (b + c + d) == a + (b + c) + d && a + (b + c + d) == a + b + c + d
    ensures a + (b + c) == a + b + c
  {}

  lemma NoneBeforeOrAfter(a: seq<Sound>)
    ensures [] + a == a && a + [] == a
  {}

  lemma DequeueSays(s: Turn)
    requires TurnProtocol.Enabled(s, Dequeue) && Unbounded(s)
    ensures Unbounded(TurnProtocol.Apply(s, Dequeue)) && OnItsWay(TurnProtocol.Apply(s, Dequeue)) == OnItsWay(s)
  {
    hide Voices, InHand, GateClosed;
    NothingVoiced();
    VoicesFirst(s.bridge.queue);
    Regroup([], Voices([s.bridge.queue[0]]), Voices(s.bridge.queue[1..]), InHand(s.bridge.io));
    NoneBeforeOrAfter(Voices([s.bridge.queue[0]]) + Voices(s.bridge.queue[1..]) + InHand(s.bridge.io));
    Regroup([], [], Voices([s.bridge.queue[0]]), Voices(s.bridge.queue[1..]));
  }

  lemma OthersSay(s: Turn, step: Step)
    requires TurnProtocol.Enabled(s, step) && Unbounded(s) && !step.BridgeDoes? && !step.Dequeue?
    ensures var t := TurnProtocol.Apply(s, step);
            Unbounded(t) && Voices(WrittenIn(s, step)) + OnItsWay(t) == OnItsWay(s)
  {
    hide Voices, InHand, F.Handle, GateClosed, B.Apply, B.Enabled;
    NothingVoiced();
    var rest := Voices(s.bridge.queue) + InHand(s.bridge.io);
    NoneBeforeOrAfter(rest);
    NoneBeforeOrAfter(OnItsWay(TurnProtocol.Apply(s, step)));
  }

  lemma StepSays(s: Turn, step: Step)
    requires TurnProtocol.Enabled(s, step) && Unbounded(s)
    ensures var t := TurnProtocol.Apply(s, step);
            Unbounded(t) && Voices(WrittenIn(s, step)) + OnItsWay(t) == OnItsWay(s) + SaidIn(s, step)
  {
    NothingVoiced();
    hide Voices, Unbounded, OnItsWay, TurnProtocol.Apply, TurnProtocol.Enabled, SpokenIn;
    NoneBeforeOrAfter(OnItsWay(s));
    NoneBeforeOrAfter(OnItsWay(TurnProtocol.Apply(s, step)));
    if step.BridgeDoes? {
      BridgeSays(s, step.step);
    } else if step.Dequeue? {
      DequeueSays(s);
    } else {
      OthersSay(s, step);
    }
  }

  lemma InboxStays(b: B.Sys, step: B.Step)
    requires B.Enabled(b, step)
    ensures B.Apply(b, step).inbox == b.inbox
  {
    hide B.AfterInterrupt, B.AfterSentence;
  }

  /** With an unbounded queue, in every interleaving: what was written to the device, then what is on its
      way, is sample by sample what synthesis gave for the turn's sentences, each followed by its end. */
  lemma {:induction false} WrittenIsSaid(c: Setup, steps: seq<Step>)
    requires TurnProtocol.Run(Initial(c), steps).Some? && c.cap == 0
    ensures var s := TurnProtocol.Run(Initial(c), steps).value;
            Unbounded(s) && Voices(Written(c, steps)) + OnItsWay(s) == Said(c, steps)
  {
    if steps == [] {
      NothingOnItsWay(c);
    } else {
      hide TurnProtocol.Apply, TurnProtocol.Enabled, OnItsWay, SaidIn, WrittenIn, Voices, Unbounded;
      var init, step := steps[..|steps| - 1], steps[|steps| - 1];
      WrittenIsSaid(c, init);
      var s, t := TurnProtocol.Run(Initial(c), init).value, TurnProtocol.Run(Initial(c), steps).value;
      StepSays(s, step);
      VoicesAppend(Written(c, init), WrittenIn(s, step));
      Regroup(Voices(Written(c, init)), Voices(WrittenIn(s, step)), OnItsWay(t), []);
      Regroup(Voices(Written(c, init)), OnItsWay(s), SaidIn(s, step), []);
    }
  }

  lemma NothingOnItsWay(c: Setup)
    ensures OnItsWay(Initial(c)) == [] && Voices([]) == [] && (c.cap == 0 ==> Unbounded(Initial(c)))
  {}

  // ----- A completed turn -----

  /** Between two jobs the last chunk on its way is the end of a sentence. */
  ghost predicate EndsComplete(s: Turn) {
    var chunks := Unwritten(s.player) + s.bridge.queue;
    IoNo(s.bridge.io) == [] && chunks != [] ==> chunks[|chunks| - 1].last
  }

  lemma QueueEndsComplete(b: B.Sys, step: B.Step)
    requires B.Enabled(b, step) && Undisturbed(step) && b.b.cancelledTokens == {}
    requires step.HandleEvent? ==> !b.inbox[b.next].UserInterrupted?
    ensures var c := B.Apply(b, step);
            && (c.queue == b.queue || (exists x: Chunk :: c.queue == b.queue + [x] && (IoNo(c.io) == [] ==> x.last)))
            && (c.queue == b.queue && IoNo(c.io) == [] ==> IoNo(b.io) == [])
  {
    hide B.AfterInterrupt;
    var c := B.Apply(b, step);
    if c.queue != b.queue {
      var x := c.queue[|c.queue| - 1];
      assert c.queue == b.queue + [x];
    }
  }

  lemma BridgeEndsComplete(s: Turn, step: B.Step)
    requires Clean(s.bridge, s.id) && EndsComplete(s) && TurnProtocol.Enabled(s, BridgeDoes(step))
    ensures EndsComplete(TurnProtocol.Apply(s, BridgeDoes(step)))
  {
    assert step.HandleEvent? ==> OfTurn(s.bridge.inbox[s.bridge.next], s.id);
    QueueEndsComplete(s.bridge, step);
    hide B.Apply, B.Enabled, IoNo, Clean;
    var after := B.Apply(s.bridge, step);
    if after.queue != s.bridge.queue {
      var x: Chunk :| after.queue == s.bridge.queue + [x] && (IoNo(after.io) == [] ==> x.last);
      assert (Unwritten(s.player) + after.queue)[|Unwritten(s.player) + after.queue| - 1] == x;
    }
  }

  lemma DequeueEndsComplete(s: Turn)
    requires EndsComplete(s) && TurnProtocol.Enabled(s, Dequeue)
    ensures EndsComplete(TurnProtocol.Apply(s, Dequeue))
  {
    hide IoNo, GateClosed;
    assert [] + s.bridge.queue == [s.bridge.queue[0]] + s.bridge.queue[1..];
  }

  lemma OtherKeepsChunks(s: Turn, step: Step)
    requires TurnProtocol.Enabled(s, step) && !step.BridgeDoes? && !step.Dequeue?
    ensures var t := TurnProtocol.Apply(s, step);
            && t.bridge.queue == s.bridge.queue && t.bridge.io == s.bridge.io
            && (t.player == s.player || (t.player.Playing? && t.player.writtenOut) || !t.player.Playing?)
  {
    hide GateClosed, F.Handle, B.Apply, B.Enabled;
  }

  lemma OtherEndsComplete(s: Turn, step: Step)
    requires EndsComplete(s) && TurnProtocol.Enabled(s, step) && !step.BridgeDoes? && !step.Dequeue?
    ensures EndsComplete(TurnProtocol.Apply(s, step))
  {
    hide IoNo, TurnProtocol.Apply, TurnProtocol.Enabled;
    OtherKeepsChunks(s, step);
    assert [] + s.bridge.queue == s.bridge.queue;
  }

  lemma StepEndsComplete(s: Turn, completed: nat, step: Step)
    requires TurnProtocol.Inv(s, completed) && EndsComplete(s) && TurnProtocol.Enabled(s, step)
    ensures EndsComplete(TurnProtocol.Apply(s, step))
  {
    hide FsmSide, PublisherSide, Upstream, Downstream, Within, Clean, EndsComplete, TurnProtocol.Apply, TurnProtocol.Enabled;
    if step.BridgeDoes? {
      BridgeEndsComplete(s, step.step);
    } else if step.Dequeue? {
      DequeueEndsComplete(s);
    } else {
      OtherEndsComplete(s, step);
    }
  }

  lemma {:induction false} RunEndsComplete(c: Setup, steps: seq<Step>)
    requires c.id != NO_TURN && TurnProtocol.Run(Initial(c), steps).Some?
    ensures EndsComplete(TurnProtocol.Run(Initial(c), steps).value)
  {
    if steps != [] {
      hide TurnProtocol.Apply, TurnProtocol.Enabled, EndsComplete, Inv;
      RunEndsComplete(c, steps[..|steps| - 1]);
      RunKeeps(c, steps[..|steps| - 1]);
      StepEndsComplete(TurnProtocol.Run(Initial(c), steps[..|steps| - 1]).value, c.completed, steps[|steps| - 1]);
    }
  }

  lemma {:induction false} NoEndQueued(queue: seq<Chunk>)
    requires Collect(queue, LastNo) == []
    ensures queue != [] ==> !queue[|queue| - 1].last
  {
    if |queue| > 1 { NoEndQueued(queue[1..]); }
  }

  lemma NothingLeft(s: Turn, completed: nat)
    requires TurnProtocol.Inv(s, completed) && EndsComplete(s) && s.fsm.sentencesPlayed == |s.sentences|
    ensures OnItsWay(s) == []
  {
    hide FsmSide, Within, Clean, Collect;
    assert |Downstream(s) + Upstream(s.bridge)| == 0;
    NoEndQueued(s.bridge.queue);
    NothingVoiced();
  }

  /** When the turn has completed, the device got everything that synthesis gave for it, in order. */
  lemma CompletedIsHeard(c: Setup, steps: seq<Step>)
    requires c.id != NO_TURN && c.cap == 0 && TurnProtocol.Run(Initial(c), steps).Some?
    requires TurnProtocol.Run(Initial(c), steps).value.fsm.turnsCompleted > c.completed
    ensures Voices(Written(c, steps)) == Said(c, steps)
  {
    hide TurnProtocol.Run, Inv, GateSide, Voices, OnItsWay;
    TurnCompletesOnce(c, steps);
    RunKeeps(c, steps);
    RunEndsComplete(c, steps);
    WrittenIsSaid(c, steps);
    NothingLeft(TurnProtocol.Run(Initial(c), steps).value, c.completed);
    assert Voices(Written(c, steps)) + [] == Voices(Written(c, steps));
  }
}
