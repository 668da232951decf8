/** The bad outcomes that TurnProtocol leaves room for are reachable: a reply of more sentences than the
    postbox holds can lose a playback, and a reply with too little audio can be held by the gate. */
module TurnOutcomes {
  import B = TtsBridge
  import F = Fsm
  import opened Events
  import opened Playback
  import opened TurnProtocol
  import opened Wrappers

  type Turn = TurnProtocol.Turn
  type Step = TurnProtocol.Step

  lemma Extend(c: Setup, steps: seq<Step>, step: Step)
    requires TurnProtocol.Run(Initial(c), steps).Some? && Enabled(TurnProtocol.Run(Initial(c), steps).value, step)
    ensures TurnProtocol.Run(Initial(c), steps + [step]) ==
            Some(TurnProtocol.Apply(TurnProtocol.Run(Initial(c), steps).value, step))
  {
    assert (steps + [step])[..|steps|] == steps;
  }

  ghost predicate Reaches(c: Setup, steps: seq<Step>, s: Turn) {
    TurnProtocol.Run(Initial(c), steps) == Some(s)
  }

  lemma Next(c: Setup, steps: seq<Step>, s: Turn, step: Step) returns (more: seq<Step>, t: Turn)
    requires Reaches(c, steps, s) && Enabled(s, step)
    ensures t == TurnProtocol.Apply(s, step) && Reaches(c, more, t)
  {
    Extend(c, steps, step);
    more, t := steps + [step], TurnProtocol.Apply(s, step);
  }

  /** The bridge waits for events, with `pending` jobs, and none of its tokens is cancelled. */
  predicate Rests(b: B.Sys, pending: nat) {
    && b.handler == B.Waiting && b.io == B.Idle && b.phase == B.Running && b.next == |b.inbox|
    && |b.b.pending| == pending && b.b.cancelledTokens == {}
  }

  /** The first `k` sentences are published and synthesized, and every handler waits. */
  predicate Between(c: Setup, s: Turn, k: nat) {
    && s.id == c.id && s.sentences == c.sentences && s.prefill == c.prefill
    && s.toFsm == s.toBridge == k <= |c.sentences| && !s.endToFsm && !s.endToBridge && s.fsmQueue == []
    && Rests(s.bridge, 0) && s.bridge.cap == c.cap && s.player == Silent && s.relay == Resting
  }

  /** What the steps of the publisher and the bridge leave alone. */
  predicate SamePlayback(s: Turn, t: Turn) {
    && t.postbox == s.postbox && t.lost == s.lost && t.primed == s.primed && t.player == s.player && t.relay == s.relay
  }

  lemma Start(c: Setup) returns (steps: seq<Step>, s: Turn)
    ensures Reaches(c, steps, s) && Between(c, s, 0) && s.bridge.queue == [] && SamePlayback(Initial(c), s)
    ensures s.delivered == 0
  {
    hide TurnProtocol.Run;
    s := Initial(c);
    steps := [];
    assert Reaches(c, [], s) by { Nothing(c); }
    steps, s := Next(c, steps, s, FsmHandles);
    steps, s := Next(c, steps, s, BridgeDoes(B.HandleEvent));
  }

  lemma Nothing(c: Setup)
    ensures Reaches(c, [], Initial(c))
  {}

  lemma Publish(c: Setup, steps: seq<Step>, s: Turn, k: nat) returns (more: seq<Step>, t: Turn)
    requires Reaches(c, steps, s) && Between(c, s, k) && k < |c.sentences|
    ensures Reaches(c, more, t) && SamePlayback(s, t)
    ensures t == s.(toFsm := k + 1, toBridge := k + 1, fsm := t.fsm, bridge := t.bridge)
    ensures Rests(t.bridge, 1) && t.bridge.queue == s.bridge.queue && t.bridge.cap == c.cap
    ensures t.bridge.b.pending[0].turn == c.id && t.bridge.b.pending[0].seqNo == k
  {
    hide TurnProtocol.Run, F.Handle, Reaches;
    more, t := Next(c, steps, s, PublishToFsm);
    more, t := Next(c, more, t, FsmHandles);
    more, t := Next(c, more, t, PublishToBridge);
    more, t := Next(c, more, t, BridgeDoes(B.HandleEvent));
  }

  lemma TakeJob(c: Setup, steps: seq<Step>, s: Turn) returns (more: seq<Step>, t: Turn)
    requires Reaches(c, steps, s) && Rests(s.bridge, 1)
    ensures Reaches(c, more, t) && t == s.(bridge := t.bridge)
    ensures t.bridge == s.bridge.(b := t.bridge.b, io := B.Synth(s.bridge.b.pending[0], false))
    ensures t.bridge.b.pending == [] && t.bridge.b.cancelledTokens == {}
  {
    hide TurnProtocol.Run, Reaches, B.Handled, GateClosed;
    more, t := Next(c, steps, s, BridgeDoes(B.Take));
    more, t := Next(c, more, t, BridgeDoes(B.FirstLook));
  }

  lemma Submit(c: Setup, steps: seq<Step>, s: Turn, job: B.Job, tail: seq<int>) returns (more: seq<Step>, t: Turn)
    requires Reaches(c, steps, s) && s.bridge.io == B.Synth(job, false) && s.bridge.b.cancelledTokens == {}
    ensures Reaches(c, more, t) && t == s.(bridge := s.bridge.(io := B.Ending(job, false, tail)))
  {
    hide TurnProtocol.Run, Reaches, B.Handled, GateClosed;
    more, t := Next(c, steps, s, BridgeDoes(B.Return));
    more, t := Next(c, more, t, BridgeDoes(B.LookAtTail(tail)));
  }

  lemma EndJob(c: Setup, steps: seq<Step>, s: Turn, job: B.Job, tail: seq<int>) returns (more: seq<Step>, t: Turn)
    requires Reaches(c, steps, s) && s.bridge.io == B.Ending(job, false, tail) && B.Room(s.bridge)
    requires s.bridge.b.cancelledTokens == {}
    ensures Reaches(c, more, t) && t == s.(bridge := t.bridge, delivered := s.delivered + |tail|)
    ensures t.bridge == s.bridge.(b := t.bridge.b, io := B.Idle, late := t.bridge.late,
                                  queue := s.bridge.queue + [Chunk(job.turn, job.seqNo, tail, true)])
    ensures t.bridge.b.pending == s.bridge.b.pending && t.bridge.b.cancelledTokens == {}
  {
    hide TurnProtocol.Run, Reaches, B.Handled, GateClosed;
    more, t := Next(c, steps, s, BridgeDoes(B.EnqueueLast));
    more, t := Next(c, more, t, BridgeDoes(B.Count));
    more, t := Next(c, more, t, BridgeDoes(B.EndOfJob));
  }

  /** One more sentence, published and synthesized as a single chunk. */
  lemma Speak(c: Setup, steps: seq<Step>, s: Turn, k: nat, tail: seq<int>) returns (more: seq<Step>, t: Turn)
    requires Reaches(c, steps, s) && Between(c, s, k) && k < |c.sentences| && B.Room(s.bridge)
    ensures Reaches(c, more, t) && Between(c, t, k + 1) && SamePlayback(s, t)
    ensures t.bridge.queue == s.bridge.queue + [Chunk(c.id, k, tail, true)] && t.delivered == s.delivered + |tail|
  {
    hide TurnProtocol.Run, Reaches;
    more, t := Publish(c, steps, s, k);
    var job := t.bridge.b.pending[0];
    more, t := TakeJob(c, more, t);
    more, t := Submit(c, more, t, job, tail);
    more, t := EndJob(c, more, t, job, tail);
  }

  // ----- Losing a playback -----

  /** The chunk is played and its end posted; the thread that empties the postbox does not get to run. */
  lemma Play(c: Setup, steps: seq<Step>, s: Turn, k: nat, chunk: Chunk) returns (more: seq<Step>, t: Turn)
    requires Reaches(c, steps, s) && Between(c, s, k) && s.bridge.queue == [chunk] && chunk.last && !GateClosed(s)
    requires chunk.turn != NO_TURN
    ensures Reaches(c, more, t) && Between(c, t, k) && t.bridge.queue == []
    ensures t.primed == if c.prefill > 0 then c.id else s.primed
    ensures |t.postbox| == if |s.postbox| < POSTBOX_CAPACITY then |s.postbox| + 1 else |s.postbox|
    ensures t.lost == if |s.postbox| < POSTBOX_CAPACITY then s.lost else s.lost + 1
  {
    hide TurnProtocol.Run, Reaches;
    more, t := Next(c, steps, s, Dequeue);
    more, t := Next(c, more, t, WriteOut);
    more, t := Next(c, more, t, PostEnd);
  }

  lemma {:induction false} PlayAll(c: Setup, k: nat) returns (steps: seq<Step>, s: Turn)
    requires c.id != NO_TURN && k <= |c.sentences|
    ensures Reaches(c, steps, s) && Between(c, s, k) && s.bridge.queue == []
    ensures |s.postbox| == (if k < POSTBOX_CAPACITY then k else POSTBOX_CAPACITY) && s.lost == k - |s.postbox|
  {
    hide TurnProtocol.Run, Reaches, Gated;
    if k == 0 {
      steps, s := Start(c);
    } else {
      steps, s := PlayAll(c, k - 1);
      var audio := seq(c.prefill, i => 0);
      steps, s := Speak(c, steps, s, k - 1, audio);
      var chunk := Chunk(c.id, k - 1, audio, true);
      assert s.bridge.queue == [chunk];
      EnoughInOne(s, chunk);
      steps, s := Play(c, steps, s, k, chunk);
    }
  }

  lemma EnoughInOne(s: Turn, chunk: Chunk)
    requires s.bridge.queue == [chunk] && chunk.turn == s.id && s.prefill <= |chunk.samples|
    ensures !GateClosed(s)
  {
    assert [chunk][..0] == [];
  }

  /** Every reply of more sentences than the postbox holds has a run that loses a playback; no shorter
      reply has one. */
  lemma LosesExactlyLongReplies(c: Setup)
    requires c.id != NO_TURN
    ensures |c.sentences| > POSTBOX_CAPACITY <==>
            exists steps :: TurnProtocol.Run(Initial(c), steps).Some? && TurnProtocol.Run(Initial(c), steps).value.lost > 0
  {
    hide TurnProtocol.Run;
    if |c.sentences| > POSTBOX_CAPACITY {
      var steps, s := PlayAll(c, |c.sentences|);
      assert TurnProtocol.Run(Initial(c), steps).Some? && TurnProtocol.Run(Initial(c), steps).value.lost > 0;
    } else {
      forall steps | TurnProtocol.Run(Initial(c), steps).Some? ensures TurnProtocol.Run(Initial(c), steps).value.lost == 0 {
        ShortRepliesLoseNothing(c, steps);
      }
    }
  }

  // ----- Being held -----

  lemma {:induction false} SpeakAll(c: Setup, audio: seq<int>, k: nat) returns (steps: seq<Step>, s: Turn)
    requires c.id != NO_TURN && k <= |c.sentences| && (c.cap == 0 || |c.sentences| <= c.cap)
    ensures Reaches(c, steps, s) && Between(c, s, k) && |s.bridge.queue| == k && s.primed == NO_TURN
    ensures s.delivered == if k == 0 then 0 else |audio|
  {
    hide TurnProtocol.Run, Reaches;
    if k == 0 {
      steps, s := Start(c);
    } else {
      steps, s := SpeakAll(c, audio, k - 1);
      steps, s := Speak(c, steps, s, k - 1, if k == 1 then audio else []);
    }
  }

  lemma Close(c: Setup, steps: seq<Step>, s: Turn) returns (more: seq<Step>, t: Turn)
    requires Reaches(c, steps, s) && Between(c, s, |c.sentences|)
    ensures Reaches(c, more, t) && SamePlayback(s, t) && t.delivered == s.delivered && t.bridge.queue == s.bridge.queue
    ensures t.fsmQueue == [] && t.endToFsm && t.endToBridge && t.toFsm == t.toBridge && Rests(t.bridge, 0)
    ensures t.id == s.id && t.prefill == s.prefill
  {
    hide TurnProtocol.Run, F.Handle, Reaches;
    more, t := Next(c, steps, s, PublishToFsm);
    more, t := Next(c, more, t, FsmHandles);
    more, t := Next(c, more, t, PublishToBridge);
    more, t := Next(c, more, t, BridgeDoes(B.HandleEvent));
  }

  /** Behind a closed gate, with everything published and handled, nothing is left to do. */
  lemma HeldIsQuiet(s: Turn)
    requires s.fsmQueue == [] && s.endToFsm && s.endToBridge && s.toFsm == s.toBridge && Rests(s.bridge, 0)
    requires s.player == Silent && s.relay == Resting && s.postbox == [] && GateClosed(s)
    ensures Quiet(s)
  {
    hide GateClosed, Retries;
    forall step ensures !Enabled(s, step) {}
  }

  /** The gate is closed while too little was delivered. */
  lemma GateStaysClosed(s: Turn, completed: nat)
    requires Inv(s, completed) && GateSide(s) && s.primed == NO_TURN && s.delivered < s.prefill
    ensures GateClosed(s) && s.postbox == []
  {
    hide SamplesFor, FsmSide, PublisherSide, Clean, Upstream, Collect;
  }

  /** Every reply, if it is synthesized to less audio than the prefill target, has a run that ends with
      all of it queued and nothing left to do, and in which the turn has not completed. */
  lemma ShortAudioIsHeld(c: Setup, audio: seq<int>) returns (steps: seq<Step>)
    requires c.id != NO_TURN && c.sentences != [] && |audio| < c.prefill && (c.cap == 0 || |c.sentences| <= c.cap)
    ensures TurnProtocol.Run(Initial(c), steps).Some?
    ensures var s := TurnProtocol.Run(Initial(c), steps).value;
            && Quiet(s) && |s.bridge.queue| == |c.sentences| && s.delivered == |audio|
            && s.fsm.turnsCompleted == c.completed
  {
    hide TurnProtocol.Run, Inv, GateSide, GateClosed, Quiet;
    var s;
    steps, s := SpeakAll(c, audio, |c.sentences|);
    steps, s := Close(c, steps, s);
    RunKeeps(c, steps);
    GateStaysClosed(s, c.completed);
    HeldIsQuiet(s);
    QuietMeansCompletedOrHeld(c, steps);
  }
}
