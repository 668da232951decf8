/** One uninterrupted turn from the first sentence to its completion, over all interleavings of the
    threads it passes through: the LLM publisher, the bus with its subscription order (the state
    machine before the bridge, src/main.cpp), the bridge's handler and I/O thread, the playback queue,
    the audio callback, its postbox and publisher thread, and the dialogue state machine. */
module TurnProtocol {
  import B = TtsBridge
  import F = Fsm
  import opened Events
  import opened Playback
  import opened Wrappers

  const POSTBOX_CAPACITY: nat := 256

  /** Both subscriptions make the pusher wait when they are full. */
  const FSM_CAPACITY: nat := 512
  const BRIDGE_CAPACITY: nat := 256

  /** The chunk in the audio callback, and whether all its samples have been written out. */
  datatype Player = Silent | Playing(chunk: Chunk, writtenOut: bool)

  /** The thread that publishes the postbox: it pushes to the state machine first, then to the bridge. */
  datatype Relay = Resting | ForFsm(seqNo: nat) | ForBridge(seqNo: nat)

  /** `toFsm` and `toBridge` count the sentences pushed to the two subscribers so far, `delivered` the
      samples accepted by the playback queue, and `lost` the playbacks that the postbox threw away.
      `primed` is the turn for which the prefill gate has opened. */
  datatype Turn = Turn(
    id: TurnId, sentences: seq<string>,
    toFsm: nat, toBridge: nat, endToFsm: bool, endToBridge: bool,
    fsmQueue: seq<Event>, fsm: F.FsmState,
    bridge: B.Sys,
    prefill: nat, primed: TurnId, delivered: nat,
    player: Player, writtenOut: nat,
    postbox: seq<nat>, lost: nat, relay: Relay)

  datatype Step =
    | PublishToFsm | PublishToBridge
    | FsmHandles
    | BridgeDoes(step: B.Step)
    | Dequeue | WriteOut | PostEnd
    | RelayTakes | RelayToFsm | RelayToBridge

  function SentenceEvent(s: Turn, k: nat): Event
    requires k < |s.sentences|
  {
    LlmSentence(s.id, k, s.sentences[k], "")
  }

  /** What the bridge's threads do while the turn is not interrupted and nothing is shut down. */
  predicate Undisturbed(step: B.Step) {
    !(step.CancelOne? || step.ClearQueue? || step.Exit? || step.Consume? || step.Unsubscribe? || step.SignalStop?)
  }

  /** What is in the queue of the bridge's subscription. */
  function Unhandled(b: B.Sys): seq<Event> {
    if b.next <= |b.inbox| then b.inbox[b.next..] else []
  }

  /** The prefill gate of `render_into`, between two chunks. */
  predicate GateClosed(s: Turn) {
    Gated(Engine(NO_CHUNK, 0, s.primed, s.bridge.queue), s.prefill, s.id)
  }

  predicate Enabled(s: Turn, step: Step) {
    match step
    case PublishToFsm =>
      s.toFsm == s.toBridge && s.endToFsm == s.endToBridge && !s.endToFsm && |s.fsmQueue| < FSM_CAPACITY
    case PublishToBridge =>
      (s.toBridge < s.toFsm || (s.endToFsm && !s.endToBridge)) && |Unhandled(s.bridge)| < BRIDGE_CAPACITY
    case FsmHandles => s.fsmQueue != []
    case BridgeDoes(b) => Undisturbed(b) && B.Enabled(s.bridge, b)
    case Dequeue => s.player == Silent && s.bridge.queue != [] && !GateClosed(s)
    case WriteOut => s.player.Playing? && !s.player.writtenOut
    case PostEnd => s.player.Playing? && s.player.writtenOut
    case RelayTakes => s.relay == Resting && s.postbox != []
    case RelayToFsm => s.relay.ForFsm? && |s.fsmQueue| < FSM_CAPACITY
    case RelayToBridge => s.relay.ForBridge? && |Unhandled(s.bridge)| < BRIDGE_CAPACITY
  }

  function ToInbox(b: B.Sys, e: Event): B.Sys {
    b.(inbox := b.inbox + [e])
  }

  /** The samples of the chunk that a step of the bridge has put into the queue, if it has. */
  function Accepted(before: seq<Chunk>, after: seq<Chunk>): nat {
    if |before| < |after| then |after[|after| - 1].samples| else 0
  }

  function Apply(s: Turn, step: Step): Turn
    requires Enabled(s, step)
  {
    match step
    case PublishToFsm =>
      if s.toFsm < |s.sentences| then
        s.(fsmQueue := s.fsmQueue + [SentenceEvent(s, s.toFsm)], toFsm := s.toFsm + 1)
      else s.(fsmQueue := s.fsmQueue + [LlmFinished(s.id, false)], endToFsm := true)
    case PublishToBridge =>
      if s.toBridge < s.toFsm && s.toBridge < |s.sentences| then
        s.(bridge := ToInbox(s.bridge, SentenceEvent(s, s.toBridge)), toBridge := s.toBridge + 1)
      else s.(bridge := ToInbox(s.bridge, LlmFinished(s.id, false)), endToBridge := true)
    case FsmHandles =>
      s.(fsmQueue := s.fsmQueue[1..], fsm := F.Handle(s.fsm, s.fsmQueue[0], s.id + 1))
    case BridgeDoes(b) =>
      var after := B.Apply(s.bridge, b);
      s.(bridge := after, delivered := s.delivered + Accepted(s.bridge.queue, after.queue))
    case Dequeue =>
      s.(player := Playing(s.bridge.queue[0], false), bridge := s.bridge.(queue := s.bridge.queue[1..]),
         primed := if s.prefill > 0 then s.id else s.primed)
    case WriteOut =>
      s.(player := Playing(s.player.chunk, true), writtenOut := s.writtenOut + if s.player.chunk.last then 1 else 0)
    case PostEnd =>
      var k := s.player.chunk.seqNo;
      if EndOf(s.player.chunk) == [] then s.(player := Silent)
      else if |s.postbox| < POSTBOX_CAPACITY then s.(player := Silent, postbox := s.postbox + [k])
      else s.(player := Silent, postbox := s.postbox[1..] + [k], lost := s.lost + 1)
    case RelayTakes => s.(relay := ForFsm(s.postbox[0]), postbox := s.postbox[1..])
    case RelayToFsm =>
      s.(relay := ForBridge(s.relay.seqNo), fsmQueue := s.fsmQueue + [PlaybackFinished(s.id, s.relay.seqNo)])
    case RelayToBridge =>
      s.(relay := Resting, bridge := ToInbox(s.bridge, PlaybackFinished(s.id, s.relay.seqNo)))
  }

  /** A turn and what it runs on: the reply, the cap of the playback queue (0 is none), the prefill
      target in samples (0 is none), and how many turns were completed before. */
  datatype Setup = Setup(id: TurnId, sentences: seq<string>, cap: nat, prefill: nat, completed: nat)

  /** The transcript is on its way to the state machine, whose counters are clean, and the bridge has
      been told that the reply starts. */
  function Initial(c: Setup): Turn {
    Turn(c.id, c.sentences, 0, 0, false, false,
         [FinalTranscript], F.FRESH.(state := F.Transcribing, active := c.id, turnsCompleted := c.completed),
         B.Initial([LlmStarted(c.id)], c.cap, NO_TURN),
         c.prefill, NO_TURN, 0, Silent, 0, [], 0, Resting)
  }

  function Run(s: Turn, steps: seq<Step>): Option<Turn> {
    if steps == [] then Some(s) else
    var before := Run(s, steps[..|steps| - 1]);
    if before.None? || !Enabled(before.value, steps[|steps| - 1]) then None
    else Some(Apply(before.value, steps[|steps| - 1]))
  }

  // ----- Where each sentence is -----

  function Collect<T>(xs: seq<T>, f: T -> seq<nat>): seq<nat> {
    if xs == [] then [] else f(xs[0]) + Collect(xs[1..], f)
  }

  function SentenceNo(e: Event): seq<nat> { if e.LlmSentence? then [e.seqNo] else [] }
  function PlaybackNo(e: Event): seq<nat> { if e.PlaybackFinished? then [e.seqNo] else [] }
  function EndMark(e: Event): seq<nat> { if e.LlmFinished? then [0] else [] }
  function LastNo(c: Chunk): seq<nat> { if c.last then [c.seqNo] else [] }
  function JobNo(j: B.Job): seq<nat> { [j.seqNo] }

  /** The job whose final chunk is not queued yet. */
  function IoNo(io: B.Io): seq<nat> {
    if B.JobOf(io).Some? && !io.Tally? && !io.Done? then [B.JobOf(io).value.seqNo] else []
  }

  function PlayerNo(p: Player): seq<nat> { if p.Playing? then LastNo(p.chunk) else [] }
  function RelayNo(r: Relay): seq<nat> { if r.ForFsm? then [r.seqNo] else [] }

  /** The sentences from the playback queue back to the bridge's inbox, oldest first. */
  function Upstream(b: B.Sys): seq<nat> {
    Collect(b.queue, LastNo) + (IoNo(b.io) + (Collect(b.b.pending, JobNo) + Collect(Unhandled(b), SentenceNo)))
  }

  /** The sentences from the state machine's queue back to the audio callback. */
  function Downstream(s: Turn): seq<nat> {
    Collect(s.fsmQueue, PlaybackNo) + (RelayNo(s.relay) + (s.postbox + PlayerNo(s.player)))
  }

  function Range(a: nat, b: nat): (r: seq<nat>)
    ensures a <= b ==> |r| == b - a && forall i :: 0 <= i < |r| ==> r[i] == a + i
  {
    if a >= b then [] else seq(b - a, i requires 0 <= i => a + i)
  }

  lemma {:induction false} CollectAppend<T>(a: seq<T>, b: seq<T>, f: T -> seq<nat>)
    ensures Collect(a + b, f) == Collect(a, f) + Collect(b, f)
  {
    if a == [] {
      assert a + b == b;
    } else {
      assert (a + b)[1..] == a[1..] + b;
      CollectAppend(a[1..], b, f);
    }
  }

  lemma CollectOneMore<T>(a: seq<T>, x: T, f: T -> seq<nat>)
    ensures Collect(a + [x], f) == Collect(a, f) + f(x)
  {
    CollectAppend(a, [x], f);
    assert [x][1..] == [];
    assert f(x) + [] == f(x);
  }

  // ----- The bridge neither loses nor reorders -----

  predicate OfTurn(e: Event, id: TurnId) {
    || e == LlmStarted(id) || (e.LlmSentence? && e.turn == id)
    || (e.LlmFinished? && e.turn == id) || (e.PlaybackFinished? && e.turn == id)
  }

  /** The bridge works for this turn only and nothing was cancelled. */
  ghost predicate Clean(b: B.Sys, id: TurnId) {
    && b.handler == B.Waiting && b.phase == B.Running && b.io != B.Exited
    && b.b.cancelledTokens == {} && b.next <= |b.inbox|
    && (forall i :: 0 <= i < |b.inbox| ==> OfTurn(b.inbox[i], id))
    && (forall i :: 0 <= i < |b.b.pending| ==> b.b.pending[i].turn == id)
    && (B.JobOf(b.io).Some? ==> B.JobOf(b.io).value.turn == id)
    && (forall i :: 0 <= i < |b.queue| ==> b.queue[i].turn == id)
  }

  lemma HandleStaysClean(b: B.Sys, id: TurnId)
    requires Clean(b, id) && B.Enabled(b, B.HandleEvent)
    ensures Clean(B.Apply(b, B.HandleEvent), id)
  {
    assert OfTurn(b.inbox[b.next], id);
  }

  lemma HandleKeepsUpstream(b: B.Sys, id: TurnId)
    requires Clean(b, id) && B.Enabled(b, B.HandleEvent)
    ensures Upstream(B.Apply(b, B.HandleEvent)) == Upstream(b)
  {
    hide Collect;
    var e, c, rest := b.inbox[b.next], B.Apply(b, B.HandleEvent), b.inbox[b.next + 1..];
    assert OfTurn(e, id) && !e.UserInterrupted?;
    hide Clean, OfTurn, B.AfterInterrupt;
    assert Unhandled(b) == [e] + rest && Unhandled(c) == rest;
    CollectFirst(Unhandled(b), SentenceNo);
    if e.LlmSentence? {
      var job := c.b.pending[|c.b.pending| - 1];
      assert c.b.pending == b.b.pending + [job] && c.queue == b.queue && c.io == b.io;
      hide B.Apply;
      CollectOneMore(b.b.pending, job, JobNo);
      Shift([], Collect(b.b.pending, JobNo), e.seqNo, Collect(rest, SentenceNo));
    } else {
      assert [] + Collect(rest, SentenceNo) == Collect(rest, SentenceNo);
    }
  }

  lemma HandleEventKeeps(b: B.Sys, id: TurnId)
    requires Clean(b, id) && B.Enabled(b, B.HandleEvent)
    ensures Clean(B.Apply(b, B.HandleEvent), id) && Upstream(B.Apply(b, B.HandleEvent)) == Upstream(b)
  {
    hide *;
    HandleStaysClean(b, id);
    HandleKeepsUpstream(b, id);
  }

  lemma CollectNothing<T>(f: T -> seq<nat>)
    ensures Collect([], f) == []
  {}

  /** An element moves from the front of one part to the end of the part before. */
  lemma Shift(before: seq<nat>, a: seq<nat>, x: nat, b: seq<nat>)
    ensures before + (a + [x] + b) == before + (a + ([x] + b))
  {
    assert a + [x] + b == a + ([x] + b);
  }

  lemma TakeKeeps(b: B.Sys, id: TurnId)
    requires Clean(b, id) && B.Enabled(b, B.Take)
    ensures Clean(B.Apply(b, B.Take), id) && Upstream(B.Apply(b, B.Take)) == Upstream(b)
  {
    var job := b.b.pending[0];
    assert b.b.pending == [job] + b.b.pending[1..];
    CollectAppend([job], b.b.pending[1..], JobNo);
    assert Collect([job], JobNo) == [job.seqNo] by { assert [job][1..] == []; }
    hide Collect;
    var rest, inbox := Collect(b.b.pending[1..], JobNo), Collect(Unhandled(b), SentenceNo);
    assert [job.seqNo] + rest + inbox == [job.seqNo] + (rest + inbox);
    assert [] + ([job.seqNo] + rest + inbox) == [job.seqNo] + (rest + inbox);
  }

  lemma EnqueueKeeps(b: B.Sys, id: TurnId, step: B.Step)
    requires Clean(b, id) && B.Enabled(b, step) && (step.EnqueueAudio? || step.EnqueueLast?)
    ensures Clean(B.Apply(b, step), id) && Upstream(B.Apply(b, step)) == Upstream(b)
  {
    hide Collect;
    var c := B.Apply(b, step);
    var rest := Collect(b.b.pending, JobNo) + Collect(Unhandled(b), SentenceNo);
    if c.queue != b.queue {
      var chunk := c.queue[|c.queue| - 1];
      assert c.queue == b.queue + [chunk];
      CollectOneMore(b.queue, chunk, LastNo);
      if chunk.last {
        assert Collect(b.queue, LastNo) + [chunk.seqNo] + ([] + rest) == Collect(b.queue, LastNo) + ([chunk.seqNo] + rest);
      } else {
        assert Collect(b.queue, LastNo) + [] == Collect(b.queue, LastNo);
      }
    }
  }

  lemma BridgeKeeps(b: B.Sys, id: TurnId, step: B.Step)
    requires Clean(b, id) && B.Enabled(b, step) && Undisturbed(step)
    ensures Clean(B.Apply(b, step), id) && Upstream(B.Apply(b, step)) == Upstream(b)
  {
    hide Collect;
    if step.HandleEvent? {
      HandleEventKeeps(b, id);
    } else if step.Take? {
      TakeKeeps(b, id);
    } else if step.EnqueueAudio? || step.EnqueueLast? {
      EnqueueKeeps(b, id, step);
    } else {
      hide B.Handled;
    }
  }

  lemma InboxKeeps(b: B.Sys, id: TurnId, e: Event)
    requires Clean(b, id) && OfTurn(e, id)
    ensures Clean(ToInbox(b, e), id) && Upstream(ToInbox(b, e)) == Upstream(b) + SentenceNo(e)
  {
    hide Collect;
    assert Unhandled(ToInbox(b, e)) == Unhandled(b) + [e];
    CollectOneMore(Unhandled(b), e, SentenceNo);
    var q, io, p, u := Collect(b.queue, LastNo), IoNo(b.io), Collect(b.b.pending, JobNo), Collect(Unhandled(b), SentenceNo);
    assert q + (io + (p + (u + SentenceNo(e)))) == q + (io + (p + u)) + SentenceNo(e);
  }

  // ----- The state machine's side -----

  /** Sentences come in order; a playback comes after its sentence, the end of the reply after all. */
  ghost predicate QueueOrder(q: seq<Event>, received: nat, n: nat, id: TurnId) {
    forall i :: 0 <= i < |q| ==>
      var seen := received + |Collect(q[..i], SentenceNo)|;
      && (q[i] == FinalTranscript || OfTurn(q[i], id))
      && (q[i].PlaybackFinished? ==> q[i].seqNo < seen)
      && (q[i].LlmFinished? ==> seen == n)
  }

  /** The state machine is in this turn until it has completed it, with everything handled. */
  ghost predicate FsmOk(f: F.FsmState, id: TurnId, n: nat, completed: nat) {
    && f.active == id && f.sentencesPlayed <= f.sentencesReceived <= n
    && (f.llmFinishedSeen ==> f.sentencesReceived == n)
    && if f.turnsCompleted == completed then
         || (f.state == F.Transcribing && f.sentencesReceived == 0 && !f.llmFinishedSeen)
         || (f.state == F.Thinking && f.sentencesReceived == 0 && !f.llmFinishedSeen)
         || (f.state == F.Speaking && 0 < f.sentencesReceived
             && !(f.llmFinishedSeen && f.sentencesPlayed == f.sentencesReceived))
       else
         f.turnsCompleted == completed + 1 && f.state == F.Listening && f.llmFinishedSeen && f.sentencesPlayed == n
  }

  /** Numbers from `a` up to `b`, ascending. */
  ghost predicate Within(c: seq<nat>, a: nat, b: nat) {
    && (forall i :: 0 <= i < |c| ==> a <= c[i] < b)
    && (forall i, j :: 0 <= i < j < |c| ==> c[i] < c[j])
  }

  ghost predicate FsmSide(s: Turn, completed: nat) {
    var f, n := s.fsm, |s.sentences|;
    && FsmOk(f, s.id, n, completed)
    && Collect(s.fsmQueue, SentenceNo) == Range(f.sentencesReceived, s.toFsm)
    && QueueOrder(s.fsmQueue, f.sentencesReceived, n, s.id)
    && |Collect(s.fsmQueue, EndMark)| + (if f.llmFinishedSeen then 1 else 0) == (if s.endToFsm then 1 else 0)
    && (f.state == F.Transcribing ==> s.fsmQueue != [] && s.fsmQueue[0] == FinalTranscript)
  }

  ghost predicate PublisherSide(s: Turn) {
    && s.toBridge <= s.toFsm <= s.toBridge + 1 && s.toFsm <= |s.sentences|
    && s.fsm.sentencesReceived <= s.toFsm
    && (s.endToBridge ==> s.endToFsm) && (s.endToFsm ==> s.toBridge == |s.sentences|)
  }

  /** Every sentence handed to the bridge and not yet reported as played is in exactly one place, unless
      the postbox threw it away, and the places taken together hold them in order. */
  ghost predicate ChainSide(s: Turn) {
    && Clean(s.bridge, s.id)
    && (s.player.Playing? ==> s.player.chunk.turn == s.id)
    && s.fsm.sentencesPlayed <= s.toBridge
    && Within(Downstream(s) + Upstream(s.bridge), s.fsm.sentencesPlayed, s.toBridge)
    && s.fsm.sentencesPlayed + s.lost + |Downstream(s) + Upstream(s.bridge)| == s.toBridge
    && s.writtenOut == s.fsm.sentencesPlayed + s.lost + |Collect(s.fsmQueue, PlaybackNo)| + |RelayNo(s.relay)| + |s.postbox|
                       + (if s.player.Playing? && s.player.writtenOut then |PlayerNo(s.player)| else 0)
  }

  ghost predicate Inv(s: Turn, completed: nat) {
    s.id != NO_TURN && PublisherSide(s) && FsmSide(s, completed) && ChainSide(s)
  }

  lemma QueueGrows(q: seq<Event>, e: Event, received: nat, n: nat, id: TurnId)
    requires QueueOrder(q, received, n, id) && OfTurn(e, id)
    requires e.PlaybackFinished? ==> e.seqNo < received + |Collect(q, SentenceNo)|
    requires e.LlmFinished? ==> received + |Collect(q, SentenceNo)| == n
    ensures QueueOrder(q + [e], received, n, id)
  {
    forall i | 0 <= i < |q + [e]| ensures (q + [e])[..i] == if i < |q| then q[..i] else q {}
  }

  lemma QueuePops(q: seq<Event>, received: nat, n: nat, id: TurnId)
    requires QueueOrder(q, received, n, id) && q != []
    ensures QueueOrder(q[1..], received + |SentenceNo(q[0])|, n, id)
    ensures forall f: Event -> seq<nat> :: Collect(q, f) == f(q[0]) + Collect(q[1..], f)
    ensures q[0].PlaybackFinished? ==> q[0].seqNo < received
    ensures q[0].LlmFinished? ==> received == n
    ensures q[0] == FinalTranscript || OfTurn(q[0], id)
  {
    assert q[..0] == [];
    forall i | 0 <= i < |q[1..]| ensures
      Collect(q[..i + 1], SentenceNo) == SentenceNo(q[0]) + Collect(q[1..][..i], SentenceNo)
    {
      assert q[..i + 1][1..] == q[1..][..i];
    }
    forall i | 0 <= i < |q[1..]| ensures
      var seen := received + |SentenceNo(q[0])| + |Collect(q[1..][..i], SentenceNo)|;
      && (q[1..][i] == FinalTranscript || OfTurn(q[1..][i], id))
      && (q[1..][i].PlaybackFinished? ==> q[1..][i].seqNo < seen)
      && (q[1..][i].LlmFinished? ==> seen == n)
    {
      assert q[i + 1] == q[1..][i];
      assert received + |Collect(q[..i + 1], SentenceNo)| == received + |SentenceNo(q[0])| + |Collect(q[1..][..i], SentenceNo)|;
    }
  }

  // ----- Every step keeps the invariant -----

  lemma QueueCollects(q: seq<Event>, e: Event)
    ensures Collect(q + [e], SentenceNo) == Collect(q, SentenceNo) + SentenceNo(e)
    ensures Collect(q + [e], PlaybackNo) == Collect(q, PlaybackNo) + PlaybackNo(e)
    ensures Collect(q + [e], EndMark) == Collect(q, EndMark) + EndMark(e)
  {
    CollectOneMore(q, e, SentenceNo);
    CollectOneMore(q, e, PlaybackNo);
    CollectOneMore(q, e, EndMark);
  }

  lemma RangeGrows(a: nat, b: nat)
    requires a <= b
    ensures Range(a, b) + [b] == Range(a, b + 1)
  {}

  lemma WithinGrows(c: seq<nat>, a: nat, b: nat)
    requires a <= b && Within(c, a, b)
    ensures Within(c + [b], a, b + 1)
  {}

  lemma WithinPops(x: seq<nat>, rest: seq<nat>, a: nat, b: nat)
    requires |x| <= 1 && Within(x + rest, a, b)
    ensures Within(rest, a + |x|, b)
  {
    var c := x + rest;
    assert forall i :: 0 <= i < |rest| ==> rest[i] == c[|x| + i];
    assert x != [] ==> a <= c[0] < b;
  }

  lemma WithinDrops(before: seq<nat>, x: nat, rest: seq<nat>, a: nat, b: nat)
    requires Within(before + ([x] + rest), a, b)
    ensures Within(before + rest, a, b)
  {
    var c, d := before + ([x] + rest), before + rest;
    assert forall i :: 0 <= i < |d| ==> d[i] == c[if i < |before| then i else i + 1];
  }

  lemma {:induction false} WithinFits(c: seq<nat>, a: nat, b: nat)
    requires a <= b && Within(c, a, b)
    ensures |c| <= b - a && (c != [] && |c| == b - a ==> c[0] == a)
    decreases |c|
  {
    if c != [] {
      assert c == [c[0]] + c[1..];
      WithinPops([c[0]], c[1..], c[0], b);
      WithinFits(c[1..], c[0] + 1, b);
    }
  }

  /** The event that the publisher pushes next. */
  function NextPublished(s: Turn): Event {
    if s.toFsm < |s.sentences| then SentenceEvent(s, s.toFsm) else LlmFinished(s.id, false)
  }

  lemma PublishedFsmSide(s: Turn, completed: nat)
    requires PublisherSide(s) && FsmSide(s, completed) && Enabled(s, PublishToFsm)
    ensures FsmSide(Apply(s, PublishToFsm), completed)
  {
    hide Collect, QueueOrder, FsmOk;
    var q, e, received := s.fsmQueue, NextPublished(s), s.fsm.sentencesReceived;
    QueueCollects(q, e);
    QueueGrows(q, e, received, |s.sentences|, s.id);
    RangeGrows(received, s.toFsm);
    assert Collect(q, SentenceNo) + [] == Collect(q, SentenceNo);
  }

  lemma PublishToFsmKeeps(s: Turn, completed: nat)
    requires Inv(s, completed) && Enabled(s, PublishToFsm)
    ensures Inv(Apply(s, PublishToFsm), completed)
  {
    hide FsmSide, Collect, Clean, Upstream;
    PublishedFsmSide(s, completed);
    QueueCollects(s.fsmQueue, NextPublished(s));
    assert Collect(s.fsmQueue, PlaybackNo) + [] == Collect(s.fsmQueue, PlaybackNo);
  }

  lemma PublishToBridgeKeeps(s: Turn, completed: nat)
    requires Inv(s, completed) && Enabled(s, PublishToBridge)
    ensures Inv(Apply(s, PublishToBridge), completed)
  {
    hide Collect, QueueOrder, Clean, Upstream, FsmOk;
    var e := if s.toBridge < s.toFsm then SentenceEvent(s, s.toBridge) else LlmFinished(s.id, false);
    InboxKeeps(s.bridge, s.id, e);
    var chain := Downstream(s) + Upstream(s.bridge);
    WithinGrows(chain, s.fsm.sentencesPlayed, s.toBridge);
    assert Downstream(s) + (Upstream(s.bridge) + SentenceNo(e)) == chain + SentenceNo(e);
    assert chain + [] == chain;
  }

  /** One event of the state machine, at the place in the reply where the queue can hold it. */
  lemma HandleKeepsOk(f: F.FsmState, e: Event, id: TurnId, n: nat, completed: nat)
    requires FsmOk(f, id, n, completed) && (e == FinalTranscript || OfTurn(e, id))
    requires f.state == F.Transcribing ==> e == FinalTranscript
    requires e.LlmSentence? ==> f.sentencesReceived < n
    requires e.PlaybackFinished? ==> f.sentencesPlayed < f.sentencesReceived
    requires e.LlmFinished? ==> f.sentencesReceived == n && !f.llmFinishedSeen
    ensures FsmOk(F.Handle(f, e, id + 1), id, n, completed)
    ensures var g := F.Handle(f, e, id + 1);
            && g.sentencesReceived == f.sentencesReceived + |SentenceNo(e)|
            && g.sentencesPlayed == f.sentencesPlayed + |PlaybackNo(e)|
            && g.llmFinishedSeen == (f.llmFinishedSeen || e.LlmFinished?)
            && g.state != F.Transcribing
  {}

  lemma HeadFits(q: seq<Event>, received: nat, n: nat, id: TurnId)
    requires QueueOrder(q, received, n, id) && q != []
    ensures q[0] == FinalTranscript || OfTurn(q[0], id)
    ensures q[0].PlaybackFinished? ==> q[0].seqNo < received
    ensures q[0].LlmFinished? ==> received == n
  {
    assert q[..0] == [];
  }

  lemma HeadOfChain(s: Turn)
    requires ChainSide(s) && s.fsmQueue != [] && s.fsmQueue[0].PlaybackFinished?
    ensures var k := s.fsmQueue[0].seqNo;
            s.fsm.sentencesPlayed <= k < s.toBridge && (s.lost == 0 ==> k == s.fsm.sentencesPlayed)
  {
    hide Collect, Clean, Upstream;
    CollectFirst(s.fsmQueue, PlaybackNo);
    var chain := Downstream(s) + Upstream(s.bridge);
    assert chain[0] == s.fsmQueue[0].seqNo;
    WithinFits(chain, s.fsm.sentencesPlayed, s.toBridge);
  }

  /** What the invariant says of the event that the state machine handles next. */
  lemma HeadOfQueue(s: Turn, completed: nat)
    requires Inv(s, completed) && s.fsmQueue != []
    ensures var e, f := s.fsmQueue[0], s.fsm;
            && (e == FinalTranscript || OfTurn(e, s.id))
            && (f.state == F.Transcribing ==> e == FinalTranscript)
            && (e.LlmSentence? ==> e.seqNo == f.sentencesReceived < s.toFsm)
            && (e.PlaybackFinished? ==>
                  && f.sentencesPlayed <= e.seqNo < f.sentencesReceived && f.sentencesPlayed < s.toBridge
                  && (s.lost == 0 ==> e.seqNo == f.sentencesPlayed))
            && (e.LlmFinished? ==> f.sentencesReceived == |s.sentences| && !f.llmFinishedSeen && s.endToFsm)
  {
    hide Collect, QueueOrder, FsmOk, ChainSide;
    var e, f := s.fsmQueue[0], s.fsm;
    HeadFits(s.fsmQueue, f.sentencesReceived, |s.sentences|, s.id);
    CollectFirst(s.fsmQueue, SentenceNo);
    CollectFirst(s.fsmQueue, EndMark);
    if e.LlmSentence? {
      assert Collect(s.fsmQueue, SentenceNo)[0] == e.seqNo;
    }
    if e.PlaybackFinished? { HeadOfChain(s); }
  }

  lemma RestOfQueue(q: seq<Event>, received: nat, n: nat, id: TurnId)
    requires QueueOrder(q, received, n, id) && q != []
    ensures QueueOrder(q[1..], received + |SentenceNo(q[0])|, n, id)
    ensures Collect(q, SentenceNo) == SentenceNo(q[0]) + Collect(q[1..], SentenceNo)
    ensures |Collect(q, EndMark)| == |EndMark(q[0])| + |Collect(q[1..], EndMark)|
  {
    hide QueueOrder;
    QueuePops(q, received, n, id);
    CollectFirst(q, SentenceNo);
    CollectFirst(q, EndMark);
  }

  lemma HandledState(s: Turn, completed: nat)
    requires Inv(s, completed) && Enabled(s, FsmHandles)
    ensures var e, f, g := s.fsmQueue[0], s.fsm, Apply(s, FsmHandles).fsm;
            && FsmOk(g, s.id, |s.sentences|, completed)
            && g.sentencesReceived == f.sentencesReceived + |SentenceNo(e)| <= s.toFsm
            && g.sentencesPlayed == f.sentencesPlayed + |PlaybackNo(e)|
            && g.llmFinishedSeen == (f.llmFinishedSeen || e.LlmFinished?)
            && (e.LlmFinished? ==> !f.llmFinishedSeen)
            && g.state != F.Transcribing
  {
    HeadOfQueue(s, completed);
    assert FsmOk(s.fsm, s.id, |s.sentences|, completed) && s.fsm.sentencesReceived <= s.toFsm <= |s.sentences|;
    hide Inv, F.Handle, FsmOk;
    HandleKeepsOk(s.fsm, s.fsmQueue[0], s.id, |s.sentences|, completed);
  }

  lemma HandledFsmSide(s: Turn, completed: nat)
    requires Inv(s, completed) && Enabled(s, FsmHandles)
    ensures FsmSide(Apply(s, FsmHandles), completed) && PublisherSide(Apply(s, FsmHandles))
  {
    hide Collect, QueueOrder, ChainSide, F.Handle, FsmOk, Range;
    var e, f, rest := s.fsmQueue[0], s.fsm, s.fsmQueue[1..];
    HandledState(s, completed);
    RestOfQueue(s.fsmQueue, f.sentencesReceived, |s.sentences|, s.id);
    DropFirst(SentenceNo(e), Collect(rest, SentenceNo), f.sentencesReceived, s.toFsm);
  }

  lemma HandledChainSide(s: Turn, completed: nat)
    requires Inv(s, completed) && Enabled(s, FsmHandles)
    requires Apply(s, FsmHandles).fsm.sentencesPlayed == s.fsm.sentencesPlayed + |PlaybackNo(s.fsmQueue[0])|
    ensures ChainSide(Apply(s, FsmHandles))
  {
    hide Collect, FsmSide, Clean, Upstream, F.Handle, PublisherSide;
    var e, rest := s.fsmQueue[0], s.fsmQueue[1..];
    CollectFirst(s.fsmQueue, PlaybackNo);
    var tail := RelayNo(s.relay) + (s.postbox + PlayerNo(s.player));
    var after := Collect(rest, PlaybackNo) + tail + Upstream(s.bridge);
    assert Downstream(s) + Upstream(s.bridge) == PlaybackNo(e) + after;
    WithinPops(PlaybackNo(e), after, s.fsm.sentencesPlayed, s.toBridge);
  }

  lemma FsmHandlesKeeps(s: Turn, completed: nat)
    requires Inv(s, completed) && Enabled(s, FsmHandles)
    ensures Inv(Apply(s, FsmHandles), completed)
  {
    HandledState(s, completed);
    HandledFsmSide(s, completed);
    HandledChainSide(s, completed);
    hide FsmSide, ChainSide, PublisherSide, F.Handle;
  }

  lemma DropFirst(x: seq<nat>, rest: seq<nat>, a: nat, b: nat)
    requires |x| <= 1 && a <= b && x + rest == Range(a, b)
    ensures a + |x| <= b && rest == Range(a + |x|, b)
  {
    assert rest == (x + rest)[|x|..];
  }

  lemma BridgeDoesKeeps(s: Turn, completed: nat, step: B.Step)
    requires Inv(s, completed) && Enabled(s, BridgeDoes(step))
    ensures Inv(Apply(s, BridgeDoes(step)), completed)
  {
    hide Collect, QueueOrder, Clean, Upstream, FsmOk, B.Apply;
    BridgeKeeps(s.bridge, s.id, step);
  }

  lemma ConsumeKeeps(b: B.Sys, id: TurnId)
    requires Clean(b, id) && b.queue != []
    ensures Clean(b.(queue := b.queue[1..]), id) && b.queue[0].turn == id
    ensures Upstream(b) == LastNo(b.queue[0]) + Upstream(b.(queue := b.queue[1..]))
  {
    hide Collect;
    CollectFirst(b.queue, LastNo);
    var rest := IoNo(b.io) + (Collect(b.b.pending, JobNo) + Collect(Unhandled(b), SentenceNo));
    assert LastNo(b.queue[0]) + Collect(b.queue[1..], LastNo) + rest == LastNo(b.queue[0]) + (Collect(b.queue[1..], LastNo) + rest);
  }

  lemma DequeueKeeps(s: Turn, completed: nat)
    requires Inv(s, completed) && Enabled(s, Dequeue)
    ensures Inv(Apply(s, Dequeue), completed)
  {
    hide Collect, QueueOrder, FsmOk, Clean, Upstream;
    var c, after := s.bridge.queue[0], Upstream(s.bridge.(queue := s.bridge.queue[1..]));
    ConsumeKeeps(s.bridge, s.id);
    assert Downstream(Apply(s, Dequeue)) == Downstream(s) + LastNo(c);
    assert Downstream(s) + LastNo(c) + after == Downstream(s) + (LastNo(c) + after);
  }

  lemma CollectFirst<T>(xs: seq<T>, f: T -> seq<nat>)
    requires xs != []
    ensures Collect(xs, f) == f(xs[0]) + Collect(xs[1..], f)
  {}

  lemma FsmSideFrame(s: Turn, t: Turn, completed: nat)
    requires FsmSide(s, completed) && t.fsm == s.fsm && t.fsmQueue == s.fsmQueue && t.id == s.id
    requires t.sentences == s.sentences && t.toFsm == s.toFsm && t.endToFsm == s.endToFsm
    ensures FsmSide(t, completed)
  {
    hide Collect, QueueOrder, FsmOk;
  }

  /** The postbox drops its oldest entry. */
  lemma DroppedChain(s: Turn)
    requires ChainSide(s) && Enabled(s, PostEnd) && s.player.chunk.last && |s.postbox| >= POSTBOX_CAPACITY
    requires s.id != NO_TURN
    ensures var before, after := Downstream(s) + Upstream(s.bridge), Downstream(Apply(s, PostEnd)) + Upstream(s.bridge);
            |after| == |before| - 1 && Within(after, s.fsm.sentencesPlayed, s.toBridge)
  {
    hide Collect, Clean, Upstream, Within;
    var k := s.player.chunk.seqNo;
    var before := Collect(s.fsmQueue, PlaybackNo) + RelayNo(s.relay);
    var rest := s.postbox[1..] + [k] + Upstream(s.bridge);
    assert Downstream(s) + Upstream(s.bridge) == before + ([s.postbox[0]] + rest);
    assert Downstream(Apply(s, PostEnd)) + Upstream(s.bridge) == before + rest;
    WithinDrops(before, s.postbox[0], rest, s.fsm.sentencesPlayed, s.toBridge);
  }

  lemma PlayerKeeps(s: Turn, completed: nat, step: Step)
    requires Inv(s, completed) && Enabled(s, step) && (step.WriteOut? || step.PostEnd?)
    ensures Inv(Apply(s, step), completed)
  {
    hide Collect, FsmSide, Clean, Upstream;
    if step.PostEnd? && s.player.chunk.last {
      var k := s.player.chunk.seqNo;
      assert (s.postbox + [k]) + [] == s.postbox + [k];
      if |s.postbox| >= POSTBOX_CAPACITY {
        DroppedChain(s);
        hide Within, Downstream;
      }
    }
    assert FsmSide(Apply(s, step), completed) by { FsmSideFrame(s, Apply(s, step), completed); }
  }

  lemma RelayTakesKeeps(s: Turn, completed: nat)
    requires Inv(s, completed) && Enabled(s, RelayTakes)
    ensures Inv(Apply(s, RelayTakes), completed)
  {
    hide Collect, QueueOrder, FsmOk, Clean, Upstream;
    var k := s.postbox[0];
    assert [] + (s.postbox + PlayerNo(s.player)) == [k] + (s.postbox[1..] + PlayerNo(s.player));
  }

  lemma RelayToFsmKeeps(s: Turn, completed: nat)
    requires Inv(s, completed) && Enabled(s, RelayToFsm)
    ensures Inv(Apply(s, RelayToFsm), completed)
  {
    hide Collect, QueueOrder, FsmOk, Clean, Upstream;
    var k, e := s.relay.seqNo, PlaybackFinished(s.id, s.relay.seqNo);
    var before, rest := Collect(s.fsmQueue, PlaybackNo), s.postbox + PlayerNo(s.player);
    assert (Downstream(s) + Upstream(s.bridge))[|before|] == k;
    assert k < s.toBridge;
    QueueCollects(s.fsmQueue, e);
    QueueGrows(s.fsmQueue, e, s.fsm.sentencesReceived, |s.sentences|, s.id);
    assert (before + [k]) + ([] + rest) == before + ([k] + rest);
    assert Collect(s.fsmQueue, SentenceNo) + [] == Collect(s.fsmQueue, SentenceNo);
    assert Collect(s.fsmQueue, EndMark) + [] == Collect(s.fsmQueue, EndMark);
  }

  lemma RelayToBridgeKeeps(s: Turn, completed: nat)
    requires Inv(s, completed) && Enabled(s, RelayToBridge)
    ensures Inv(Apply(s, RelayToBridge), completed)
  {
    hide Collect, QueueOrder, FsmOk, Clean, Upstream;
    var e := PlaybackFinished(s.id, s.relay.seqNo);
    InboxKeeps(s.bridge, s.id, e);
    assert Upstream(s.bridge) + [] == Upstream(s.bridge);
  }

  /** Every step of every thread keeps the invariant. */
  lemma StepKeeps(s: Turn, completed: nat, step: Step)
    requires Inv(s, completed) && Enabled(s, step)
    ensures Inv(Apply(s, step), completed)
  {
    match step
    case PublishToFsm => PublishToFsmKeeps(s, completed);
    case PublishToBridge => PublishToBridgeKeeps(s, completed);
    case FsmHandles => FsmHandlesKeeps(s, completed);
    case BridgeDoes(b) => BridgeDoesKeeps(s, completed, b);
    case Dequeue => DequeueKeeps(s, completed);
    case WriteOut => PlayerKeeps(s, completed, step);
    case PostEnd => PlayerKeeps(s, completed, step);
    case RelayTakes => RelayTakesKeeps(s, completed);
    case RelayToFsm => RelayToFsmKeeps(s, completed);
    case RelayToBridge => RelayToBridgeKeeps(s, completed);
  }

  lemma StartHolds(c: Setup)
    requires c.id != NO_TURN
    ensures Inv(Initial(c), c.completed) && GateSide(Initial(c))
  {
    var s := Initial(c);
    assert Unhandled(s.bridge) == [LlmStarted(c.id)];
    CollectOneMore([], LlmStarted(c.id), SentenceNo);
    assert [] + [LlmStarted(c.id)] == [LlmStarted(c.id)];
    assert Downstream(s) + Upstream(s.bridge) == [];
  }

  // ----- The prefill gate -----

  /** The bridge has nothing to synthesize and has queued nothing. */
  ghost predicate NoWork(b: B.Sys) {
    && b.b.pending == [] && b.io == B.Idle && b.queue == []
    && forall i :: 0 <= i < |b.inbox| ==> !b.inbox[i].LlmSentence?
  }

  /** Before the gate opens for the turn everything delivered is still queued; when it has opened,
      enough was delivered. */
  ghost predicate GateSide(s: Turn) {
    && (s.prefill > 0 && s.primed == s.id ==> s.prefill <= s.delivered)
    && (s.prefill > 0 && s.primed != s.id ==>
          s.player == Silent && s.relay == Resting && s.writtenOut == 0 && s.delivered == SamplesFor(s.bridge.queue, s.id))
    && (s.toBridge == 0 ==> NoWork(s.bridge))
  }

  lemma QueueAfter(b: B.Sys, id: TurnId, step: B.Step)
    requires Clean(b, id) && B.Enabled(b, step) && Undisturbed(step)
    ensures var c := B.Apply(b, step);
            && (c.queue == b.queue || exists x: Chunk :: c.queue == b.queue + [x] && x.turn == id)
            && (NoWork(b) ==> NoWork(c))
  {
    hide B.AfterInterrupt;
    var c := B.Apply(b, step);
    if c.queue != b.queue {
      var x := c.queue[|c.queue| - 1];
      assert c.queue == b.queue + [x] && x.turn == id;
    }
  }

  lemma SamplesGrow(queue: seq<Chunk>, x: Chunk, id: TurnId)
    ensures SamplesFor(queue + [x], id) == SamplesFor(queue, id) + if x.turn == id then |x.samples| else 0
  {
    assert (queue + [x])[..|queue|] == queue;
  }

  lemma GateAfterBridge(s: Turn, step: B.Step)
    requires GateSide(s) && Clean(s.bridge, s.id) && Enabled(s, BridgeDoes(step))
    ensures GateSide(Apply(s, BridgeDoes(step)))
  {
    hide Clean, B.Apply, SamplesFor;
    QueueAfter(s.bridge, s.id, step);
    var after := B.Apply(s.bridge, step);
    if after.queue != s.bridge.queue {
      var x: Chunk :| after.queue == s.bridge.queue + [x] && x.turn == s.id;
      SamplesGrow(s.bridge.queue, x, s.id);
    }
  }

  lemma GateAfterOthers(s: Turn, step: Step)
    requires ChainSide(s) && GateSide(s) && Enabled(s, step) && !step.BridgeDoes? && !step.Dequeue?
    ensures GateSide(Apply(s, step))
  {
    hide B.Apply, B.Enabled, F.Handle, Within, Gated, Collect, Clean, Upstream, SamplesFor;
  }

  lemma GateKeeps(s: Turn, completed: nat, step: Step)
    requires Inv(s, completed) && GateSide(s) && Enabled(s, step)
    ensures GateSide(Apply(s, step))
  {
    hide Collect, FsmSide, Clean, Upstream, SamplesFor;
    if step.BridgeDoes? {
      GateAfterBridge(s, step.step);
    } else if step.Dequeue? {
      hide ChainSide, PublisherSide;
    } else {
      hide GateSide, PublisherSide;
      GateAfterOthers(s, step);
    }
  }

  /** What stays as it is, and that nothing lost comes back. */
  lemma StepFrame(s: Turn, step: Step)
    requires Enabled(s, step)
    ensures Apply(s, step).id == s.id && Apply(s, step).sentences == s.sentences && Apply(s, step).prefill == s.prefill
    ensures s.lost <= Apply(s, step).lost
  {}

  lemma {:induction false} RunFrame(s: Turn, steps: seq<Step>)
    requires Run(s, steps).Some?
    ensures var t := Run(s, steps).value; t.id == s.id && t.sentences == s.sentences && t.prefill == s.prefill && s.lost <= t.lost
  {
    hide Apply, Enabled;
    if steps != [] {
      RunFrame(s, steps[..|steps| - 1]);
      StepFrame(Run(s, steps[..|steps| - 1]).value, steps[|steps| - 1]);
    }
  }

  /** In every reachable state the invariant holds. */
  lemma {:induction false} RunKeeps(c: Setup, steps: seq<Step>)
    requires c.id != NO_TURN && Run(Initial(c), steps).Some?
    ensures var s := Run(Initial(c), steps).value;
            && s.id == c.id && s.sentences == c.sentences && s.prefill == c.prefill
            && Inv(s, c.completed) && GateSide(s)
  {
    hide Inv, Apply, Enabled, GateSide;
    if steps == [] {
      StartHolds(c);
    } else {
      RunKeeps(c, steps[..|steps| - 1]);
      var s, step := Run(Initial(c), steps[..|steps| - 1]).value, steps[|steps| - 1];
      StepFrame(s, step);
      StepKeeps(s, c.completed, step);
      GateKeeps(s, c.completed, step);
    }
  }

  // ----- The postbox -----

  /** The postbox holds at most one entry for each sentence of the reply. */
  lemma ShortRepliesFit(s: Turn, completed: nat, step: Step)
    requires Inv(s, completed) && Enabled(s, step) && |s.sentences| <= POSTBOX_CAPACITY
    ensures Apply(s, step).lost == s.lost
  {
    hide Collect, QueueOrder, FsmOk, Clean, Upstream;
    if step.PostEnd? && s.player.chunk.last {
      assert |Downstream(s) + Upstream(s.bridge)| >= |s.postbox| + 1;
    }
  }

  lemma {:induction false} ShortRepliesLoseNothing(c: Setup, steps: seq<Step>)
    requires c.id != NO_TURN && |c.sentences| <= POSTBOX_CAPACITY && Run(Initial(c), steps).Some?
    ensures Run(Initial(c), steps).value.lost == 0
  {
    hide Inv, Apply, Enabled;
    if steps != [] {
      var before := steps[..|steps| - 1];
      ShortRepliesLoseNothing(c, before);
      RunKeeps(c, before);
      ShortRepliesFit(Run(Initial(c), before).value, c.completed, steps[|steps| - 1]);
    }
  }

  // ----- The turn -----

  /** In every interleaving the state machine handles the sentences in order, each playback after its
      sentence, and never counts more played than received; a playback it has counted was written out
      before. Unless the postbox threw one away, the playbacks come in order without a gap. */
  lemma TurnSafety(c: Setup, steps: seq<Step>)
    requires c.id != NO_TURN && Run(Initial(c), steps).Some?
    ensures var s := Run(Initial(c), steps).value;
            var f := s.fsm;
            && f.sentencesPlayed <= f.sentencesReceived <= |c.sentences|
            && f.sentencesPlayed + s.lost <= s.writtenOut <= |c.sentences|
            && (s.fsmQueue != [] && s.fsmQueue[0].LlmSentence? ==> s.fsmQueue[0].seqNo == f.sentencesReceived)
            && (s.fsmQueue != [] && s.fsmQueue[0].PlaybackFinished? ==>
                  && f.sentencesPlayed <= s.fsmQueue[0].seqNo < f.sentencesReceived
                  && (s.lost == 0 ==> s.fsmQueue[0].seqNo == f.sentencesPlayed))
  {
    RunKeeps(c, steps);
    var s := Run(Initial(c), steps).value;
    hide Run, Collect, QueueOrder, Clean, Upstream;
    if s.fsmQueue != [] { HeadOfQueue(s, c.completed); }
  }

  /** The turn completes at most once, and it has completed exactly when all its sentences, all their
      playbacks and the end of the reply were handled; every sentence was then written out. When the
      postbox threw a playback away that never happens. */
  lemma TurnCompletesOnce(c: Setup, steps: seq<Step>)
    requires c.id != NO_TURN && Run(Initial(c), steps).Some?
    ensures var s := Run(Initial(c), steps).value;
            var f, n := s.fsm, |c.sentences|;
            var all := f.sentencesReceived == n && f.sentencesPlayed == n && f.llmFinishedSeen;
            && f.turnsCompleted == c.completed + (if all then 1 else 0)
            && f.turnsInterrupted == f.turnsDiscarded == 0
            && (all ==> s.writtenOut == n && s.lost == 0 && f.state == F.Listening)
  {
    RunKeeps(c, steps);
    NothingElseCounts(c, steps);
    var s := Run(Initial(c), steps).value;
    hide Run, Collect, QueueOrder, Clean, Upstream;
    assert s.fsm.sentencesPlayed + s.lost + |Downstream(s) + Upstream(s.bridge)| == s.toBridge;
  }

  /** A turn that has lost a playback never completes, whatever happens afterwards. */
  lemma LostNeverCompletes(c: Setup, past: seq<Step>, future: seq<Step>)
    requires c.id != NO_TURN && Run(Initial(c), past + future).Some? && Run(Initial(c), past).Some?
    requires Run(Initial(c), past).value.lost > 0
    ensures Run(Initial(c), past + future).value.fsm.turnsCompleted == c.completed
  {
    RunAppend(Initial(c), past, future);
    RunFrame(Run(Initial(c), past).value, future);
    TurnCompletesOnce(c, past + future);
  }

  lemma {:induction false} RunAppend(s: Turn, past: seq<Step>, future: seq<Step>)
    requires Run(s, past + future).Some?
    ensures Run(s, past).Some? && Run(Run(s, past).value, future) == Run(s, past + future)
  {
    hide Apply, Enabled;
    if future == [] {
      assert past + future == past;
    } else {
      assert (past + future)[..|past + future| - 1] == past + future[..|future| - 1];
      RunAppend(s, past, future[..|future| - 1]);
    }
  }

  lemma {:induction false} NothingElseCounts(c: Setup, steps: seq<Step>)
    requires c.id != NO_TURN && Run(Initial(c), steps).Some?
    ensures var f := Run(Initial(c), steps).value.fsm;
            f.turnsInterrupted == f.turnsDiscarded == 0
  {
    hide Inv, GateSide;
    if steps != [] {
      var before := steps[..|steps| - 1];
      var s, step := Run(Initial(c), before).value, steps[|steps| - 1];
      NothingElseCounts(c, before);
      RunKeeps(c, before);
      HandlingKeepsOtherCounts(s, c.completed, step);
    }
  }

  lemma HandlingKeepsOtherCounts(s: Turn, completed: nat, step: Step)
    requires Inv(s, completed) && Enabled(s, step)
    ensures Apply(s, step).fsm.turnsInterrupted == s.fsm.turnsInterrupted
    ensures Apply(s, step).fsm.turnsDiscarded == s.fsm.turnsDiscarded
  {
    if step == FsmHandles { HeadOfQueue(s, completed); }
    hide Inv, B.Apply;
  }

  // ----- When nothing more happens -----

  /** The wait of `enqueue_blocking` at a full queue: it tries again and changes nothing else. */
  predicate Retries(s: Turn, step: Step) {
    step.BridgeDoes? && (step.step.Poll? || step.step.EnqueueLast?) && !B.Room(s.bridge)
  }

  /** No thread can do anything but try again to enqueue at a full queue. */
  ghost predicate Quiet(s: Turn) {
    forall step :: Enabled(s, step) ==> Retries(s, step)
  }

  lemma QuietStays(s: Turn, completed: nat, step: Step)
    requires Inv(s, completed) && Quiet(s) && Enabled(s, step)
    ensures Quiet(Apply(s, step)) && Apply(s, step).fsm == s.fsm && Apply(s, step).delivered == s.delivered
    ensures Apply(s, step).lost == s.lost
  {
    hide Collect, QueueOrder, FsmSide, Upstream, F.Handle;
    var t := Apply(s, step);
    assert Retries(s, step);
    assert t == s.(bridge := s.bridge.(io := t.bridge.io)) && (t.bridge.io.Ending? || t.bridge.io.Blocked?);
    assert s.bridge.io.Ending? || s.bridge.io.Blocked?;
    forall next | Enabled(t, next) ensures Retries(t, next) {
      assert Enabled(s, next) ==> Retries(s, next);
    }
  }

  /** When nothing more happens, the turn has completed, or it is held: it has completed exactly when
      the postbox threw nothing away and the synthesized audio opened the prefill gate. A turn held
      without a loss is held by the gate, closed on everything that was delivered, and nothing of it
      was played. */
  lemma QuietMeansCompletedOrHeld(c: Setup, steps: seq<Step>)
    requires c.id != NO_TURN && Run(Initial(c), steps).Some? && Quiet(Run(Initial(c), steps).value)
    ensures var s := Run(Initial(c), steps).value;
            var enough := c.sentences == [] || c.prefill == 0 || c.prefill <= s.delivered;
            && s.fsm.turnsCompleted == c.completed + (if s.lost == 0 && enough then 1 else 0)
            && (!enough ==> s.lost == 0 && GateClosed(s) && s.delivered == SamplesFor(s.bridge.queue, c.id)
                            && s.writtenOut == 0)
  {
    RunKeeps(c, steps);
    TurnCompletesOnce(c, steps);
    var s := Run(Initial(c), steps).value;
    hide Run;
    QuietTurn(s, c.completed);
  }

  lemma Cleanly(b: B.Sys, id: TurnId)
    requires Clean(b, id)
    ensures b.handler == B.Waiting && b.phase == B.Running && b.next <= |b.inbox| && b.io != B.Exited
  {}

  /** The I/O thread always has a step that makes progress, until it is idle or waits at a full queue. */
  lemma QuietIo(s: Turn)
    requires Quiet(s) && s.bridge.io != B.Exited
    ensures s.bridge.io == B.Idle || !B.Room(s.bridge)
  {
    var next := match s.bridge.io
      case Begin(_) => B.FirstLook
      case Synth(_, _) => B.Return
      case Deliver(_, _, _) => B.EnqueueAudio
      case Returned(_, _) => B.LookAtTail([])
      case Ending(_, _, _) => B.EnqueueLast
      case Blocked(_, _, _) => B.Poll
      case Tally(_, _) => B.Count
      case _ => B.EndOfJob;
    assert Enabled(s, BridgeDoes(next)) ==> Retries(s, BridgeDoes(next));
  }

  /** What the steps of the other threads leave behind. */
  lemma QuietThreads(s: Turn, completed: nat)
    requires Inv(s, completed) && Quiet(s)
    ensures s.fsmQueue == [] && s.player == Silent && s.postbox == [] && s.relay == Resting
    ensures s.bridge.next == |s.bridge.inbox| && (s.bridge.queue != [] ==> GateClosed(s))
    ensures s.bridge.queue == [] ==> s.bridge.io == B.Idle && s.bridge.b.pending == []
    ensures s.toBridge == |s.sentences| && s.endToFsm
  {
    hide Collect, QueueOrder, FsmSide, Upstream;
    assert !Retries(s, FsmHandles) && !Retries(s, Dequeue) && !Retries(s, WriteOut) && !Retries(s, PostEnd);
    assert s.fsmQueue == [] && s.player == Silent;
    assert !Retries(s, RelayTakes) && !Retries(s, RelayToFsm);
    assert !Retries(s, BridgeDoes(B.HandleEvent)) && !Retries(s, BridgeDoes(B.Take));
    Cleanly(s.bridge, s.id);
    assert s.bridge.next == |s.bridge.inbox|;
    assert !Retries(s, RelayToBridge) && !Retries(s, PublishToBridge) && !Retries(s, PublishToFsm);
    QuietIo(s);
  }

  lemma QuietTurn(s: Turn, completed: nat)
    requires Inv(s, completed) && GateSide(s) && Quiet(s)
    ensures var n := |s.sentences|;
            && s.fsm.sentencesReceived == n && s.fsm.llmFinishedSeen
            && (n == 0 || s.prefill == 0 || s.prefill <= s.delivered ==> s.fsm.sentencesPlayed + s.lost == n)
            && (!(n == 0 || s.prefill == 0 || s.prefill <= s.delivered) ==>
                  && s.fsm.sentencesPlayed == s.lost == s.writtenOut == 0 && GateClosed(s)
                  && s.delivered == SamplesFor(s.bridge.queue, s.id))
  {
    hide QueueOrder, FsmOk, SamplesFor, Quiet;
    QuietThreads(s, completed);
    var n := |s.sentences|;
    assert |Range(s.fsm.sentencesReceived, s.toFsm)| == 0;
    if n == 0 || s.prefill == 0 || s.prefill <= s.delivered {
      assert s.bridge.queue == [];
      assert Downstream(s) == [] && Upstream(s.bridge) == [];
    }
  }
}
