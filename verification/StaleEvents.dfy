/** What events of an earlier reply do to the current turn. The state machine counts `LlmSentence` and
    `LlmFinished` without looking at their turn (src/dialogue/fsm.cpp), so a reply that was interrupted
    can complete the next turn too early, or keep it from completing. */
module StaleEvents {
  import opened Events
  import opened Fsm
  import opened Wrappers

  // ----- Whose events were counted -----

  /** The sentences and reply ends handled since the active turn was minted: its own and those of others. */
  datatype Tally = Tally(own: nat, foreign: nat, ownEnd: bool, foreignEnd: bool)

  function Count(t: Tally, f: FsmState, e: Event): Tally {
    if StartsTurn(f, e) then Tally(0, 0, false, false)
    else match e
      case LlmSentence(turn, _, _, _) => if turn == f.active then t.(own := t.own + 1) else t.(foreign := t.foreign + 1)
      case LlmFinished(turn, _) => if turn == f.active then t.(ownEnd := true) else t.(foreignEnd := true)
      case _ => t
  }

  function TallyOf(inputs: seq<Input>): Tally {
    if inputs == [] then Tally(0, 0, false, false) else
    var before, last := inputs[..|inputs| - 1], inputs[|inputs| - 1];
    if last.Deliver? then Count(TallyOf(before), Run(before).fsm, last.e) else TallyOf(before)
  }

  lemma {:induction false} TallyIsCounted(inputs: seq<Input>)
    ensures var f, t := Run(inputs).fsm, TallyOf(inputs);
            f.sentencesReceived == t.own + t.foreign && f.llmFinishedSeen == (t.ownEnd || t.foreignEnd)
  {
    if inputs != [] { TallyIsCounted(inputs[..|inputs| - 1]); }
  }

  /** Over every run, the machine's two records of the reply are about the active turn alone exactly when
      no sentence of another turn was handled since it was minted, and no end of another reply unless
      its own had come. */
  lemma RecordsOwnExactlyWhen(inputs: seq<Input>)
    ensures var f, t := Run(inputs).fsm, TallyOf(inputs);
            && (f.sentencesReceived == t.own <==> t.foreign == 0)
            && (f.llmFinishedSeen == t.ownEnd <==> (t.foreignEnd ==> t.ownEnd))
  {
    hide Run, TallyOf;
    TallyIsCounted(inputs);
  }

  // ----- How the turn goes on -----

  /** How far the turn's own reply has come. */
  datatype Progress = Progress(own: nat, played: nat, ended: bool)

  /** The turn's own events in an order in which the program can produce them: nothing new after the end
      of the reply, and no playback before its sentence. */
  predicate Legal(p: Progress, e: Event, turn: TurnId) {
    match e
    case LlmSentence(t, _, _, _) => t == turn && !p.ended
    case PlaybackFinished(t, _) => t == turn && p.played < p.own
    case LlmFinished(t, _) => t == turn && !p.ended
    case _ => false
  }

  function Advance(p: Progress, e: Event): Progress {
    match e
    case LlmSentence(_, _, _, _) => p.(own := p.own + 1)
    case PlaybackFinished(_, _) => p.(played := p.played + 1)
    case LlmFinished(_, _) => p.(ended := true)
    case _ => p
  }

  function After(p: Progress, es: seq<Event>, turn: TurnId): Option<Progress> {
    if es == [] then Some(p) else
    var before := After(p, es[..|es| - 1], turn);
    if before.None? || !Legal(before.value, es[|es| - 1], turn) then None
    else Some(Advance(before.value, es[|es| - 1]))
  }

  /** The last of the turn's own events was handled. */
  predicate Over(p: Progress) { p.ended && p.played == p.own }

  function Delivered(es: seq<Event>): (inputs: seq<Input>)
    ensures |inputs| == |es|
  {
    seq(|es|, i requires 0 <= i < |es| => Deliver(es[i]))
  }

  /** The machine after the inputs and then the turn's own events. */
  function Then(inputs: seq<Input>, es: seq<Event>): FsmState {
    Run(inputs + Delivered(es)).fsm
  }

  /** The machine waits for the rest of the active turn's reply. */
  predicate Replying(inputs: seq<Input>) {
    var f, t := Run(inputs).fsm, TallyOf(inputs);
    && (f.state == Speaking || (f.state == Thinking && t.own == 0))
    && !t.ownEnd && f.sentencesPlayed <= t.own
  }

  function ProgressOf(inputs: seq<Input>): Progress {
    Progress(TallyOf(inputs).own, Run(inputs).fsm.sentencesPlayed, false)
  }

  /** However the reply goes on, the turn completes exactly at the last of its own events. */
  ghost predicate Prompt(inputs: seq<Input>) {
    var f := Run(inputs).fsm;
    forall es :: After(ProgressOf(inputs), es, f.active).Some? ==> InStep(inputs, es)
  }

  predicate InStep(inputs: seq<Input>, es: seq<Event>)
    requires After(ProgressOf(inputs), es, Run(inputs).fsm.active).Some?
  {
    Then(inputs, es).turnsCompleted == Run(inputs).fsm.turnsCompleted +
      if Over(After(ProgressOf(inputs), es, Run(inputs).fsm.active).value) then 1 else 0
  }

  lemma ThenNothing(inputs: seq<Input>)
    ensures Then(inputs, []) == Run(inputs).fsm
  {
    assert inputs + Delivered([]) == inputs;
  }

  lemma ThenOneMore(inputs: seq<Input>, es: seq<Event>, e: Event)
    requires !e.SpeechStarted?
    ensures Then(inputs, es + [e]) == Handle(Then(inputs, es), e, 0)
    ensures forall p, turn :: After(p, es + [e], turn) ==
              if After(p, es, turn).None? || !Legal(After(p, es, turn).value, e, turn) then None
              else Some(Advance(After(p, es, turn).value, e))
  {
    var all := inputs + Delivered(es + [e]);
    assert all[..|all| - 1] == inputs + Delivered(es);
    assert all[|all| - 1] == Deliver(e);
    assert (es + [e])[..|es|] == es;
  }

  // ----- Without stale events -----

  /** The machine agrees with the reply's progress. */
  predicate Follows(g: FsmState, p: Progress, turn: TurnId, completed: nat) {
    && g.active == turn && g.sentencesReceived == p.own && g.sentencesPlayed == p.played <= p.own
    && g.llmFinishedSeen == p.ended
    && if Over(p) then g.state == Listening && g.turnsCompleted == completed + 1
       else (g.state == Speaking || (g.state == Thinking && p.own == 0)) && g.turnsCompleted == completed
  }

  lemma StepFollows(g: FsmState, p: Progress, turn: TurnId, completed: nat, e: Event)
    requires Follows(g, p, turn, completed) && Legal(p, e, turn)
    ensures Follows(Handle(g, e, 0), Advance(p, e), turn, completed)
  {}

  lemma {:induction false} FollowsAlong(inputs: seq<Input>, es: seq<Event>)
    requires Replying(inputs) && TallyOf(inputs).foreign == 0 && !TallyOf(inputs).foreignEnd
    requires After(ProgressOf(inputs), es, Run(inputs).fsm.active).Some?
    ensures var f := Run(inputs).fsm;
            Follows(Then(inputs, es), After(ProgressOf(inputs), es, f.active).value, f.active, f.turnsCompleted)
  {
    hide Run, Then, TallyOf, Handle, Follows;
    if es == [] {
      ThenNothing(inputs);
      StartFollows(inputs);
    } else {
      var init, e := es[..|es| - 1], es[|es| - 1];
      FollowsAlong(inputs, init);
      ThenOneMore(inputs, init, e);
      assert es == init + [e];
      var f := Run(inputs).fsm;
      StepFollows(Then(inputs, init), After(ProgressOf(inputs), init, f.active).value, f.active, f.turnsCompleted, e);
    }
  }

  lemma StartFollows(inputs: seq<Input>)
    requires Replying(inputs) && TallyOf(inputs).foreign == 0 && !TallyOf(inputs).foreignEnd
    ensures Follows(Run(inputs).fsm, ProgressOf(inputs), Run(inputs).fsm.active, Run(inputs).fsm.turnsCompleted)
  {
    hide Run, TallyOf;
    TallyIsCounted(inputs);
  }

  // ----- With a stale event -----

  /** `m` playbacks in a row while the turn speaks: it completes in between only if the end of a reply was
      seen, and then when all sentences counted were played. */
  lemma {:induction false} ManyPlaybacks(inputs: seq<Input>, es: seq<Event>, p: Progress, m: nat) returns (more: seq<Event>)
    requires var g, turn := Then(inputs, es), Run(inputs).fsm.active;
             && After(ProgressOf(inputs), es, turn) == Some(p) && p.played + m <= p.own
             && g.active == turn && g.sentencesPlayed == p.played && p.own <= g.sentencesReceived
             && (m > 0 ==> g.state == Speaking)
    ensures var g, h, turn := Then(inputs, es), Then(inputs, more), Run(inputs).fsm.active;
            var done := m > 0 && g.llmFinishedSeen && p.played + m == g.sentencesReceived;
            && After(ProgressOf(inputs), more, turn) == Some(p.(played := p.played + m))
            && h == g.(sentencesPlayed := p.played + m, turnsCompleted := h.turnsCompleted, state := h.state, outcome := h.outcome)
            && h.turnsCompleted == g.turnsCompleted + (if done then 1 else 0) && (!done ==> h.state == g.state)
    decreases m
  {
    hide Run, Then, After, ProgressOf;
    if m == 0 {
      more := es;
    } else {
      var rest := ManyPlaybacks(inputs, es, p, m - 1);
      var e := PlaybackFinished(Run(inputs).fsm.active, p.played + m - 1);
      ThenOneMore(inputs, rest, e);
      more := rest + [e];
    }
  }

  /** A stale sentence: the turn's own events are all handled and it has not completed. */
  lemma StaleSentenceBlocks(inputs: seq<Input>) returns (es: seq<Event>)
    requires Replying(inputs) && TallyOf(inputs).foreign > 0
    ensures After(ProgressOf(inputs), es, Run(inputs).fsm.active).Some? && !InStep(inputs, es)
  {
    hide Run, Then, TallyOf, After;
    var f, p := Run(inputs).fsm, ProgressOf(inputs);
    TallyIsCounted(inputs);
    ThenNothing(inputs);
    assert After(p, [], f.active) == Some(p) by { AfterNothing(p, f.active); }
    es := ManyPlaybacks(inputs, [], p, p.own - p.played);
    ThenOneMore(inputs, es, LlmFinished(f.active, false));
    es := es + [LlmFinished(f.active, false)];
  }

  lemma AfterNothing(p: Progress, turn: TurnId)
    ensures After(p, [], turn) == Some(p)
  {}

  /** A stale end of a reply: the turn completes although its own reply has not ended. */
  lemma StaleEndCompletesEarly(inputs: seq<Input>) returns (es: seq<Event>)
    requires Replying(inputs) && TallyOf(inputs).foreign == 0 && TallyOf(inputs).foreignEnd
    ensures After(ProgressOf(inputs), es, Run(inputs).fsm.active).Some? && !InStep(inputs, es)
  {
    hide Run, Then, TallyOf, After;
    var f, p := Run(inputs).fsm, ProgressOf(inputs);
    TallyIsCounted(inputs);
    ThenNothing(inputs);
    assert After(p, [], f.active) == Some(p) by { AfterNothing(p, f.active); }
    var e := LlmSentence(f.active, p.own, "", "");
    ThenOneMore(inputs, [], e);
    es := ManyPlaybacks(inputs, [] + [e], Advance(p, e), p.own + 1 - p.played);
  }

  /** While the machine waits for a reply, the turn is sure to complete exactly at the last of its own
      events if and only if no sentence and no end of another reply was handled since it was minted. */
  lemma PromptExactlyWithoutStale(inputs: seq<Input>)
    requires Replying(inputs)
    ensures Prompt(inputs) <==> TallyOf(inputs).foreign == 0 && !TallyOf(inputs).foreignEnd
  {
    hide Run, Then, TallyOf, After, ProgressOf, InStep, Replying;
    if TallyOf(inputs).foreign > 0 {
      var es := StaleSentenceBlocks(inputs);
    } else if TallyOf(inputs).foreignEnd {
      var es := StaleEndCompletesEarly(inputs);
    } else {
      forall es | After(ProgressOf(inputs), es, Run(inputs).fsm.active).Some? ensures InStep(inputs, es) {
        StepByStep(inputs, es);
      }
    }
  }

  lemma StepByStep(inputs: seq<Input>, es: seq<Event>)
    requires Replying(inputs) && TallyOf(inputs).foreign == 0 && !TallyOf(inputs).foreignEnd
    requires After(ProgressOf(inputs), es, Run(inputs).fsm.active).Some?
    ensures InStep(inputs, es)
  {
    hide Run, Then, TallyOf, After, ProgressOf;
    FollowsAlong(inputs, es);
  }

  // ----- Two runs -----

  lemma RunOneMore(inputs: seq<Input>, e: Event)
    ensures Run(inputs + [Deliver(e)]) == Step(Run(inputs), Deliver(e))
    ensures TallyOf(inputs + [Deliver(e)]) == Count(TallyOf(inputs), Run(inputs).fsm, e)
  {
    assert (inputs + [Deliver(e)])[..|inputs|] == inputs;
  }

  /** Turn 1 is interrupted and turn 2 begins. */
  lemma SecondTurnBegins() returns (inputs: seq<Input>)
    ensures inputs == [Deliver(SpeechStarted), Deliver(UserInterrupted(1)), Deliver(SpeechStarted)]
    ensures var f := Run(inputs).fsm;
            && f.active == 2 && f.state == UserSpeaking && f.turnsCompleted == 0
            && f.sentencesPlayed == f.sentencesReceived == 0 && !f.llmFinishedSeen
    ensures TallyOf(inputs) == Tally(0, 0, false, false)
  {
    var a, b := [Deliver(SpeechStarted)], [Deliver(SpeechStarted), Deliver(UserInterrupted(1))];
    assert Run([]) == World(FRESH.(state := Listening), 1, []);
    hide Run, TallyOf;
    RunOneMore([], SpeechStarted);
    assert [] + [Deliver(SpeechStarted)] == a;
    RunOneMore(a, UserInterrupted(1));
    assert a + [Deliver(UserInterrupted(1))] == b;
    RunOneMore(b, SpeechStarted);
    inputs := b + [Deliver(SpeechStarted)];
  }

  /** Then an event of turn 1's reply is handled, and turn 2 gets as far as waiting for its own. */
  lemma SecondTurnHears(stale: Event) returns (inputs: seq<Input>)
    requires stale == LlmSentence(1, 0, "", "") || stale == LlmFinished(1, true)
    ensures var w, mark := Run(inputs), if stale.LlmSentence? then 1 else 0;
            && w.fsm.active == 2 && w.fsm.state == Thinking && w.fsm.turnsCompleted == 0 && w.fsm.sentencesPlayed == 0
            && w.fsm.sentencesReceived == mark && w.fsm.llmFinishedSeen == stale.LlmFinished?
            && TallyOf(inputs) == Tally(0, mark, false, stale.LlmFinished?)
    ensures Deliver(LlmFinished(2, false)) !in inputs
  {
    var start := SecondTurnBegins();
    hide Run, TallyOf;
    var heard := start + [Deliver(stale)];
    RunOneMore(start, stale);
    var ended := heard + [Deliver(SpeechEnded)];
    RunOneMore(heard, SpeechEnded);
    RunOneMore(ended, FinalTranscript);
    inputs := ended + [Deliver(FinalTranscript)];
  }

  /** The end of the interrupted reply comes late: turn 2 completes after its first sentence, while its
      own reply goes on. */
  lemma LateEndCompletesNextTurn() returns (inputs: seq<Input>)
    ensures Deliver(LlmFinished(2, false)) !in inputs
    ensures Run(inputs).fsm.active == 2 && Run(inputs).fsm.state == Listening && Run(inputs).fsm.turnsCompleted == 1
  {
    var start := SecondTurnHears(LlmFinished(1, true));
    hide Run, TallyOf;
    var spoken := start + [Deliver(LlmSentence(2, 0, "", ""))];
    RunOneMore(start, LlmSentence(2, 0, "", ""));
    RunOneMore(spoken, PlaybackFinished(2, 0));
    inputs := spoken + [Deliver(PlaybackFinished(2, 0))];
  }

  /** A sentence of the interrupted reply comes late: turn 2 has everything and does not complete. */
  lemma LateSentenceBlocksNextTurn() returns (inputs: seq<Input>)
    ensures Deliver(LlmSentence(2, 0, "", "")) in inputs && Deliver(LlmFinished(2, false)) in inputs
    ensures Deliver(PlaybackFinished(2, 0)) in inputs
    ensures Run(inputs).fsm.active == 2 && Run(inputs).fsm.state == Speaking && Run(inputs).fsm.turnsCompleted == 0
  {
    var start := SecondTurnHears(LlmSentence(1, 0, "", ""));
    hide Run, TallyOf;
    var spoken := start + [Deliver(LlmSentence(2, 0, "", ""))];
    RunOneMore(start, LlmSentence(2, 0, "", ""));
    var ended := spoken + [Deliver(LlmFinished(2, false))];
    RunOneMore(spoken, LlmFinished(2, false));
    RunOneMore(ended, PlaybackFinished(2, 0));
    inputs := ended + [Deliver(PlaybackFinished(2, 0))];
  }
}
