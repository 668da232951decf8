/** The dialogue state machine of src/dialogue/fsm.cpp and the turn ids of src/dialogue/turn.cpp. */
module Fsm {
  import opened Events

  datatype State = Idle | Listening | UserSpeaking | Transcribing | Thinking | Speaking | Completed | Interrupted

  datatype Outcome =
    | NotStarted | Generating | SpeakingOutcome | InterruptedOutcome | CompletedOutcome | DiscardedOutcome

  /** The fields of the machine; `toCancel` are the turns it asked the bus to cancel, `cancelledTokens`
      those whose own token it cancelled. */
  datatype FsmState = FsmState(
    state: State, outcome: Outcome, active: TurnId,
    sentencesPlayed: nat, sentencesReceived: nat, llmFinishedSeen: bool,
    turnsCompleted: nat, turnsInterrupted: nat, turnsDiscarded: nat,
    cancelledTokens: set<TurnId>, toCancel: seq<TurnId>)

  const FRESH: FsmState := FsmState(Idle, NotStarted, NO_TURN, 0, 0, false, 0, 0, 0, {}, [])

  // ----- What each event does -----

  predicate StartsTurn(f: FsmState, e: Event) {
    e.SpeechStarted? && (f.state == Listening || f.state == Completed || f.state == Interrupted)
  }

  /** The turn is over: through `Completed` straight back to `Listening`. */
  function Complete(f: FsmState): FsmState {
    f.(outcome := CompletedOutcome, turnsCompleted := f.turnsCompleted + 1, state := Listening)
  }

  function AfterSentence(f: FsmState): FsmState {
    var g := f.(sentencesReceived := f.sentencesReceived + 1);
    if f.state == Thinking then g.(outcome := SpeakingOutcome, state := Speaking) else g
  }

  function AfterLlmFinished(f: FsmState): FsmState {
    var g := f.(llmFinishedSeen := true);
    if f.state == Thinking && f.sentencesReceived == 0 then Complete(g)
    else if f.state == Speaking && f.sentencesPlayed == f.sentencesReceived then Complete(g)
    else g
  }

  function AfterPlayback(f: FsmState, turn: TurnId): FsmState {
    if turn != f.active then f else
    var g := f.(sentencesPlayed := f.sentencesPlayed + 1);
    if g.state == Speaking && g.llmFinishedSeen && g.sentencesPlayed == g.sentencesReceived then Complete(g) else g
  }

  function AfterInterrupt(f: FsmState): FsmState {
    if f.state == Listening || f.state == Idle then f else
    var g := f.(state := Listening, toCancel := f.toCancel + [f.active],
                cancelledTokens := f.cancelledTokens + if f.active == NO_TURN then {} else {f.active});
    if f.sentencesPlayed >= 1 then g.(outcome := InterruptedOutcome, turnsInterrupted := f.turnsInterrupted + 1)
    else g.(outcome := DiscardedOutcome, turnsDiscarded := f.turnsDiscarded + 1)
  }

  /** The machine after one event; `nextId` is the id a new turn gets. */
  function Handle(f: FsmState, e: Event, nextId: TurnId): FsmState {
    match e
    case SpeechStarted =>
      if StartsTurn(f, e) then
        f.(active := nextId, outcome := NotStarted, sentencesPlayed := 0, sentencesReceived := 0,
           llmFinishedSeen := false, state := UserSpeaking)
      else f
    case SpeechEnded => if f.state == UserSpeaking then f.(state := Transcribing) else f
    case FinalTranscript => if f.state == Transcribing then f.(outcome := Generating, state := Thinking) else f
    case LlmSentence(_, _, _, _) => AfterSentence(f)
    case LlmFinished(_, _) => AfterLlmFinished(f)
    case PlaybackFinished(turn, _) => AfterPlayback(f, turn)
    case UserInterrupted(_) => AfterInterrupt(f)
    case _ => f
  }

  class TurnFactory {
    var next: TurnId

    constructor ()
      ensures next == 1
    {
      next := 1;
    }

    method Mint() returns (id: TurnId)
      modifies this
      ensures id == old(next) && next == id + 1
    {
      id := next;
      next := next + 1;
    }
  }

  class Fsm {
    const turns: TurnFactory
    var state: State
    var outcome: Outcome
    var active: TurnId
    var sentencesPlayed: nat
    var sentencesReceived: nat
    var llmFinishedSeen: bool
    var turnsCompleted: nat
    var turnsInterrupted: nat
    var turnsDiscarded: nat
    var cancelledTokens: set<TurnId>
    var toCancel: seq<TurnId>

    function View(): FsmState
      reads this
    {
      FsmState(state, outcome, active, sentencesPlayed, sentencesReceived, llmFinishedSeen,
               turnsCompleted, turnsInterrupted, turnsDiscarded, cancelledTokens, toCancel)
    }

    constructor (factory: TurnFactory)
      ensures View() == FRESH && turns == factory
    {
      turns := factory;
      state, outcome, active := Idle, NotStarted, NO_TURN;
      sentencesPlayed, sentencesReceived, llmFinishedSeen := 0, 0, false;
      turnsCompleted, turnsInterrupted, turnsDiscarded := 0, 0, 0;
      cancelledTokens, toCancel := {}, [];
    }

    method Start()
      modifies this
      ensures View() == old(View()).(state := Listening)
    {
      Transition(Listening);
    }

    method Transition(to: State)
      modifies this`state
      ensures state == to
    {
      state := to;
    }

    method OnEvent(e: Event)
      modifies this, turns
      ensures View() == Handle(old(View()), e, old(turns.next))
      ensures turns.next == old(turns.next) + if StartsTurn(old(View()), e) then 1 else 0
    {
      match e
      case SpeechStarted => HandleSpeechStarted();
      case SpeechEnded => if state == UserSpeaking { Transition(Transcribing); }
      case FinalTranscript =>
        var current := state;
        if current == Transcribing {
          outcome := Generating;
          Transition(Thinking);
        }
      case LlmSentence(_, _, _, _) =>
        sentencesReceived := sentencesReceived + 1;
        if state == Thinking {
          outcome := SpeakingOutcome;
          Transition(Speaking);
        }
      case LlmFinished(_, _) => HandleLlmFinished();
      case PlaybackFinished(turn, _) => HandlePlaybackFinished(turn);
      case UserInterrupted(_) => HandleUserInterrupted();
      case LlmStarted(_) =>
      case CancelGeneration(_) =>
      case OtherEvent =>
    }

    method HandleSpeechStarted()
      modifies this, turns
      ensures View() == Handle(old(View()), SpeechStarted, old(turns.next))
      ensures turns.next == old(turns.next) + if StartsTurn(old(View()), SpeechStarted) then 1 else 0
    {
      var current := state;
      if current == Listening || current == Completed || current == Interrupted {
        var id := turns.Mint();
        active, outcome := id, NotStarted;
        sentencesPlayed, sentencesReceived, llmFinishedSeen := 0, 0, false;
        Transition(UserSpeaking);
      }
    }

    method HandleLlmFinished()
      modifies this
      ensures View() == AfterLlmFinished(old(View()))
    {
      var done := false;
      llmFinishedSeen := true;
      if state == Thinking && sentencesReceived == 0 {
        outcome, turnsCompleted, done := CompletedOutcome, turnsCompleted + 1, true;
      } else if state == Speaking && sentencesPlayed == sentencesReceived {
        outcome, turnsCompleted, done := CompletedOutcome, turnsCompleted + 1, true;
      }
      if done {
        Transition(Completed);
        Transition(Listening);
      }
    }

    method HandlePlaybackFinished(turn: TurnId)
      modifies this
      ensures View() == AfterPlayback(old(View()), turn)
    {
      if turn != active { return; }
      var done := false;
      sentencesPlayed := sentencesPlayed + 1;
      if state == Speaking && llmFinishedSeen && sentencesPlayed == sentencesReceived {
        outcome, turnsCompleted, done := CompletedOutcome, turnsCompleted + 1, true;
      }
      if done {
        Transition(Completed);
        Transition(Listening);
      }
    }

    method HandleUserInterrupted()
      modifies this
      ensures View() == AfterInterrupt(old(View()))
    {
      var prev, old', played := state, active, sentencesPlayed >= 1;
      if prev == Listening || prev == Idle { return; }
      if old' != NO_TURN { cancelledTokens := cancelledTokens + {old'}; }
      toCancel := toCancel + [old'];
      if played {
        outcome, turnsInterrupted := InterruptedOutcome, turnsInterrupted + 1;
      } else {
        outcome, turnsDiscarded := DiscardedOutcome, turnsDiscarded + 1;
      }
      Transition(Interrupted);
      Transition(Listening);
    }
  }

  // ----- Runs -----

  /** What the machine and the shared turn factory see: an event, or another component minting an id. */
  datatype Input = Deliver(e: Event) | OtherMint

  /** The machine, the next id, and the ids that the machine minted, in order. */
  datatype World = World(fsm: FsmState, nextId: TurnId, minted: seq<TurnId>)

  function Step(w: World, i: Input): World {
    match i
    case OtherMint => w.(nextId := w.nextId + 1)
    case Deliver(e) =>
      var f := Handle(w.fsm, e, w.nextId);
      if StartsTurn(w.fsm, e) then World(f, w.nextId + 1, w.minted + [w.nextId]) else w.(fsm := f)
  }

  function Run(inputs: seq<Input>): World {
    if inputs == [] then World(FRESH.(state := Listening), 1, [])
    else Step(Run(inputs[..|inputs| - 1]), inputs[|inputs| - 1])
  }

  predicate InTurn(f: FsmState) {
    f.state == UserSpeaking || f.state == Transcribing || f.state == Thinking || f.state == Speaking
  }

  function Ended(f: FsmState): nat {
    f.turnsCompleted + f.turnsInterrupted + f.turnsDiscarded
  }

  ghost predicate Increasing(ids: seq<TurnId>) {
    forall i, j :: 0 <= i < j < |ids| ==> ids[i] < ids[j]
  }

  function Open(f: FsmState): nat {
    if InTurn(f) then 1 else 0
  }

  /** What one event does to the counts: only starting a turn adds one to ended plus open. */
  lemma HandleCounts(f: FsmState, e: Event, id: TurnId)
    requires f.state == Listening || InTurn(f)
    ensures var g := Handle(f, e, id);
            && (g.state == Listening || InTurn(g))
            && Ended(g) + Open(g) == Ended(f) + Open(f) + (if StartsTurn(f, e) then 1 else 0)
            && g.active == (if StartsTurn(f, e) then id else f.active)
            && g.sentencesPlayed == (if StartsTurn(f, e) then 0 else f.sentencesPlayed)
                                    + (if e.PlaybackFinished? && e.turn == f.active then 1 else 0)
  {}

  ghost predicate Conserved(w: World) {
    && (w.fsm.state == Listening || InTurn(w.fsm))
    && |w.minted| == Ended(w.fsm) + Open(w.fsm)
    && Increasing(w.minted)
    && (forall i :: 0 <= i < |w.minted| ==> w.minted[i] < w.nextId)
    && w.fsm.active == (if w.minted == [] then NO_TURN else w.minted[|w.minted| - 1])
    && NO_TURN < w.nextId
  }

  lemma StepConserves(w: World, i: Input)
    requires Conserved(w)
    ensures Conserved(Step(w, i))
  {
    hide Handle;
    if i.Deliver? { HandleCounts(w.fsm, i.e, w.nextId); }
  }

  lemma {:induction false} RunConserves(inputs: seq<Input>)
    ensures Conserved(Run(inputs))
  {
    hide Step, Conserved;
    if inputs != [] {
      RunConserves(inputs[..|inputs| - 1]);
      StepConserves(Run(inputs[..|inputs| - 1]), inputs[|inputs| - 1]);
    } else {
      assert Conserved(Run([])) by { StartConserves(); }
    }
  }

  lemma StartConserves()
    ensures Conserved(World(FRESH.(state := Listening), 1, []))
  {}

  /** Every turn the machine minted completed, was interrupted or was discarded, except the one it is
      in; ids strictly increase; between events it listens or is in a turn. */
  lemma TurnsConserved(inputs: seq<Input>)
    ensures var w := Run(inputs);
            && (w.fsm.state == Listening || InTurn(w.fsm))
            && |w.minted| == w.fsm.turnsCompleted + w.fsm.turnsInterrupted + w.fsm.turnsDiscarded
                             + (if InTurn(w.fsm) then 1 else 0)
            && Increasing(w.minted)
            && w.fsm.active == (if w.minted == [] then NO_TURN else w.minted[|w.minted| - 1])
            && w.fsm.active < w.nextId
  {
    hide Run;
    RunConserves(inputs);
  }

  /** The `PlaybackFinished` events for turn `id` that were handled while it was the active turn. */
  ghost function PlaybacksOf(inputs: seq<Input>, id: TurnId): nat {
    if inputs == [] then 0 else
    var before, last := inputs[..|inputs| - 1], inputs[|inputs| - 1];
    PlaybacksOf(before, id) +
    if last.Deliver? && last.e.PlaybackFinished? && last.e.turn == id && Run(before).fsm.active == id then 1 else 0
  }

  lemma {:induction false} NotYetMinted(inputs: seq<Input>, id: TurnId)
    requires id >= Run(inputs).nextId
    ensures PlaybacksOf(inputs, id) == 0
  {
    hide Handle;
    if inputs != [] {
      var before := inputs[..|inputs| - 1];
      TurnsConserved(before);
      NotYetMinted(before, id);
      assert Run(before).fsm.active < Run(before).nextId <= id;
    }
  }

  lemma {:induction false} PlayedCounts(inputs: seq<Input>)
    ensures var w := Run(inputs);
            w.fsm.sentencesPlayed == PlaybacksOf(inputs, w.fsm.active)
  {
    hide Handle;
    if inputs != [] {
      var before, last := inputs[..|inputs| - 1], inputs[|inputs| - 1];
      PlayedCounts(before);
      TurnsConserved(before);
      var w := Run(before);
      NotYetMinted(before, w.nextId);
      if last.Deliver? { HandleCounts(w.fsm, last.e, w.nextId); }
    }
  }

  /** An interrupt that ends a turn counts it as interrupted exactly when a `PlaybackFinished` for
      it was handled, and as discarded otherwise; when the machine listens nothing is counted. */
  lemma InterruptOutcome(inputs: seq<Input>, turn: TurnId)
    ensures var f := Run(inputs).fsm;
            var g := Run(inputs + [Deliver(UserInterrupted(turn))]).fsm;
            var heard := PlaybacksOf(inputs, f.active) > 0;
            && g.turnsInterrupted == f.turnsInterrupted + (if InTurn(f) && heard then 1 else 0)
            && g.turnsDiscarded == f.turnsDiscarded + (if InTurn(f) && !heard then 1 else 0)
            && g.turnsCompleted == f.turnsCompleted
            && (g.toCancel == if InTurn(f) then f.toCancel + [f.active] else f.toCancel)
            && (InTurn(f) && f.active != NO_TURN ==> f.active in g.cancelledTokens)
  {
    assert (inputs + [Deliver(UserInterrupted(turn))])[..|inputs|] == inputs;
    TurnsConserved(inputs);
    PlayedCounts(inputs);
  }

  // ----- The phases of a turn -----

  predicate SpeechEndedAt(inputs: seq<Input>, k: nat) { k < |inputs| && inputs[k] == Deliver(SpeechEnded) }
  predicate TranscriptAt(inputs: seq<Input>, k: nat) { k < |inputs| && inputs[k] == Deliver(FinalTranscript) }
  predicate SentenceAt(inputs: seq<Input>, k: nat) { k < |inputs| && inputs[k].Deliver? && inputs[k].e.LlmSentence? }

  /** After `start`: the user's speech ended; then the transcript came; then a sentence. */
  ghost predicate SpokenOut(inputs: seq<Input>, start: nat) {
    exists i :: start < i && SpeechEndedAt(inputs, i)
  }

  ghost predicate Understood(inputs: seq<Input>, start: nat) {
    exists i, j :: start < i < j && SpeechEndedAt(inputs, i) && TranscriptAt(inputs, j)
  }

  ghost predicate Answered(inputs: seq<Input>, start: nat) {
    exists i, j, k :: start < i < j < k && SpeechEndedAt(inputs, i) && TranscriptAt(inputs, j) && SentenceAt(inputs, k)
  }

  /** Where a turn stands, by what came since its start. */
  ghost predicate Phase(inputs: seq<Input>, start: nat, state: State) {
    && (state == UserSpeaking <==> !SpokenOut(inputs, start))
    && (state == Transcribing <==> SpokenOut(inputs, start) && !Understood(inputs, start))
    && (state == Thinking <==> Understood(inputs, start) && !Answered(inputs, start))
    && (state == Speaking <==> Answered(inputs, start))
  }

  lemma SpokenStep(inputs: seq<Input>, start: nat, i: Input)
    ensures var longer := inputs + [i];
            start < |inputs| ==> (SpokenOut(longer, start) <==> SpokenOut(inputs, start) || i == Deliver(SpeechEnded))
  {
    var longer := inputs + [i];
    if i == Deliver(SpeechEnded) { assert SpeechEndedAt(longer, |inputs|); }
    forall k: nat | k < |inputs| ensures SpeechEndedAt(longer, k) == SpeechEndedAt(inputs, k) {}
  }

  lemma UnderstoodStep(inputs: seq<Input>, start: nat, i: Input)
    ensures Understood(inputs + [i], start) <==>
            Understood(inputs, start) || (SpokenOut(inputs, start) && i == Deliver(FinalTranscript))
  {
    var longer := inputs + [i];
    forall k: nat | k < |inputs|
      ensures SpeechEndedAt(longer, k) == SpeechEndedAt(inputs, k) && TranscriptAt(longer, k) == TranscriptAt(inputs, k) {}
    if SpokenOut(inputs, start) && i == Deliver(FinalTranscript) {
      var k :| start < k && SpeechEndedAt(inputs, k);
      assert SpeechEndedAt(longer, k) && TranscriptAt(longer, |inputs|);
    }
    if Understood(inputs, start) {
      var a, b :| start < a < b && SpeechEndedAt(inputs, a) && TranscriptAt(inputs, b);
      assert SpeechEndedAt(longer, a) && TranscriptAt(longer, b);
    }
    if a, b :| start < a < b && SpeechEndedAt(longer, a) && TranscriptAt(longer, b) {
      assert SpeechEndedAt(inputs, a);
      if b < |inputs| { assert TranscriptAt(inputs, b); }
    }
  }

  lemma AnsweredStep(inputs: seq<Input>, start: nat, i: Input)
    ensures Answered(inputs + [i], start) <==>
            Answered(inputs, start) || (Understood(inputs, start) && i.Deliver? && i.e.LlmSentence?)
  {
    var longer := inputs + [i];
    if Understood(inputs, start) && i.Deliver? && i.e.LlmSentence? {
      var a, b :| start < a < b && SpeechEndedAt(inputs, a) && TranscriptAt(inputs, b);
      assert SpeechEndedAt(longer, a) && TranscriptAt(longer, b) && SentenceAt(longer, |inputs|);
    }
    if Answered(inputs, start) {
      var a, b, c :| start < a < b < c && SpeechEndedAt(inputs, a) && TranscriptAt(inputs, b) && SentenceAt(inputs, c);
      assert SpeechEndedAt(longer, a) && TranscriptAt(longer, b) && SentenceAt(longer, c);
    }
    if a, b, c :| start < a < b < c && SpeechEndedAt(longer, a) && TranscriptAt(longer, b) && SentenceAt(longer, c) {
      assert SpeechEndedAt(inputs, a) && TranscriptAt(inputs, b);
      if c < |inputs| { assert SentenceAt(inputs, c); }
    }
  }

  lemma Stages(inputs: seq<Input>, start: nat)
    ensures Answered(inputs, start) ==> Understood(inputs, start)
    ensures Understood(inputs, start) ==> SpokenOut(inputs, start)
  {}

  lemma PhaseStep(inputs: seq<Input>, start: nat, i: Input, w: World)
    requires start < |inputs| && Phase(inputs, start, w.fsm.state) && InTurn(w.fsm) && InTurn(Step(w, i).fsm)
    ensures Phase(inputs + [i], start, Step(w, i).fsm.state)
  {
    hide SpokenOut, Understood, Answered;
    SpokenStep(inputs, start, i);
    UnderstoodStep(inputs, start, i);
    AnsweredStep(inputs, start, i);
    Stages(inputs, start);
  }

  /** The turn started at `start`, with a new id and no counts, and has gone on since. */
  ghost predicate StartedAt(inputs: seq<Input>, start: nat) {
    && start < |inputs| && inputs[start] == Deliver(SpeechStarted)
    && Run(inputs[..start]).fsm.state == Listening
    && Run(inputs).fsm.active == Run(inputs[..start]).nextId
    && (forall m :: start < m <= |inputs| ==> InTurn(Run(inputs[..m]).fsm))
  }

  lemma BeginsTurn(w: World, i: Input)
    requires w.fsm.state == Listening && InTurn(Step(w, i).fsm)
    ensures i == Deliver(SpeechStarted) && Step(w, i).fsm.state == UserSpeaking && Step(w, i).fsm.active == w.nextId
  {}

  lemma StaysInTurn(w: World, i: Input)
    requires InTurn(w.fsm) && InTurn(Step(w, i).fsm)
    ensures Step(w, i).fsm.active == w.fsm.active
  {}

  lemma PhaseBegins(inputs: seq<Input>, i: Input)
    requires i == Deliver(SpeechStarted)
    ensures Phase(inputs + [i], |inputs|, UserSpeaking)
  {
    var all, start := inputs + [i], |inputs|;
    assert forall k :: start < k ==> !SpeechEndedAt(all, k);
    assert !SpokenOut(all, start);
    Stages(all, start);
  }

  /** In every run a turn is where the events since its start have brought it: it waits for the end of speech,
      then for the transcript, then for a sentence, whatever else comes. */
  lemma {:induction false} PhaseExactly(inputs: seq<Input>) returns (start: nat)
    requires InTurn(Run(inputs).fsm)
    ensures StartedAt(inputs, start) && Phase(inputs, start, Run(inputs).fsm.state)
  {
    hide Run, Step, Phase, InTurn;
    RunUnfolds(inputs);
    var init, i := inputs[..|inputs| - 1], inputs[|inputs| - 1];
    assert inputs == init + [i] && inputs[..|inputs|] == inputs;
    var w := Run(init);
    TurnsConserved(init);
    if InTurn(w.fsm) {
      start := PhaseExactly(init);
      PhaseStep(init, start, i, w);
      StaysInTurn(w, i);
      assert init[..start] == inputs[..start];
      forall m | start < m <= |inputs| ensures InTurn(Run(inputs[..m]).fsm) {
        if m < |inputs| { assert inputs[..m] == init[..m]; }
      }
    } else {
      start := |init|;
      BeginsTurn(w, i);
      PhaseBegins(init, i);
    }
  }

  lemma RunUnfolds(inputs: seq<Input>)
    requires InTurn(Run(inputs).fsm)
    ensures inputs != [] && Run(inputs) == Step(Run(inputs[..|inputs| - 1]), inputs[|inputs| - 1])
  {}

  // ----- The outcome -----

  /** The outcome goes with the phase of the turn, and between turns it is that of the last one. */
  ghost predicate OutcomeFits(f: FsmState, none: bool) {
    match f.state
    case UserSpeaking => f.outcome == NotStarted
    case Transcribing => f.outcome == NotStarted
    case Thinking => f.outcome == Generating
    case Speaking => f.outcome == SpeakingOutcome
    case _ =>
      if none then f.outcome == NotStarted
      else f.outcome == CompletedOutcome || f.outcome == InterruptedOutcome || f.outcome == DiscardedOutcome
  }

  lemma {:induction false} OutcomeFollows(inputs: seq<Input>)
    ensures var w := Run(inputs); OutcomeFits(w.fsm, w.minted == [])
  {
    hide Conserved;
    if inputs != [] {
      var init := inputs[..|inputs| - 1];
      OutcomeFollows(init);
      TurnsConserved(init);
    }
  }

  /** Whenever a counter goes up, the outcome says which, and stays until the next turn. */
  lemma OutcomeTells(inputs: seq<Input>, i: Input)
    ensures var f, g := Run(inputs).fsm, Run(inputs + [i]).fsm;
            && (g.turnsCompleted > f.turnsCompleted ==> g.outcome == CompletedOutcome)
            && (g.turnsInterrupted > f.turnsInterrupted ==> g.outcome == InterruptedOutcome)
            && (g.turnsDiscarded > f.turnsDiscarded ==> g.outcome == DiscardedOutcome)
            && (f.state == Listening && g.state == Listening ==> g.outcome == f.outcome)
  {
    assert (inputs + [i])[..|inputs|] == inputs;
    TurnsConserved(inputs);
  }
}
