/** The events that the dialogue components exchange over the bus (src/event/event.hpp); fields that
    no modelled component reads are left out. */
module Events {
  type TurnId = nat

  const NO_TURN: TurnId := 0

  datatype Event =
    | SpeechStarted
    | SpeechEnded
    | FinalTranscript
    | LlmStarted(turn: TurnId)
    | LlmSentence(turn: TurnId, seqNo: nat, text: string, lang: string)
    | LlmFinished(turn: TurnId, cancelled: bool)
    | PlaybackFinished(turn: TurnId, seqNo: nat)
    | UserInterrupted(turn: TurnId)
    | CancelGeneration(turn: TurnId)
    | OtherEvent
}
