# Verification of the voice assistant's core

This project models the parts of the acva voice assistant whose correctness depends on arithmetic, on
the cutting of streams, or on the interleaving of threads, and proves what they promise. Each source
file has one module. Where the source changes state step by step, the module has a class with the
same fields and methods with the same branches and loops; each method is proved to compute a function
of the old state, and the lemmas are about that function, over whole inputs and whole runs. Threads
are state machines whose steps are single atomic accesses, lock regions or queue operations; a run is
any sequence of steps that are possible one after the other, so every lemma about runs is about every
interleaving. Time is in nanoseconds or milliseconds as integers, samples are integers, bytes are
numbers below 256 or characters, probabilities are reals.

## What is modelled

- `TurnProtocol` puts the publisher of a reply, the two bus subscriptions, the bridge's handler and I/O
  thread, the playback queue, the audio callback, its postbox and publisher thread, and the dialogue
  state machine together for one uninterrupted turn, with the prefill gate and the postbox that throws
  away its oldest entry. Its invariant says that every sentence handed to the bridge and not yet reported
  as played is in exactly one place, and that the places, read from the state machine's queue back to the
  bridge's inbox, hold the sentences in order. `TurnSpeech` follows the audio itself through the same
  interleavings. `TurnOutcomes` shows that the two ways in which a turn can fail to complete are reachable.
  `StaleEvents` is about events of an earlier reply.
- `TtsBridge` and `BargeIn` are the bridge alone, with interrupts, cancellation tokens and `stop()`;
  `Speech` says which samples it queues, and that a cancelled job falls silent.
- `EventBus` and `BoundedQueue` are the bus and its queues, `Fsm` the state machine, `TurnWriter` the
  persistence of replies, `Manager` and `SentenceSplitter` the way from tokens to numbered sentences.
- `Playback` is the playback queue and `render_into`, `PlayedChunks` says what the device and the postbox get
  of the chunks that were queued; `SpscRing`, `Loopback` and `Clock` are the capture
  ring, the echo reference and the time maps; `Endpointer`, `Utterance` and `Pipeline` cut speech out of
  the microphone stream, and `PublishedSpeech` says what is published of it and which part of the stream an
  utterance is.
- `SseParser`, `Base64` and `Reassembler` are the streaming codecs: base64 as in sections 3.5 and 4 of
  RFC 4648, and the subset of sections 9.2.5 and 9.2.6 of the WHATWG HTML Living Standard that uses line
  feeds, `data:` lines and comments.
- `Events` has the events; `Wrappers`, `Modular` and `Audio` hold small general definitions and facts.

## Where the code and its comments disagree

The models follow the code.

- A `LlmStarted` handled after `UserInterrupted` replaces the cancelled token (src/dialogue/tts_bridge.cpp:95),
  and a `LlmFinished` drops it (line 123). A later sentence of the turn is then synthesized.
  `BargeIn.BoundIsExact` gives the exact condition for the barge-in bound, `BargeIn.ClientOrderBounds`
  derives it from the order in which the client publishes.
- The state machine counts `LlmSentence` and `LlmFinished` of any turn (src/dialogue/fsm.cpp:169-190); only
  `PlaybackFinished` is filtered. `StaleEvents.LateEndCompletesNextTurn` and `LateSentenceBlocksNextTurn` are
  runs in which the end, or a sentence, of an interrupted reply makes the next turn complete too early, or
  never; `StaleEvents.PromptExactlyWithoutStale` says that exactly such events do.
- The prefill gate (src/playback/engine.cpp:163-177, on by default) holds a turn whose audio never reaches the
  target, for ever. `TurnProtocol.QuietMeansCompletedOrHeld` says when a turn completes and when it is held,
  `TurnOutcomes.ShortAudioIsHeld` and `Playback.HeldChunk` show held ones.
- The postbox drops its oldest entry when it is full (src/playback/engine.cpp:34-36); the comment at lines
  18-20 calls its 256 entries generous. A turn that loses an entry never completes
  (`TurnProtocol.LostNeverCompletes`); `TurnOutcomes.LosesExactlyLongReplies` says which replies can.
- `Subscription::stop` promises to drain the queue (src/event/bus.hpp:42); the worker leaves after at most one
  more event. `EventBus.StopDrainsExactlyWhen` says when nothing is lost, `EventBus.StopLosesQueuedEvents`
  shows a loss.
- `SpscRing::size` is described as off by one at most (src/audio/spsc_ring.hpp:81-83); it is off by as much as
  the consumer popped between the two loads (`SpscRing.SizeCounts`), and so by any number that fits
  (`SpscRing.SizeOffByAny`).
- The hard backstop inside `on_token` (src/dialogue/manager.cpp:300-303) is never reached: the cap states cancel
  first. `Manager.Reply.OnToken` proves the branch dead.
- A base64 text is decoded only up to its first padded quad (src/stt/realtime_envelope.cpp:99-116);
  `Base64.EncodeAfterDecode` says what is ignored and when nothing is, `Base64.PaddingEndsText` is a case.
- Fragments repeated after their message came out are not recognised (src/stt/realtime_envelope.cpp:142-169): the
  only fragment of a message brings it again, one of several opens an entry that stays, and all of them
  together bring it a second time (`Reassembler.LateDuplicates`). `Reassembler.PromiseHoldsExactlyWhen` gives
  the exact condition for "exactly once and nothing left over". A fragment counts as a duplicate only if it
  is not empty (lines 151-154): an empty one sent twice counts for two
  (`Reassembler.RepeatIgnoredExactlyWhen`, `EmptyFragmentCountsTwice`).
- The comment on src/dialogue/sentence_splitter.cpp:98-99 speaks of three dots; two deferred dots already count
  as an ellipsis. And a dot that belongs to an abbreviation or a list marker is not counted, so the text is
  cut after `1..` (`SentenceSplitter.TwoDotsCut`); `SentenceSplitter.CutAfterDotsExactlyWhen` and `CutsExactly`
  say exactly where. An abbreviation is not always kept whole: in `(u.s.a. ` the text is cut after `(u.`, since
  a list marker must follow whitespace (line 226), and what is left, `s.a.`, is no abbreviation any more
  (`SentenceSplitter.BracketedAbbreviationIsCut`); `SentenceSplitter.AbbreviationCutExactlyWhen` says that this
  happens to no other abbreviation. A fourth backtick in a row toggles the fence again (lines 72-75), as in
  `SentenceSplitter.FenceMode`.
- An emit time equal to the clock's epoch reads as "no data" (src/audio/loopback.cpp:56), and a chunk larger than
  the ring comes back as its tail followed by silence; `Loopback.EmitThenAlign`.
- The live sink gets the end of the onset frame twice whenever there is a pre-buffer
  (src/audio/pipeline.cpp:178-188). `Pipeline.LiveSinkSeesOnsetTwice` gives the exact overlap, and
  `Pipeline.ContiguousExactlyWithoutPadding` says that only a pre-padding of less than a sample avoids it.

## Model

| member | source | states |
|---|---|---|
| TurnProtocol.StepKeeps | src/event/bus.cpp:80-106 | every step of every thread in an uninterrupted turn keeps the order and place of all its sentences |
| TurnProtocol.RunKeeps | src/dialogue/fsm.cpp:169-237 | the invariant holds in every reachable state |
| TurnProtocol.TurnSafety | src/dialogue/fsm.cpp:211-237 | in every interleaving sentences are handled in order, each playback after its own sentence and after it was written out, and played never exceeds received; without a gap unless the postbox dropped one |
| TurnProtocol.TurnCompletesOnce | src/dialogue/fsm.cpp:184-237 | the turn completes at most once, exactly when all n sentences, all n playbacks and the end of the reply were handled, and then all sentences were rendered and none was dropped |
| TurnProtocol.QuietMeansCompletedOrHeld | src/playback/engine.cpp:155-185 | with the real queue capacities, when no thread can do anything but retry at a full queue, the turn has completed if and only if the postbox dropped nothing and the reply is empty, or the gate is off, or at least the prefill target was synthesized; otherwise the gate is closed on all of it and nothing was played |
| TurnProtocol.QuietStays | src/playback/queue.cpp:29-42 | such a state stays as it is for ever |
| TurnProtocol.LostNeverCompletes | src/playback/engine.cpp:145-149 | a turn of which the postbox dropped a playback never completes, whatever follows |
| TurnProtocol.ShortRepliesLoseNothing | src/playback/engine.cpp:18-49 | a reply of at most 256 sentences loses nothing in any run |
| TurnOutcomes.LosesExactlyLongReplies | src/playback/engine.cpp:18-49 | a reply has a run that loses a playback if and only if it has more than 256 sentences |
| TurnOutcomes.ShortAudioIsHeld | src/playback/engine.cpp:163-177 | every non-empty reply synthesized to less than the prefill target has a run that ends held |
| TurnProtocol.BridgeKeeps | src/dialogue/tts_bridge.cpp:98-116 | handling, taking, synthesizing and enqueueing move sentences towards the playback queue without losing or reordering any; their samples are `TurnSpeech.WrittenIsSaid` |
| TurnSpeech.WrittenIsSaid | src/dialogue/tts_bridge.cpp:230-320 | with an unbounded queue, in every interleaving: what was written to the device, then what is on its way, is sample by sample and in order what synthesis gave for the turn's sentences, each followed by its end |
| TurnSpeech.CompletedIsHeard | src/dialogue/fsm.cpp:211-237 | when the turn has completed, the device got everything that synthesis gave for it, in order |
| Speech.QueuedIsSpoken | src/dialogue/tts_bridge.cpp:230-320 | in every run with an unbounded queue, interrupted or not, the chunks ever queued carry exactly the samples synthesized for sentences neither cancelled nor failed, in order, and each sentence's end after its last sample |
| Speech.ConsumedInOrder | src/playback/queue.cpp:10-59 | without an interrupt what was consumed, then what is queued, is what was ever queued |
| Speech.FullQueue | src/dialogue/tts_bridge.cpp:243-255 | at a full queue audio is dropped and the end of a sentence waits |
| Speech.CountersTellOutcome | src/dialogue/tts_bridge.cpp:322-345 | in every run a job counts as failed exactly if synthesis failed in it, as synthesized if not, and as neither when it was cancelled by the last look |
| Speech.CancelledJobStaysSilent | src/dialogue/tts_bridge.cpp:289-320 | once its token is cancelled the I/O thread queues nothing more of a job, also when its end was waiting for room, except what had already passed the look at the token |
| Speech.StopSilencesRunningJob | src/dialogue/tts_bridge.cpp:41-57 | `stop()` does that to the running job, in every run |
| TurnProtocol.HeadOfQueue | src/dialogue/fsm.cpp:169-237 | the event the state machine handles next is the next sentence, or a playback of a sentence already received, or the end after all sentences |
| TtsBridge.SentencesConserved | src/dialogue/tts_bridge.cpp:165-188 | received = synthesized + cancelled + errored + pending + running in every reachable state; after the I/O thread left, the counters account for all |
| TtsBridge.BargeInBound | src/dialogue/tts_bridge.cpp:126-163 | after an interrupt cleared the queue, at most one more chunk of the turn is enqueued, in every interleaving, if no sentence follows a renewal of its token, and no other chunk of the turn is in the queue |
| TtsBridge.InterruptDropsOnlyItsTurn | src/dialogue/tts_bridge.cpp:144-153 | every pending job of the turn is dropped and, for every other turn, none, in order |
| TtsBridge.HandleKeepsQuiet | src/dialogue/tts_bridge.cpp:77-89 | every event keeps what makes the bound hold: no pending job of the interrupted turn, and its running job's token doomed |
| TtsBridge.OtherStepKeepsQuiet | src/dialogue/tts_bridge.cpp:230-320 | so do all steps of the I/O thread, the engine and `stop()`, also between the check and the enqueue |
| BargeIn.RevivalBreaksBound | src/dialogue/tts_bridge.cpp:91-96 | whenever a sentence follows an interrupt and a renewal of the token, some interleaving enqueues two late chunks |
| BargeIn.BoundIsExact | src/dialogue/tts_bridge.cpp:118-124 | the bound holds in all interleavings if and only if the order of events has no such revival |
| BargeIn.ClientOrderBounds | src/llm/client.cpp:201-213 | if the turn's sentences precede its `LlmFinished` and no `LlmStarted` follows the interrupt, there is no revival and the bound holds |
| BargeIn.OneLateChunk | src/dialogue/tts_bridge.cpp:230-261 | the bound is tight: one late chunk is reachable in that order |
| TtsBridge.TtsBridge.OnLlmStarted | src/dialogue/tts_bridge.cpp:91-96 | the turn gets a new token, whatever it had |
| TtsBridge.TtsBridge.TokenFor | src/dialogue/tts_bridge.cpp:64-75 | returns the turn's token and mints one only if there is none |
| TtsBridge.TtsBridge.OnLlmSentence | src/dialogue/tts_bridge.cpp:98-116 | a sentence of a cancelled turn is counted, any other is queued last |
| TtsBridge.TtsBridge.OnLlmFinished | src/dialogue/tts_bridge.cpp:118-124 | only the token entry goes |
| TtsBridge.TtsBridge.DropPending | src/dialogue/tts_bridge.cpp:144-153 | exactly the turn's jobs leave the queue, in order for the rest, and each is counted |
| TtsBridge.TtsBridge.InterruptRegion | src/dialogue/tts_bridge.cpp:126-156 | what the interrupt's lock region changes, and which tokens are cancelled after it |
| TtsBridge.TtsBridge.OnUserInterrupted | src/dialogue/tts_bridge.cpp:126-163 | the whole handler: tokens cancelled, jobs dropped, playback queue empty |
| TtsBridge.TtsBridge.TakeJob | src/dialogue/tts_bridge.cpp:168-176 | the oldest job is taken and its token put in flight |
| EventBus.EventBus.PublishEvent | src/event/bus.cpp:70-107 | every matching subscription gets the event under its own overflow policy, in order, up to the first whose full queue makes the publisher wait; no other queue changes, and nothing happens during shutdown |
| EventBus.EventBus.PublishFrom | src/event/bus.cpp:89-106 | the fan-out goes on from where it waited, and stops only at a queue that makes it wait |
| EventBus.CausalOrder | src/event/bus.cpp:80-106 | whatever is published after some subscription handled an event comes after that event in the queue of every earlier subscription |
| EventBus.HandledOnceInOrder | src/event/bus.cpp:34-49 | a subscription handles each publication at most once, in queue order |
| EventBus.RunOrders | src/event/bus.cpp:80-106 | in every interleaving a queue's log holds exactly the matching publications that have passed the subscription |
| EventBus.MatchesAlternative | src/event/bus.cpp:89-103 | a subscription to one event type matches exactly the events of that alternative |
| EventBus.TypedSubscription | src/event/bus.cpp:80-106 | in every interleaving a typed subscription gets events of its type only, and every one that passed it unless it is closed or drops the newest |
| EventBus.SubIsQueue | src/event/queue.hpp:49-121 | the pushes and pops of that machine are those of the bounded queue |
| EventBus.StopDrainsExactlyWhen | src/event/bus.cpp:23-49 | after the running flag is cleared at most one more event is handled, also if events are published until the queue is closed; everything queued or published since is handled if and only if it is no more than that one |
| EventBus.StopLosesQueuedEvents | src/event/bus.cpp:23-32 | a run in which two queued events are never handled |
| BoundedQueue.BoundedQueue.PushItem | src/event/queue.hpp:49-78 | accepts, drops the oldest, refuses, or has to wait, by policy, capacity and closedness |
| BoundedQueue.BoundedQueue.TryPopItem | src/event/queue.hpp:111-121 | hands out the oldest item |
| BoundedQueue.QueueConserves | src/event/queue.hpp:49-121 | over any run, what left and what is queued is what was accepted, in order; only `DropOldest` loses accepted items, and counts them |
| BoundedQueue.PoliciesHold | src/event/queue.hpp:49-78 | over any run a push is refused only by a closed queue or, when full, by `DropNewest`; only `Block` makes it wait, and never drops; accepted items are those of the accepted pushes; each overflow is counted once |
| StaleEvents.RecordsOwnExactlyWhen | src/dialogue/fsm.cpp:169-190 | over every run, the counted sentences are the active turn's own if and only if no sentence of another turn was handled since it was minted, and likewise for the end of the reply |
| StaleEvents.PromptExactlyWithoutStale | src/dialogue/fsm.cpp:169-237 | the turn is sure to complete exactly at the last of its own events, however its reply goes on, if and only if no sentence and no end of another reply was handled since it was minted |
| StaleEvents.LateEndCompletesNextTurn | src/dialogue/fsm.cpp:184-209 | a run in which the late end of an interrupted reply completes the next turn while its own reply goes on |
| StaleEvents.LateSentenceBlocksNextTurn | src/dialogue/fsm.cpp:169-182 | a run in which a late sentence of an interrupted reply keeps the next turn from completing |
| Fsm.Fsm.OnEvent | src/dialogue/fsm.cpp:101-113 | one event changes state, outcome and counters as the handlers do |
| Fsm.Fsm.HandleLlmFinished | src/dialogue/fsm.cpp:184-209 | completes the turn when there were no sentences or all have played |
| Fsm.Fsm.HandlePlaybackFinished | src/dialogue/fsm.cpp:211-237 | ignores other turns, completes the turn at the last sentence once the reply is over |
| Fsm.Fsm.HandleUserInterrupted | src/dialogue/fsm.cpp:239-291 | cancels the active turn's token, asks the bus to cancel it, and counts it as interrupted or discarded |
| Fsm.TurnFactory.Mint | src/dialogue/turn.cpp:5-11 | ids count up |
| Fsm.TurnsConserved | src/dialogue/fsm.cpp:115-291 | over every event sequence, turns minted = completed + interrupted + discarded + the open one; active ids strictly increase |
| Fsm.PlayedCounts | src/dialogue/fsm.cpp:211-221 | the played counter is the number of playbacks handled for the active turn |
| Fsm.InterruptOutcome | src/dialogue/fsm.cpp:239-291 | an interrupted turn counts as interrupted exactly when one of its playbacks was handled, otherwise as discarded |
| Fsm.PhaseExactly | src/dialogue/fsm.cpp:115-182 | in every run a turn waits for the end of speech, then the transcript, then a sentence: its state is exactly how far the events since its start have brought it |
| Fsm.OutcomeFollows | src/dialogue/fsm.cpp:131-291 | in every run the outcome goes with the phase of the turn, and between turns is completed, interrupted or discarded |
| Fsm.OutcomeTells | src/dialogue/fsm.cpp:184-291 | the outcome is that of the counter that went up last |
| TurnWriter.TurnWriter.HandleStarted | src/dialogue/turn_writer.cpp:81-88 | a turn is entered once |
| TurnWriter.TurnWriter.HandleSentence | src/dialogue/turn_writer.cpp:90-101 | the sentence is stored under its number, growing the lists |
| TurnWriter.TurnWriter.HandlePlaybackFinished | src/dialogue/turn_writer.cpp:103-115 | the sentence is marked as played, also before it arrives |
| TurnWriter.TurnWriter.HandleFinished | src/dialogue/turn_writer.cpp:117-174 | writes at most the row of this turn and forgets the turn |
| TurnWriter.RunReflects | src/dialogue/turn_writer.cpp:90-115 | the stored lists reflect the set of the turn's events, whatever their order and whatever other turns do; the language is that of the first sentence that names one |
| TurnWriter.SentenceStarts | src/dialogue/turn_writer.cpp:81-119 | a first sentence starts a turn as `LlmStarted` does; a playback or an end of a turn that has not started does nothing |
| TurnWriter.OrderDoesNotMatter | src/dialogue/turn_writer.cpp:81-155 | any two orders of the same sentence and playback events give the same row |
| TurnWriter.RowIsSentencesInOrder | src/dialogue/turn_writer.cpp:131-156 | the text is all non-empty sentences by number, only the played ones if cancelled, position by position with one blank between; no row exactly if cancelled and none played; a cancelled row is interrupted at the number of its sentences |
| Manager.Reply.OnToken | src/dialogue/manager.cpp:292-328 | publishes the next sentences until the one after the cap, then cancels; never numbers out of order |
| Manager.Reply.OnFinished | src/dialogue/manager.cpp:330-348 | after the flush exactly the first cap + 1 sentences of the whole text are published |
| Manager.PublishReply | src/dialogue/manager.cpp:265-359 | however the text was cut into deltas, the published sentences are the first min(cap + 1, N) of the N sentences of the whole text, sentence i with number i |
| SentenceSplitter.SentenceSplitter.Push | src/dialogue/sentence_splitter.cpp:65-145 | the loop emits the trimmed, non-blank segments that the character steps cut |
| SentenceSplitter.SentenceSplitter.PushChar | src/dialogue/sentence_splitter.cpp:66-143 | one character: fence, deferred terminator, classification, forced cut |
| SentenceSplitter.SentenceSplitter.Flush | src/dialogue/sentence_splitter.cpp:147-154 | the buffer becomes the last sentence, unless blank |
| SentenceSplitter.SentenceSplitter.ResolvePending | src/dialogue/sentence_splitter.cpp:156-173 | cuts right after the deferred terminator |
| SentenceSplitter.LastWordIsAbbreviation | src/dialogue/sentence_splitter.cpp:186-206 | the backward scan finds an abbreviation before the dot, as `SentenceSplitter.AbbreviationExactly` states it |
| SentenceSplitter.AbbreviationExactly | src/dialogue/sentence_splitter.cpp:186-206 | yes if and only if the word before the final dot, bounded by a character that is neither alphanumeric nor a dot or by the start, equals a table entry letter by letter up to case |
| SentenceSplitter.ListMarkerExactly | src/dialogue/sentence_splitter.cpp:208-229 | yes if and only if one to three alphanumerics stand before the final dot, at the start or after whitespace |
| SentenceSplitter.PlainAbbreviationNotCut | src/dialogue/sentence_splitter.cpp:82-135 | no text is cut right after the dot of an abbreviation without inner dots, whatever its letter case |
| SentenceSplitter.AbbreviationCutExactlyWhen | src/dialogue/sentence_splitter.cpp:82-135 | a text that ends in an abbreviation is cut after it if and only if that is `u.s.a`, the splitter has only its last four characters left, and neither a digit nor a dot follows, outside a fence |
| SentenceSplitter.BracketedAbbreviationIsCut | src/dialogue/sentence_splitter.cpp:208-229 | `(u.s.a. ` is such a text |
| SentenceSplitter.LongTextIsCut | src/dialogue/sentence_splitter.cpp:136-143 | a pause cuts a text without an open terminator as soon as it is too long, and none that is at least two characters below the limit |
| SentenceSplitter.OneSentenceEach | src/dialogue/sentence_splitter.cpp:156-184 | a segment gives the sentence from its first character that is not whitespace on, or none if it has none |
| SentenceSplitter.EndsWithMarker | src/dialogue/sentence_splitter.cpp:208-229 | the backward scan finds a list marker |
| SentenceSplitter.FeedTwice | src/dialogue/sentence_splitter.cpp:65-145 | pushing two pieces is pushing their concatenation, from any state |
| SentenceSplitter.EmittedGrows | src/dialogue/sentence_splitter.cpp:65-154 | more text never takes back a sentence |
| SentenceSplitter.PushKeeps | src/dialogue/sentence_splitter.cpp:65-145 | input = segments + buffer; a deferred terminator is the buffer's tail; the fence mode depends on the input alone; no cut is inside a fence, inside a run of dots, or before a digit after a terminator |
| SentenceSplitter.SplitConserves | src/dialogue/sentence_splitter.cpp:65-184 | the sentences of a text are segments that concatenate to the text, trimmed, blank ones dropped |
| SentenceSplitter.CutsExactly | src/dialogue/sentence_splitter.cpp:82-143 | exactly which cuts the next character makes, from the buffer, the fence mode of the text and the length counter |
| SentenceSplitter.FeedMarks | src/dialogue/sentence_splitter.cpp:82-135 | whether a terminator is deferred, and how many dots count, is a function of the buffer alone |
| SentenceSplitter.SingleTerminatorCuts | src/dialogue/sentence_splitter.cpp:97-107 | a single terminator outside a fence that belongs to no abbreviation or list marker is always cut after, unless a digit or another dot follows |
| SentenceSplitter.CutAfterDotsExactlyWhen | src/dialogue/sentence_splitter.cpp:85-104 | after two or more dots there is a cut if and only if there are two and the first belongs to an abbreviation or list marker |
| SentenceSplitter.TwoDotsCut | src/dialogue/sentence_splitter.cpp:114-134 | after `1..` and a blank the text is cut |
| Playback.PlaybackQueue.Enqueue | src/playback/queue.cpp:10-23 | appends or counts a drop, a cap of 0 being none |
| Playback.PlaybackQueue.TryEnqueueBlocking | src/playback/queue.cpp:25-43 | one attempt appends or changes nothing |
| Playback.PlaybackQueue.DequeueActive | src/playback/queue.cpp:45-59 | skips and counts the stale head, returns the first live chunk |
| Playback.PlaybackQueue.InvalidateBefore | src/playback/queue.cpp:61-79 | exactly the chunks of older turns leave, and are counted |
| Playback.PlaybackQueue.PendingSamplesFor | src/playback/queue.cpp:94-101 | sums the samples of one turn |
| Playback.PlaybackEngine.RenderInto | src/playback/engine.cpp:132-187 | fills the buffer with what rendering yields, then silence, and posts the ends of sentences; terminates on frames left and chunks left |
| Playback.RenderConserves | src/playback/engine.cpp:132-187 | rendered items, then what is still to come, are what was to come; silence is only a tail, and only when nothing is left or the gate is closed |
| Playback.RunConserves | src/playback/engine.cpp:132-187 | over any run each sample of an accepted chunk is played once, in order, and each end of sentence posted once, after its last sample |
| PlayedChunks.ChunksPlayInFull | src/playback/engine.cpp:132-187 | over any run what was rendered, then what the remaining chunks say, is what the turn's accepted chunks say: the samples, and the end of the sentence exactly after a chunk that is the last of its sentence |
| PlayedChunks.WholeAt | src/playback/engine.cpp:145-149 | position by position: chunk j stands right after the chunks before it, its end right after its last sample |
| PlayedChunks.DeviceAndPostbox | src/playback/engine.cpp:132-187 | the device gets the accepted samples in order, and one end is posted for each accepted last chunk and for no other |
| PlayedChunks.PostboxHoldsNewest | src/playback/engine.cpp:18-49 | the postbox holds the newest of what was posted, as many as fit |
| PlayedChunks.PlaysOnOnceStarted | src/playback/engine.cpp:155-185 | once the device has taken something from the queue, silence only means that nothing of the turn is left |
| PlayedChunks.GateCountsOwnSamples | src/playback/queue.cpp:94-101 | what the gate counts is the number of queued samples of the turn's own chunks |
| PlayedChunks.InvalidateDropsOlder | src/playback/queue.cpp:61-79 | every chunk of an older turn is dropped and, for every other turn, none, in order |
| PlayedChunks.SkipsOnlyStaleHead | src/playback/queue.cpp:45-59 | dequeuing skips the chunks of other turns at the head and no more |
| Playback.PrefillHoldsExactlyWhen | src/playback/engine.cpp:155-177 | an engine between chunks plays nothing of the queued turn, and stays as it is, if and only if the gate is closed |
| Playback.HeldChunk | src/playback/engine.cpp:163-177 | a chunk shorter than the target, alone in the queue, is never played |
| SpscRing.MaskIsMod | src/audio/spsc_ring.hpp:34-38 | masking with Capacity - 1 is the remainder by Capacity for a power of two |
| SpscRing.SpscRing.Push | src/audio/spsc_ring.hpp:54-63 | appends to the contents, or fails exactly when Capacity - 1 are stored |
| SpscRing.SpscRing.Pop | src/audio/spsc_ring.hpp:66-74 | removes the first of the contents, or fails exactly when there is none |
| SpscRing.RunKeepsInv | src/audio/spsc_ring.hpp:54-74 | every load, write, read and store step keeps the indices, the slots and the two threads' stale views consistent |
| SpscRing.RingSafety | src/audio/spsc_ring.hpp:54-74 | under every interleaving popped values are a prefix of pushed ones, occupancy is at most Capacity - 1, and the written slot is never the read one |
| SpscRing.FailuresAreHonest | src/audio/spsc_ring.hpp:57-70 | a push fails if and only if it saw a full ring, a pop if and only if it saw an empty one |
| SpscRing.SizeCounts | src/audio/spsc_ring.hpp:81-88 | size() counts stored items plus those popped since it loaded the head, modulo the capacity; exact exactly when the number popped is a multiple of the capacity |
| SpscRing.SizeOffByAny | src/audio/spsc_ring.hpp:81-88 | for every k below the capacity, size() can return k when the ring is empty |
| Loopback.EmitRemembers | src/audio/loopback.cpp:26-42 | wrapping writes keep the ring a window on the last samples of the history, also for chunks larger than the ring |
| Loopback.LoopbackSink.OnEmitted | src/audio/loopback.cpp:13-47 | the history grows by the chunk and the anchor is the first frame kept |
| Loopback.LoopbackSink.Aligned | src/audio/loopback.cpp:49-97 | every frame still in the window is what was emitted, every other is silence |
| Loopback.LoopbackSink.Clear | src/audio/loopback.cpp:117-124 | nothing is remembered |
| Loopback.AlignedAtEmitTime | src/audio/loopback.cpp:44-74 | the frames that the anchor and a zero time difference select are the chunk, or the tail of one larger than the ring and then silence |
| Loopback.EmitThenAlign | src/audio/loopback.cpp:13-97 | emitting a chunk and aligning at its emit time returns the chunk; one larger than the ring returns its tail and silence, and an emit time at the epoch returns silence |
| Loopback.EmitThenAlignLater | src/audio/loopback.cpp:49-97 | aligning within half a frame of k frames after (or before) the emit time returns what was sent from there on: the chunk, what came before it while the ring has it, silence beyond |
| Clock.WithinHalfAFrame | src/audio/loopback.cpp:64-71 | the signed rounding picks a frame within half a frame of the requested time |
| Clock.MonotonicAudioClock.OnCaptureFrames | src/audio/clock.cpp:19-43 | the first tick anchors at frame 0, later ones at the end of the buffer; empty ticks change nothing |
| Clock.MonotonicAudioClock.SteadyFor | src/audio/clock.cpp:45-63 | the time of a frame from the anchor, 0 when not anchored |
| Clock.MonotonicAudioClock.FramesAt | src/audio/clock.cpp:65-79 | the frame at a time, clamped at 0 |
| Clock.RoundTrip | src/audio/clock.cpp:45-79 | frame to time and back loses exactly ceil(d * (10^9 mod rate) / 10^9) frames, towards the anchor, and the clamp never acts |
| Clock.ExactWhenRateDivides | src/audio/clock.cpp:57-78 | the round trip is exact if and only if the rate divides 10^9 or the frame is the anchor |
| Clock.MapsAreMonotone | src/audio/clock.cpp:45-79 | both maps are monotone |
| Clock.TimeRoundTrip | src/audio/clock.cpp:45-79 | time to frame and back never overshoots, with a bound on the error |
| Endpointer.Endpointer.FrameIn | src/audio/endpointer.cpp:26-120 | one frame changes state, durations and times as the thresholds say |
| Endpointer.Endpointer.ForceEndpoint | src/audio/endpointer.cpp:122-135 | ends speech or a candidate at once |
| Endpointer.SpeechStartsAfterEnoughSpeech | src/audio/endpointer.cpp:34-63 | before every SpeechStarted there is a run since Quiet with no frame below the offset and at least min_speech_ms above the onset, and the start time is that of its first frame |
| Endpointer.SpeechEndsAfterEnoughSilence | src/audio/endpointer.cpp:69-117 | every SpeechEnded of a frame ends a run that opened below the offset, never rose above the onset and lasted the hangover, and the end time is that of its first frame |
| Endpointer.EnoughSpeechStarts | src/audio/endpointer.cpp:34-63 | conversely such a run of more than one frame starts speech before it is over |
| Endpointer.EnoughSilenceEnds | src/audio/endpointer.cpp:69-117 | conversely such a silence ends speech before it is over |
| Endpointer.FalseStartExactlyWhen | src/audio/endpointer.cpp:41-135 | a false start is reported if and only if a run since Quiet that has not become speech falls below the offset or is forced to end |
| Endpointer.InSpeechExactlyWhen | src/audio/endpointer.cpp:26-135 | speech is going on exactly if a start was reported and neither an end nor a reset came since |
| Endpointer.ForcedEndExactlyWhen | src/audio/endpointer.cpp:122-135 | forcing reports an end exactly then, and at its own time |
| Utterance.UtteranceBuffer.AppendSamples | src/audio/utterance.cpp:40-74 | recording keeps the newest samples up to the cap and moves the start; otherwise the pre-buffer keeps its newest ones |
| Utterance.UtteranceBuffer.OnSpeechStarted | src/audio/utterance.cpp:76-94 | the pre-buffer becomes the head of the recording |
| Utterance.UtteranceBuffer.OnSpeechEnded | src/audio/utterance.cpp:96-142 | the recording, cut to the padded duration, is the slice |
| Utterance.CapMovesStart | src/audio/utterance.cpp:42-61 | at the cap the start time moves on by the time of the samples pushed out, less than a millisecond short for each frame |
| Pipeline.AudioPipeline.ProcessFrame | src/audio/pipeline.cpp:138-251 | one frame through buffer, live sink and endpointer, and what is published |
| Pipeline.IsTooQuiet | src/audio/pipeline.cpp:213-239 | the loop over the squares decides as `Pipeline.QuietIsBelowRms` says |
| Pipeline.QuietIsBelowRms | src/audio/pipeline.cpp:213-230 | a slice is dropped if and only if the gate is on and the root of the mean square of its samples is below the limit |
| PublishedSpeech.FramePublishes | src/audio/pipeline.cpp:161-249 | a frame that starts or ends speech publishes that with its own capture time, an end with the utterance right behind it if that is loud enough; other frames publish nothing |
| PublishedSpeech.PublishesLoudUtterances | src/audio/pipeline.cpp:161-249 | over any run what was published is one start per utterance, its end, and the utterance exactly if it is not too quiet, in order and nothing else |
| PublishedSpeech.AudibleUtterances | src/audio/pipeline.cpp:199-249 | the published utterances are, in order, the slices not too quiet, each right after the SpeechEnded with its own time |
| PublishedSpeech.SliceBounds | src/audio/utterance.cpp:40-142 | in every run a slice begins at the onset less the padding (or the cap before the stream's end) and ends with the stream or after the padded duration; it is timed from the onset less the padding unless the cap moved it |
| PublishedSpeech.PreBufferHolds | src/audio/utterance.cpp:63-74 | the padding is what came since the last utterance, up to its capacity |
| Pipeline.AudioPipeline.TakeBlocks | src/audio/pipeline.cpp:112-136 | the carry loop takes whole blocks and keeps the rest |
| Pipeline.ReblockingConserves | src/audio/pipeline.cpp:109-136 | over any inputs, blocks of exactly 10 ms and the carry are the inputs concatenated, the carry less than a block |
| Pipeline.SlicesAreDisjointIntervals | src/audio/pipeline.cpp:138-251 | every slice is a contiguous interval of the processed stream, slices are disjoint and in order, and none exceeds the cap |
| Pipeline.SpeechAlternates | src/audio/pipeline.cpp:161-251 | recording, in-speech flag and endpointer agree between frames, and SpeechStarted and SpeechEnded strictly alternate |
| Pipeline.SpeechTimesNeverGoBack | src/audio/pipeline.cpp:190-205 | with nondecreasing capture times the published times are nondecreasing |
| Pipeline.LiveSinkSeesOnsetTwice | src/audio/pipeline.cpp:141-188 | what the live sink gets since the onset is the pre-buffer, whose length is exact, then the onset frame, then the rest of the stream: the shorter of pre-buffer and frame comes twice |
| Pipeline.ContiguousExactlyWithoutPadding | src/audio/pipeline.cpp:168-189 | the live sink gets one stretch of the stream in every run if and only if the pre-padding is less than a sample |
| Pipeline.ClickComesTwice | src/audio/pipeline.cpp:178-188 | with any pre-padding, a run in which it does not |
| SseParser.SseParser.FeedBytes | src/llm/sse_parser.cpp:26-43 | handles every whole event in the buffer, up to the done event |
| SseParser.SseParser.FinishStream | src/llm/sse_parser.cpp:45-50 | handles what is left as one event |
| SseParser.SseParser.EmitEvent | src/llm/sse_parser.cpp:52-81 | the callbacks of the event's lines, nothing after the done line |
| SseParser.FindBoundary | src/llm/sse_parser.cpp:20-22 | finds the first blank line |
| SseParser.ChunkingIndependence | src/llm/sse_parser.cpp:26-50 | any partition of the bytes into calls gives the trace and final state of one call, and no whole event is left waiting |
| SseParser.PrintParse | src/llm/sse_parser.cpp:26-81 | events printed from any lines (data with or without the blank, comments, other fields, done) parse to exactly what the lines mean up to the first done line; an unterminated rest stays in the buffer |
| SseParser.FinishPrinted | src/llm/sse_parser.cpp:45-50 | finishing a stream that ends without its blank line gives what the last lines mean as well |
| Base64.EncodeBytes | src/stt/realtime_envelope.cpp:37-58 | the shifting loop computes the encoding, quad by quad |
| Base64.DecodeText | src/stt/realtime_envelope.cpp:84-123 | the decoding loop computes the decoding, with its early end and all its refusals |
| Base64.DecodeQuadAt | src/stt/realtime_envelope.cpp:89-120 | one quad: alphabet, padding and zero trailing bits |
| Base64.DecodeAfterEncode | src/stt/realtime_envelope.cpp:37-123 | every byte string survives encoding and decoding |
| Base64.EncodeAfterDecode | src/stt/realtime_envelope.cpp:84-123 | re-encoding a decoded text gives a prefix of it, the whole text if and only if no padding comes before the last quad |
| Base64.PaddingEndsText | src/stt/realtime_envelope.cpp:99-107 | a text with a padded quad before its last one decodes to what precedes the padding |
| Base64.DecodesExactly | src/stt/realtime_envelope.cpp:84-123 | a text decodes to given bytes if and only if it is quads that begin with their encoding, and is no more than that unless padding ended it |
| Base64.DigitsAreTheAlphabet | src/stt/realtime_envelope.cpp:23-35 | the alphabet is that of section 4 of RFC 4648, and only its characters are looked up |
| Base64.QuadIsGroup | src/stt/realtime_envelope.cpp:37-58 | the four sextets are the 24-bit group, most significant first, or the padded 16 or 8 bits |
| Reassembler.EnvelopeReassembler.FeedEnvelope | src/stt/realtime_envelope.cpp:125-171 | one envelope: whole message, refusals, total changed, duplicate, stored, or complete |
| Reassembler.FullMessageComesBack | src/stt/realtime_envelope.cpp:130-132 | an uncut message comes back byte for byte at once, with any table, and leaves it alone |
| Reassembler.Refusals | src/stt/realtime_envelope.cpp:133-154 | another type, a missing or bad index or total, and a duplicate bring nothing and change nothing; a changed total drops the message |
| Reassembler.CallsReturn | src/stt/realtime_envelope.cpp:125-171 | with uncut messages, fragments and refused envelopes interleaved, each call returns exactly its own message or the one it completed |
| Reassembler.ReturnedOnceAmongCalls | src/stt/realtime_envelope.cpp:125-171 | a cut message that is fully delivered is returned by exactly one of those calls |
| Reassembler.RunAgrees | src/stt/realtime_envelope.cpp:142-170 | after deliveries in any order, interleaved and repeated, the table holds exactly the fragments of the partly received messages |
| Reassembler.PendingCount | src/stt/realtime_envelope.hpp:50-52 | pending_count is the number of partly received ids |
| Reassembler.ReturnsWhenWhole | src/stt/realtime_envelope.cpp:161-169 | a call returns something exactly when its message became whole, and then the payload byte for byte |
| Reassembler.ReturnedExactlyOnce | src/stt/realtime_envelope.cpp:125-171 | a fully delivered message is returned by exactly one call, the one with its last missing fragment |
| Reassembler.PromiseHoldsExactlyWhen | src/stt/realtime_envelope.cpp:142-170 | for fragments in any order, the table always holds exactly the partly received messages and no message is returned twice, if and only if nothing is delivered of a message that is whole |
| Reassembler.LateDuplicates | src/stt/realtime_envelope.cpp:142-169 | what repeating one or both fragments of two, or the only fragment, does after completion |
| Reassembler.RepeatIgnoredExactlyWhen | src/stt/realtime_envelope.cpp:150-156 | a repeated fragment changes nothing if and only if it is not empty |
| Reassembler.EmptyFragmentCountsTwice | src/stt/realtime_envelope.cpp:150-169 | an empty fragment sent twice completes a message of two |

## Left out

- Clock.RoundTrip: times and frame numbers are unbounded integers; the 64-bit overflow of `delta * rate` is not modelled, here and in `Clock.WithinHalfAFrame`.
- SpscRing.RingSafety: steps are sequentially consistent; hardware orderings weaker than that are not modelled.
- EventBus.RunOrders: the list of subscriptions is fixed during a run, and shutdown is its stop steps.
- TurnProtocol.QuietMeansCompletedOrHeld: events that no modelled handler reads are not part of that machine, nor is the fairness of the scheduler.
- TtsBridge.BargeInBound: synthesis is arbitrary: any number of chunks of any content, errors at any point.
- Playback.PlaybackQueue.TryEnqueueBlocking: the wait and the look at the token between attempts are steps of `TtsBridge`.
- Playback.PlaybackEngine.RenderInto: metric counters, the barge-in timer and the loopback tap are not modelled; the active turn is whatever each read returns.
- Endpointer.Endpointer.FrameIn: probabilities are reals instead of single-precision numbers.
- Utterance.UtteranceBuffer.OnSpeechEnded: the list of weak references to slices in flight and its drop counter are not modelled.
- Pipeline.AudioPipeline.ProcessFrame: resampler output and voice probability are inputs.
- Pipeline.IsTooQuiet: compares the squares exactly, where the program rounds the quotient and its root to doubles; the sum does not wrap at 64 bits, which 16-bit samples would need 2^34 of.
- Speech.QueuedIsSpoken: needs an unbounded queue, which is what the configuration's 0 means; of a full one `Speech.FullQueue` says what is lost.
- PlayedChunks.ChunksPlayInFull: the active turn is fixed during the run.
- Reassembler.RunAgrees: fragments are not empty; `Reassembler.RepeatIgnoredExactlyWhen` says what an empty one does.
- TurnWriter.TurnWriter.HandleFinished: start and end times of the row and the user's own row are not modelled.
- Manager: the I/O thread with `enqueue_turn` and `cancel_active`, the health gate and the short-utterance filter, where one branch settles each question; prompt building and the HTTP stream are inputs.
- Reassembler.EnvelopeReassembler.FeedEnvelope: the parsed JSON envelope is the input.
- SseParser.PrintParse: carriage returns, and the joining of several data lines, are ignored by the program and by the model.
- Foreign libraries, configuration, storage, recovery, the supervisor, metrics and the command line.
