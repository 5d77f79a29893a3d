# A verified model of a streaming voice assistant

The repository is a voice assistant made of four services.  A Go gateway keeps
one WebSocket session per client and drives three Python services over gRPC:
speech-to-text, a language model, and text-to-speech.  A client may start
speaking while an answer is still being spoken ("barge-in"), so most of the
difficulty is in what concurrent goroutines and threads may do to each other.
This project models that behaviour in Dafny and proves what it guarantees, and
in a few places exactly when it guarantees less than one would hope.

| file | what it models |
|---|---|
| `BargeIn.dfy` | one session as a labelled transition system: reader, TTS worker, transcript and chat forwarders, writer, each atomic operation, locked section, channel operation and network call a step of its own |
| `BargeInTurns.dfy` | turn tags and the session invariant |
| `BargeInVoices.dfy` | which TTS streams an interrupt can reach, and exactly when one escapes |
| `BargeInChats.dfy` | the same for LLM streams |
| `BargeInDrain.dfy` | the drain loop: termination, and exactly when it endangers the new turn |
| `BargeInMessages.dfy` | what a step may put on the send channel, and the channel's buffer |
| `BargeInOrigins.dfy` | where prompts, transcripts, snapshots and queued sentences come from |
| `BargeInOutput.dfy` | how much an abandoned turn may still put out, queue and synthesise |
| `BargeInHistory.dfy` | the conversation history, end to end from transcripts heard and model tokens |
| `BargeInAudio.dfy` | the order in which audio frames leave, end to end from the synthesised chunks |
| `BargeInAnnouncements.dfy` | a sentence's text and audio format against its audio |
| `BargeInProgress.dfy` | when the TTS worker can move |
| `BargeInRuns.dfy` | stretches of runs from which particular reachable states are built |
| `BargeInGaps.dfy` | when an LLM stream goes stale and when a captured turn is the forwarder's own; runs that show what the protocol does not prevent |
| `GatewaySession.dfy` | the session object with mutable fields, its procedures, and their runs in the transition system |
| `MicrophonePath.dfy`, `MicrophoneObjects.dfy` | microphone frames from the client to the transcription streams: transition system and objects |
| `WholeSession.dfy` | turn protocol and microphone path together, with one reader: what reader and TTS worker may wait for |
| `RecvPump.dfy` | the receive pump shared by the three stream clients |
| `Synthesis.dfy` | what the TTS service can send for a sentence and what the pump makes of it |
| `ChatReply.dfy` | StreamChat's event grammar and what a delivered DONE implies |
| `SentenceChunker.dfy` | `chunk_stream` |
| `SpeechWindows.dfy` | the windowing loop of `StreamTranscribe` |
| `PcmSamples.dfy`, `Resampling.dfy`, `ChunkConversion.dfy` | `stt/utils/audio.py` on real byte strings and exact rationals |
| `EngineCache.dfy`, `EngineManager.dfy`, `EngineThreads.dfy`, `LeastRecentlyUsed.dfy` | the reference-counted LRU cache: its value, the manager object, any number of threads between its locked sections, and textbook LRU |
| `ThreadBridge.dfy` | `iter_in_thread`: transition system and the shared object |
| `Common.dfy` | sequences, options and sums |

`dafny verify dfyconfig.toml` checks everything.

## How concurrency is modelled

A transition system has an `Enabled` predicate and an `Apply` function; `Legal`
and `Run` extend both to step sequences.  A statement about every legal sequence
holds under every schedule.  The state carries a program counter for every
goroutine or thread, because the protocol's checks and its effects are separate
steps and the invariants have to speak about what lies between them.  Network
calls, received events, cancellation and timeouts are steps the environment may
choose freely, except that the events of a stream are tied to a run of its
service (`ChatReply.Deliverable`, `Synthesis.Spoken`), which is what makes the
claims about history and audio end to end.

Where the program changes fields step by step there is also a class with those
fields.  Its methods are proved against the same state functions the transition
systems use, and `GatewaySession.InterruptRuns`, `GatewaySession.ChatRuns` and
`MicrophoneObjects.Microphone` tie whole procedures to step sequences.

In `BargeIn`, `ReaderApply` is internal/ws/session.go:295-356, `ForwarderApply`
358-402, `ChatApply` 404-438, `WorkerApply` 440-525, `WriterApply` 565-597 and `Post`
547-559.  In `EngineThreads`, `LookupHit`/`LookupMiss` are tts/engine_manager.py:103-106,
`InsertLoaded` 115-130, `TakeReference` 47-48, `DropReference` 53-60 and
`UnloadName` 150-155.

Capturing the turn.  A transcript forwarder reads its turn inside its own
goroutine (internal/ws/session.go:359), so a later "start" may come first.  `Env`
has a flag `promptCapture`: set, the read is part of the spawn; unset, it is a
step of its own and may come arbitrarily late.  Everything holds either way.
What an interrupt guarantees is stated with the exact step that would break it.
For TTS streams and for the drain, a calm run (`BargeInTurns.Calm`) -- no
forwarder reads its turn while the reader is between its counter increment and
the end of "start" -- never takes such a step.  Prompt capture makes every run
calm (`BargeInTurns.PromptIsCalm`), and a late read while the reader is at rest
does not make a run less calm.

## Where the code and its description disagree

- llm/README.md:39-41 says that decimal numbers are not mistaken for sentence
  endings.  `_is_mid_number` is only asked about a text that ends in the dot it
  would have to look past, so it never fires: `SentenceChunker.DecimalGuardNeverFires`
  proves this for every text, and `SentenceChunker.NumberCutExactly` says when a
  number is cut behind its point.  The model follows the code.
- tts/engine_manager.py:33-37 says eviction can never remove an engine in use.
  Between `_get_or_load` returning and the count being raised it can:
  `EngineThreads.GapYieldsTwoInstances` is such a run,
  `EngineThreads.GapExactly` says when the gap does harm, and
  `EngineThreads.HeldEngineStays` that nothing changes once the pin is there.
- internal/ws/session.go:98-101 presents the turn counter as what makes stale
  work stop.  An LLM stream can nevertheless become active after its turn is
  over, because lines 397-399 do not re-check: `BargeInGaps.StaleChatPublished` is
  such a run and `BargeInGaps.StaleLlmExactly` the exact condition.  Its chat
  forwarder then adds nothing (`BargeInHistory.AbandonedChatIsSilent`).
- internal/ws/session.go:467-471 says that the re-check under the lock closes the
  window in which an interrupt misses a TTS stream.  It does for the stream being
  published, not for an open one it is published over: `BargeInVoices.EscapesExactly`
  has the exact condition and `BargeInGaps.VoiceEscapesAfterLateCapture` a run.
- internal/ws/session.go:532-539 says that the end-of-utterance marker makes the
  service flush the utterance as a FINAL transcript.  If the next "start" opens its
  stream while the marker is still queued, the marker goes to that stream instead,
  half-closes it, and the new utterance's audio is refused:
  `MicrophonePath.MarkerEndsNextUtterance` is such a run,
  `MicrophonePath.OnCourseExactly` and `MisdeliveryExactly` the exact condition.

## Model

| member | source | states |
|---|---|---|
| `BargeInTurns.ReachableInv` | internal/ws/session.go:295-525 | every legal run keeps the turn invariant: ids in range, worker and reader program counters consistent, every piece of work tagged with a turn the counter has reached, and the active TTS stream current except between the counter's increment and the swap |
| `BargeInTurns.QuietExactly` | internal/ws/session.go:355-359 | while the reader interrupts for turn n all tagged work belongs to turns below n; a step ends this if and only if it is a forwarder reading its turn during the interrupt |
| `BargeInTurns.PromptIsCalm` | internal/ws/session.go:355-359 | if the read is part of the spawn, every run is of this kind |
| `BargeInTurns.StepKeepsTurns` | internal/ws/session.go:295-299 | one step of any goroutine keeps every tag on work at or below the counter, and every captured turn at or above the opening turn |
| `BargeInTurns.CounterMoves` | internal/ws/session.go:295-299 | only the reader's increment moves the counter, by one, and the reader's own turn is the counter until it is at rest again |
| `BargeInTurns.StaleActiveVoiceOnlyBeforeSwap` | internal/ws/session.go:304-310 | under every schedule an active TTS stream of an older turn means the reader is between its increment and its locked swap; no capture assumption |
| `BargeInTurns.ActiveVoiceIsInPlay` | internal/ws/session.go:484-524 | under every schedule an active TTS stream of the current turn is the one the worker is playing, unless it ended in an error event; a stream played to its end is never left active |
| `BargeInVoices.TrackedExactly` | internal/ws/session.go:472-479 | a step loses track of a TTS stream if and only if it is the worker publishing over another stream that is still open and not in the interrupting reader's hand |
| `BargeInVoices.EscapesExactly` | internal/ws/session.go:304-339 | under every schedule, once an interrupt has closed what it swapped out: every TTS stream of an older turn is closed, ended, or unpublished in the worker's hands, if and only if the worker never published over another open stream |
| `BargeInVoices.LostForGood` | internal/ws/session.go:304-339 | a stream published over stays open and out of everybody's reach for the rest of any run |
| `BargeInVoices.NoVoiceEscapes` | internal/ws/session.go:459-525 | in particular nothing escapes in a calm run, which never publishes over an open stream |
| `BargeInVoices.UnpublishedCloses` | internal/ws/session.go:472-477 | an unpublished stream of an older turn never becomes active: the worker's own next two steps, or one, leave it closed and nothing else changed |
| `BargeInDrain.DrainWorkExactly` | internal/ws/session.go:323-333 | queue length plus sentences in the hands of chats past their check grows if and only if a chat of the current turn passes its check with a sentence, then by one, and drops by one with each drained job |
| `BargeInDrain.DrainsAreBounded` | internal/ws/session.go:323-333 | over any stretch of any run the reader drains at most that much as of the start, plus what the current turn has taken up since |
| `BargeInDrain.DrainsAreRecorded` | internal/ws/session.go:323-333 | every drained job is on record, so the bound is one on the jobs thrown away |
| `BargeInDrain.DrainTerminates` | internal/ws/session.go:323-333 | in a calm run the current turn takes up nothing during its own interrupt, so the first part alone bounds the drain loop |
| `BargeInDrain.QueueStaleExactly` | internal/ws/session.go:416-423 | before the drain is done all queued jobs are older than the counter; a step ends this if and only if a chat of the current turn queues a sentence |
| `BargeInDrain.DrainSparesNewTurn` | internal/ws/session.go:301-333 | in every run without such a step each job a drain throws away belongs to a turn before the one that drains |
| `BargeInDrain.CalmNeverQueuesIntoDrain` | internal/ws/session.go:355-359 | calm runs have no such step |
| `BargeInDrain.DangerExactly` | internal/ws/session.go:323-333 | a step puts a sentence of the new turn at the mercy of its own interrupt -- the reader alone can then throw it away -- if and only if it is such a step |
| `BargeInChats.ChatsTrackedExactly` | internal/ws/session.go:397-432 | a step loses track of an open LLM stream if and only if it replaces the active one by another, or clears it at the DONE of another chat |
| `BargeInChats.NoChatEscapes` | internal/ws/session.go:304-317 | in every run without such a step, once the reader has closed what it swapped out, every LLM stream is closed, over, unpublished, or the active one |
| `BargeInChats.AlwaysTrackedExactly` | internal/ws/session.go:378-438 | over whole runs: every LLM stream is within reach at every moment if and only if neither kind of step ever happens, and if one does some stream is still out of reach at the end |
| `BargeInChats.LostChatIsNeverClosed` | internal/ws/session.go:304-317 | a lost LLM stream is out of reach for good: no later interrupt closes it |
| `BargeInOutput.StaleOutputBound` | internal/ws/session.go:440-525 | from any reachable state whose counter has reached n, in every continuation, all turns below n together put out at most one more llm_chunk, one more audio_format and one more binary frame |
| `BargeInOutput.StaleTranscriptBound` | internal/ws/session.go:358-376 | and each transcript forwarder at most one more transcript of such a turn |
| `BargeInOutput.StaleChatBound` | internal/ws/session.go:378-402 | and it opens at most one more LLM stream for such turns, and none unless it was already past its second check |
| `BargeInOutput.StaleWorkBound` | internal/ws/session.go:404-457 | only sentences already past their chat's check are still queued for turns below n, and at most the one synthesis the worker is committed to still starts; a stale job left in the queue is never synthesised |
| `BargeInOutput.StepKeepsBudget` | internal/ws/session.go:459-518 | the step behind these bounds: what has been put out plus what the worker past its check still owes never grows |
| `BargeInMessages.StepKeepsBuffered` | internal/ws/session.go:547-559 | no step overfills the send buffer, and one gives a message up only when the buffer is full or the session over |
| `BargeInOrigins.ForwardsWhatItHears` | internal/ws/session.go:358-402 | over every run, for each transcript forwarder: the transcripts it tells the client and the FINAL ones it opens LLM chats for are each a subsequence of what it heard, in order and none twice, kind and text unchanged |
| `BargeInOrigins.PromptWasHeard` | internal/ws/session.go:367-402 | over every run each LLM chat goes back to its own forwarder hearing a FINAL transcript with exactly its prompt; a PARTIAL never opens one |
| `BargeInOrigins.SnapshotIsComplete` | internal/ws/session.go:386-390 | a chat is opened with everything the history held at any moment before its forwarder took the snapshot; with `HistoryIntegrity` the snapshot is the history of that very moment |
| `BargeInOrigins.EverythingIsSourced` | internal/ws/session.go:358-423 | over every run each chat and each transcript sent carries the turn its forwarder captured, and each sentence queued for synthesis is a CHUNK that a chat of its turn received |
| `BargeInHistory.HistoryIntegrity` | internal/ws/session.go:358-438 | under every schedule the history is user/assistant pairs, one per distinct chat, each genuine (below); every user entry is the text of a FINAL transcript that was heard; and every snapshot sent to the model is an even-length prefix of the history from then on |
| `BargeInHistory.PairIsGenuine` | internal/ws/session.go:404-432 | field by field: a pair is a user entry with its chat's prompt and an assistant entry with the in-order text of all CHUNKs before its DONE, queued or dropped; that text spells the model's whole token stream up to whitespace, and the generation finished normally |
| `BargeInHistory.ReachableHistory` | internal/ws/session.go:378-438 | the invariant behind it holds in every legal run: text so far is that of the events dealt with, recorded chats are past their DONE, history is the pairs of the recorded chats |
| `BargeInHistory.AbandonedChatIsSilent` | internal/ws/session.go:407-413 | a chat of an older turn that is not already past its check never enters the history and its text never grows again |
| `BargeInHistory.StepKeepsSpawnedOnce` | internal/ws/session.go:397-402 | a chat's event loop is started once, by the forwarder that opened it |
| `BargeInAudio.AudioOrder` | internal/ws/session.go:440-525 | over a whole run the frames of one sentence are consecutive and are a first part of the chunks synthesised for it, from the first one on, none skipped or repeated; sentences follow the order in which they were queued, and turns never decrease |
| `BargeInAudio.ReachableAudio` | internal/ws/session.go:440-518 | the invariant behind it: the queue is the tail of all jobs queued, voices are opened in job order and turn order, and the worker stands right behind the last frame sent |
| `Synthesis.AudioIsPrefix` | internal/tts/client.go:118-171 | whatever the pump's schedule, the audio events of a stream are a first part of the synthesised chunks, with nothing but audio in front of them |
| `BargeInAnnouncements.AudioIsAnnounced` | internal/ws/session.go:501-518 | under every schedule a sentence's llm_chunk and audio_format are put out at most once each; and unless that very message was dropped, every audio frame of the sentence stands behind it, and the format behind the text |
| `WholeSession.Halves` | internal/ws/session.go:138-142 | a run of the whole session is a run of the turn protocol and of the microphone path, so what is proved of either under every schedule holds of it |
| `WholeSession.ReaderWaitsOnly` | internal/ws/session.go:527-545 | in every reachable state the reader has left, can move, or waits in endUtterance for room in the audio queue; then at most five steps of the send worker let it go on, provided the send under way returns |
| `WholeSession.Ends` | internal/ws/session.go:138-142 | from every such state reader and send worker together can bring the session to its end, whatever the others do not do |
| `WholeSession.WorkerWaitsOnly` | internal/ws/session.go:440-518 | in every reachable state the text-to-speech worker has stopped, can move, waits for a job, or waits for room in the send buffer; then the writer can make room unless a failed write has made it leave, and in any case reader and send worker can end the session and so release the worker |
| `BargeInGaps.StaleChatPublished` | internal/ws/session.go:390-399 | a run in which turn 1's LLM stream is published, and so active and open, in turn 2 with the reader at rest |
| `BargeInGaps.ChatLostByOverwriting` | internal/ws/session.go:397-399 | a run in which turn 2's LLM stream is then published over it, so that it is lost |
| `BargeInGaps.ChatLostByDone` | internal/ws/session.go:425-432 | a run in which, with the turn captured promptly and nothing published late, turn 1's DONE clears turn 2's active LLM stream, which is lost |
| `BargeInGaps.VoiceEscapesAfterLateCapture` | internal/ws/session.go:472-479 | a run in which the worker does publish over an open stream, which an interrupt then misses |
| `BargeInGaps.DrainsOwnTurnAfterLateCapture` | internal/ws/session.go:323-333 | a run in which an interrupt does drain a sentence of its own turn |
| `BargeInGaps.StaleLlmExactly` | internal/ws/session.go:378-402 | from a state whose active LLM stream is current, a step makes it stale if and only if a forwarder past its check publishes a chat after the turn has moved on |
| `BargeInGaps.LlmStaysCurrent` | internal/ws/session.go:378-402 | so in a run without that step the active LLM stream is always current, up to the window before the swap |
| `BargeInGaps.LateCapture` | internal/ws/session.go:355-359 | without prompt capture, a run in which the first utterance's transcript is sent as the second's |
| `BargeInGaps.CaptureIsExactWhenPrompt` | internal/ws/session.go:355-359 | over every run between spawn and capture the captured turn is at least the opening turn, and equal to it if and only if no increment happened in between |
| `GatewaySession.SessionObject.InterruptCurrentTurn` | internal/ws/session.go:304-339 | run undisturbed: nothing is active or queued afterwards, what was active is closed, and one interrupted message is offered exactly if there was anything to interrupt |
| `GatewaySession.SessionObject.BeginNewTurn` | internal/ws/session.go:295-297 | run undisturbed: increment and interrupt as one state function, what was active is closed, and the interrupted message is offered with the new turn exactly if there was anything to interrupt (startStream is `MicrophoneObjects.Microphone.StartStream`) |
| `GatewaySession.SessionObject.SwapActive` | internal/ws/session.go:305-310 | hands over and clears both active streams |
| `GatewaySession.SessionObject.PublishVoice` | internal/ws/session.go:472-479 | publishes the stream if and only if its turn is current, otherwise closes it |
| `GatewaySession.SessionObject.ClearVoice` | internal/ws/session.go:520-524 | clears the active stream only if it is still this one |
| `GatewaySession.SessionObject.DrainQueue` | internal/ws/session.go:323-333 | empties the queue and says whether it held anything |
| `GatewaySession.SessionObject.ForwardLlmEvents` | internal/ws/session.go:404-438 | the loop over a chat's events has exactly the effect of `Forwarded` on the shared fields and of the error frames on the send buffer, and none in another turn |
| `GatewaySession.WholeReply` | internal/ws/session.go:415-432 | chunks then DONE: the history gains one pair with the text of every chunk while the queue takes just the leading sentences that fit |
| `GatewaySession.UnfinishedReply` | internal/ws/session.go:404-438 | events without DONE leave history, turn and active streams alone and only append to the queue |
| `GatewaySession.InterruptRuns` | internal/ws/session.go:295-339 | the undisturbed interrupt is a run of reader steps of the transition system with the same effect and the same condition for telling the client |
| `GatewaySession.ChatRuns` | internal/ws/session.go:404-438 | the undisturbed chat forwarder is a run of chat steps with the same effect |
| `MicrophonePath.SendDiscipline` | internal/ws/session.go:185-236 | under every schedule: frames accepted on all transcription streams, in time order, are a subsequence of what the client sent; a stream accepts at most one end-of-utterance marker and nothing after it; every marker asked for is waiting, queued or taken, none given up; no frame goes to a stream older than its own |
| `MicrophonePath.FramesAccounted` | internal/ws/session.go:185-236 | over every run each frame offered is accepted, under way, or lost in one of five ways: full queue, no current stream, closed stream, failed send, session over |
| `MicrophonePath.ReachableInv` | internal/stt/client.go:118-129 | the invariant behind it, with the closed test and the network send as separate steps |
| `MicrophonePath.OnCourseExactly` | internal/ws/session.go:206-211 | frames carry no turn: all frames under way go to the stream they were issued for, and a step ends this if and only if it opens a new stream while a frame is queued or has just been taken off the queue |
| `MicrophonePath.StaysOnCourse` | internal/ws/session.go:341-353 | in every run without such a step each frame, audio or marker, is accepted by its own stream only |
| `MicrophonePath.MisdeliveryExactly` | internal/ws/session.go:201-227 | after a step the send worker by itself can get a frame accepted by a stream it was not issued for if and only if the step was of that kind |
| `MicrophonePath.HalfClosedByOwnMarker` | internal/ws/session.go:229-233 | without such a step a stream is half-closed behind its own utterance's marker and by no other |
| `MicrophonePath.QueuedFrameReachesNextStream` | internal/ws/session.go:206-211 | a run in which queued audio goes to the next utterance's stream |
| `MicrophonePath.MarkerEndsNextUtterance` | internal/ws/session.go:206-233 | a run in which a queued marker goes to the next utterance's stream, half-closes it and leaves it current |
| `MicrophonePath.ClosedStreamRefuses` | internal/stt/client.go:118-121 | and all audio the send worker then looks that stream up for is dropped |
| `MicrophonePath.StepKeepsMarkers` | internal/ws/session.go:527-545 | a full queue may drop audio but no step loses a marker |
| `MicrophonePath.StepKeepsDiscipline` | internal/stt/client.go:212-223 | once a stream has accepted a marker it is closed or about to be, so nothing later passes its closed test |
| `MicrophoneObjects.Microphone.HandleAudioChunk` | internal/ws/session.go:185-197 | never blocks: refused without a stream, dropped on a full queue, queued otherwise; keeps the object in a state the path can reach |
| `MicrophoneObjects.Microphone.EndUtterance` | internal/ws/session.go:527-545 | the marker goes behind everything queued; with a full queue the reader waits for at least one turn of the send worker, and however many turns that worker gets it takes as many frames off the front |
| `MicrophoneObjects.Microphone.StartStream` | internal/ws/session.go:341-353 | the old stream is closed first; a failed call leaves no stream; the audio queue is untouched |
| `MicrophoneObjects.Microphone.SendNext` | internal/ws/session.go:206-233 | the head frame goes to the current stream unless there is none, it is closed or the send fails, and a marker that got through half-closes it |
| `MicrophoneObjects.SttStream.SendAudio` | internal/stt/client.go:118-129 | a closed stream takes nothing; an open one takes the frame exactly if the transport does |
| `MicrophoneObjects.MarkerEndsTaken` | internal/ws/session.go:229-233 | in what any one stream took, only the last frame can be a marker |
| `MicrophoneObjects.MapTranscript` | internal/stt/client.go:193-202 | PARTIAL, FINAL and ERROR map one to one, anything unknown to PARTIAL, with the whole text of all segments |
| `MicrophoneObjects.JoinSegments` | internal/stt/client.go:204-210 | the loop builds the concatenation of the segment texts |
| `RecvPump.Pump` | internal/llm/client.go:127-173 | the pump loop delivers exactly `Pumped` and closes the channel exactly when something ended it |
| `RecvPump.PumpIsFaithful` | internal/tts/client.go:118-171 | whatever the schedule, the events are the server's messages in order, converted one for one, cut at some point, with at most one synthetic error behind them |
| `RecvPump.PumpExactly` | internal/llm/client.go:127-182 | poll by poll: every event taken before the first poll that ends the pump, converted, then the error for a connection lost on a stream the caller had not closed, or the timeout, exactly when the buffer has room for it |
| `RecvPump.ClosedByCallerIsSilent` | internal/stt/client.go:136-182 | a receive error after the caller closed the stream produces no synthetic error |
| `ChatReply.StreamChat` | llm/grpc_servicer.py:20-68 | refusals carry no events; otherwise the events are `Served` and the personality heads the history |
| `ChatReply.ReplyGrammar` | llm/grpc_servicer.py:40-68 | the events are CHUNKs for the chunks before the first cancellation, then exactly one DONE or ERROR if there was none and nothing if there was |
| `ChatReply.DoneMeansWhole` | internal/llm/client.go:127-193 | a DONE that reaches the session is unique and stands behind the whole reply of a generation that finished: in front of it are only CHUNKs, and their texts are the sentence chunks of all its tokens, which they spell up to whitespace |
| `ChatReply.NoDoneWithoutFinish` | llm/grpc_servicer.py:51-68 | a generation that failed never delivers DONE |
| `ChatReply.UncutReply` | llm/grpc_servicer.py:40-68 | uncancelled and fully received, a reply is all its chunks in order and one event that says how the generation ended: DONE, the failure with its own code and text, or internal_error |
| `ChatReply.FailureKeepsChunks` | llm/grpc_servicer.py:40-60 | a generation that fails has sent all but at most the last of the chunks a whole one would have had, and they are the first chunks of every continuation |
| `SentenceChunker.ChunkStream` | llm/utils/chunker.py:35-67 | the loop computes `Chunks` |
| `SentenceChunker.EarliestFlush` | llm/utils/chunker.py:35-67 | the chunks are the greedy segmentation: cut at the first token at which the flush test holds, start afresh, keep the visible remainder |
| `SentenceChunker.YieldedIsStable` | llm/utils/chunker.py:60-62 | what has been yielded for some tokens is a prefix of what is yielded for any continuation |
| `SentenceChunker.ContentPreserved` | llm/utils/chunker.py:41-67 | with whitespace erased, chunks and tokens spell the same text |
| `SentenceChunker.ChunksVerbatim` | llm/utils/chunker.py:41-67 | the token text is the chunks in order, each exactly as it stands, with nothing but whitespace before, between and behind them |
| `SentenceChunker.StripCut` | llm/utils/chunker.py:44 | stripping cuts whitespace off both ends and leaves what is between unchanged |
| `SentenceChunker.FlushesExactly` | llm/utils/chunker.py:44-60 | a text is handed on if and only if its stripped form is nonempty and ends in a boundary character, is not an abbreviation and has the minimum length, or has the maximum length |
| `SentenceChunker.AbbreviationExactly` | llm/utils/chunker.py:17-22 | a stripped text counts as ending in an abbreviation if and only if what follows its last space spells one of the nine, in either case |
| `SentenceChunker.MidNumberExactly` | llm/utils/chunker.py:25-32 | the decimal guard looks for a digit on either side of the last dot |
| `SentenceChunker.ChunkShape` | llm/utils/chunker.py:44-67 | every chunk is nonempty and stripped; every chunk but the last ends in a boundary character, not in an abbreviation, at the minimum length, or has the maximum length |
| `SentenceChunker.FirstFlush` | llm/utils/chunker.py:44-62 | the first token count whose text passes the flush test, and none before it does |
| `SentenceChunker.NumberCutExactly` | llm/utils/chunker.py:44-62 | a text breaking off behind a digit and a dot is cut there if and only if dots are boundaries and it has the minimum length, or it has the maximum length; what the next token brings plays no part |
| `SentenceChunker.DecimalIsSplit` | llm/utils/chunker.py:48-62 | at the default settings a sentence with a number arriving as "3." and "14" is cut inside the number |
| `SentenceChunker.ShortNumberStays` | llm/utils/chunker.py:57-62 | a lone "3." followed by "14" is not cut, being shorter than the minimum |
| `SentenceChunker.DecimalGuardNeverFires` | llm/utils/chunker.py:25-32 | asked about a stripped text and its own last character, the decimal guard is always false |
| `SpeechWindows.StreamTranscribe` | stt/grpc_servicer.py:25-67 | the loop sends the events of `HandleFrom`, or one error event if the engine cannot be had |
| `SpeechWindows.WindowsPartitionTheAudio` | stt/grpc_servicer.py:28-54 | windows followed by the leftover buffer are the chunks consumed; each PARTIAL window is at least 5 s long and under 5 s without its last chunk; at most one FINAL, always last; an open stream has consumed everything and holds no complete window |
| `SpeechWindows.FinalAtFirstEndOfUtterance` | stt/grpc_servicer.py:38-54 | without errors and cancellation before it, the first end-of-utterance ends the stream: the windows are exactly the chunks up to it and the last event is FINAL |
| `SpeechWindows.EventsTranscribeWindows` | stt/grpc_servicer.py:41-50 | each PARTIAL and FINAL is the engine's transcript of its own window, converted to the required format |
| `SpeechWindows.FiveSeconds` | stt/utils/audio.py:9-16 | a buffer of whole frames is long enough exactly when it holds five times the sample rate in frames; the duration is undefined exactly when a number of the format is zero |
| `SpeechWindows.RefusedExactly` | stt/grpc_servicer.py:35-67 | a message is answered with invalid_audio_format if and only if its window is due and cannot be converted for its width or channels or is refused by the engine, and with internal_error if and only if anything else goes wrong |
| `PcmSamples.ToInt16Range` | stt/utils/audio.py:64-73 | decoded samples are int16, one per `width` bytes; the 32-bit shift cannot overflow the cast |
| `PcmSamples.ToInt16Accepts` | stt/utils/audio.py:64-73 | decoding succeeds if and only if the width is 1, 2 or 4 and the bytes are whole samples |
| `PcmSamples.SampleBytes` | stt/utils/audio.py:64-73 | what the bytes of each sample say: signed little-endian words, of 32 bits the upper half; 8-bit samples unsigned around 128 |
| `PcmSamples.EightBitRoundTrip` | stt/utils/audio.py:67-81 | 8-bit to int16 to 8-bit is the identity on every byte string |
| `PcmSamples.SixteenBitRoundTrip` | stt/utils/audio.py:65-78 | int16 bytes decode and encode to themselves, both ways round |
| `PcmSamples.ThirtyTwoBitRoundTrip` | stt/utils/audio.py:71-83 | int16 to 32-bit to int16 is the identity |
| `PcmSamples.ThirtyTwoBitNarrowing` | stt/utils/audio.py:71-72 | 32-bit to int16 drops the low half of each sample, downward |
| `PcmSamples.NarrowingLoss` | stt/utils/audio.py:79-81 | int16 to 8-bit to int16 loses less than 256, always downward, and the clip changes nothing |
| `Resampling.RoundIsNearest` | stt/utils/audio.py:95 | the rounding is to the nearest integer with ties to even |
| `Resampling.PositionOf` | stt/utils/audio.py:93-96 | the exact position of an output sample among the inputs |
| `Resampling.ResampledBetweenNeighbours` | stt/utils/audio.py:87-98 | every output lies between the two inputs around its position |
| `Resampling.ResampledWithin` | stt/utils/audio.py:87-98 | so any bounds on the input bound the output |
| `Resampling.ResampleSafe` | stt/utils/audio.py:87-98 | int16 stays int16 and a constant signal stays that constant |
| `Resampling.ResamplePreservesOrder` | stt/utils/audio.py:92-98 | a nondecreasing signal stays nondecreasing, through the clamped tail and the truncation |
| `Resampling.ResampleIsLinear` | stt/utils/audio.py:93-98 | each output is the linear interpolation of its two neighbouring inputs at its exact position, without the fraction; past the last input it is the last input |
| `Resampling.ExactAtInput` | stt/utils/audio.py:94-97 | an output that falls on an input reproduces it |
| `Resampling.UpThenDown` | stt/utils/audio.py:87-98 | up by a whole factor and down again is the identity |
| `Resampling.OneChunkDrift` | stt/utils/audio.py:93-95 | one chunk's length is within half a sample of ideal when the ideal is at least half a sample, within one otherwise |
| `Resampling.DriftBound` | stt/utils/audio.py:28-32 | over m chunks the total is within m/2 samples of ideal when each nonempty chunk's ideal is at least 1/2, and within m in general |
| `ChunkConversion.MeanBetween` | stt/utils/audio.py:51 | a downmixed sample lies between the least and the greatest channel |
| `ChunkConversion.MeanIsTruncated` | stt/utils/audio.py:51 | the mean is truncated toward zero |
| `ChunkConversion.MeanMeaning` | stt/utils/audio.py:51 | the mean is that of all channels: the same for every order of the channels, and for two of them half their sum, truncated |
| `ChunkConversion.SumOfParts` | stt/utils/audio.py:51 | the sum behind the mean: of one sample itself, and additive over concatenation |
| `ChunkConversion.DownmixFrame` | stt/utils/audio.py:51 | output frame k is the mean of exactly the k-th group of samples |
| `ChunkConversion.StagesKeepInt16` | stt/utils/audio.py:43-54 | every stage of a conversion leaves int16 samples, so the final encoding is defined |
| `ChunkConversion.ConvertChunkMeaning` | stt/utils/audio.py:35-61 | conversion succeeds if and only if size and formats allow it (stated on them alone); the result has the target format and exactly the resampled number of frames; a chunk already in the target format is returned as it is |
| `ChunkConversion.ConvertedSamples` | stt/utils/audio.py:43-61 | decoding a converted chunk gives, exactly for 16 and 32 bits and less than one 8-bit step below for 8 bits, the resampling of `mixed`: the chunk's own samples, or if the channel counts differ the mean of each group of channel samples, one per frame |
| `ChunkConversion.ConvertedWithin` | stt/utils/audio.py:35-61 | so a conversion never leaves the range of the samples it is given, except downward by less than one 8-bit step for an 8-bit target |
| `ChunkConversion.ConvertChunksExactly` | stt/utils/audio.py:19-32 | a stream of chunks in any mix of formats converts if and only if every chunk can be, and then chunk by chunk |
| `ChunkConversion.RecordingConversion` | stt/utils/audio.py:19-61 | a recording in one format whose chunks can be converted converts without error, and its total length is within one sample per chunk of ideal, within half of one if no nonempty chunk ideally shrinks below that |
| `ChunkConversion.NoTargetNoChange` | stt/engine_manager.py:33-39 | a provider without a required format gets the chunks unchanged |
| `EngineCache.SweepExact` | tts/engine_manager.py:132-148 | a sweep removes precisely the oldest min(excess, evictable) unprotected entries, spares all protected ones and keeps the survivors' order |
| `EngineCache.SweptExactly` | tts/engine_manager.py:132-148 | a name survives a sweep if and only if it was loaded and is not among the oldest evictable entries that go |
| `EngineCache.SweepFromMeaning` | tts/engine_manager.py:141-148 | the loop over a key snapshot, which re-tests the size each time, comes to the same |
| `EngineCache.SweepFitsOrAllKept` | tts/engine_manager.py:132-148 | after a sweep the cache fits or only kept entries are left |
| `EngineCache.InsertConsistent` | tts/engine_manager.py:115-130 | after an insertion with its sweep the cache is consistent, the name is loaded, newest, and bound to the instance that landed first, so the final lookup succeeds and returns that one |
| `EngineCache.ReleaseConsistent` | tts/engine_manager.py:53-60 | a release with its sweep keeps the cache consistent |
| `EngineCache.UnloadConsistent` | tts/engine_manager.py:150-155 | unloading keeps the cache consistent |
| `EngineCache.PlainNamesExactly` | tts/engine_manager.py:99-100 | the names accepted are exactly those equal to the last component of their path |
| `EngineManagement.EngineManager.EvictIfOverCapacity` | stt/engine_manager.py:115-131 | the sweep method computes `Sweep` |
| `EngineManagement.EngineManager.DeleteOldest` | stt/engine_manager.py:124-131 | its deleting loop leaves what `DropOldest` says |
| `EngineManagement.EngineManager.Lookup` | stt/engine_manager.py:86-89 | a hit moves the entry to the newest end and returns it; a miss changes nothing |
| `EngineManagement.EngineManager.InsertLoaded` | stt/engine_manager.py:98-113 | returns the first-landed instance and leaves `Insert`'s state |
| `EngineManagement.EngineManager.GetOrLoad` | stt/engine_manager.py:80-113 | a whole undisturbed call, said of the name requested, or of the default when it is empty: a name that is not plain is refused, a loaded one is returned and made newest, a failed load changes nothing, and any engine returned is the cached one for that name |
| `EngineManagement.EngineManager.DropReference` | stt/engine_manager.py:65-72 | one reference less, the entry gone at zero, then a sweep |
| `EngineManagement.EngineManager.UnloadNamed` | tts/engine_manager.py:150-155 | removes the engine unless somebody holds it |
| `EngineThreads.ReachableInv` | tts/engine_manager.py:31-155 | the invariant over any number of threads, every interleaving of locked sections, any capacity setting |
| `EngineThreads.ReferencesConserved` | tts/engine_manager.py:47-60 | each stored count is the number of threads inside their with-block for that name, no entry at zero, and a release always finds its key |
| `EngineThreads.CapacityBound` | tts/engine_manager.py:132-148 | at every lock release an over-full cache has at most one unreferenced engine, so its size is at most max(capacity, referenced names + 1) |
| `EngineThreads.ReferencedSurvivesStep` | tts/engine_manager.py:144-154 | no step removes or replaces a loaded engine that stays referenced |
| `EngineThreads.ReferencedStays` | tts/engine_manager.py:47-60 | over runs: as long as a name's count does not return to zero, whoever holds it and however the with-blocks overlap, it keeps its instance |
| `EngineThreads.EvictsExactly` | tts/engine_manager.py:132-155 | a step takes a loaded name out of the cache if and only if it unloads it unreferenced, or sweeps with it among the oldest entries it may evict; otherwise the instance stays |
| `EngineThreads.GapExactly` | tts/engine_manager.py:75-78 | an engine that was cached when handed out is still the cached one, after any run, if and only if no such step happened |
| `EngineThreads.GoneStaysGone` | tts/engine_manager.py:121-123 | an instance that has left the cache never returns |
| `EngineThreads.HandsCached` | tts/engine_manager.py:103-130 | what a thread is handed is the instance the cache holds for the name it asked for, also when another thread's load landed first |
| `EngineThreads.KeepsItsName` | tts/engine_manager.py:31-60 | from request to release a thread keeps the name it asked for and the instance it was handed |
| `EngineThreads.HeldEngineStays` | tts/engine_manager.py:50-60 | during a with-block the name keeps the instance the cache had, and the thread's own instance is the cached one at the end exactly if it was at the start |
| `EngineThreads.GapYieldsTwoInstances` | tts/engine_manager.py:75-78 | a run in which an engine is evicted between lookup and pin, so that two threads use different instances of one name |
| `LeastRecentlyUsed.LruRefinement` | stt/engine_manager.py:82-131 | with nobody holding references, for every request sequence and capacity, the loaded names in order are exactly the max(capacity, 1) most recently used ones |
| `LeastRecentlyUsed.ByLastUseMeaning` | stt/engine_manager.py:86-89 | the reference order lists every requested name once, by last use |
| `LeastRecentlyUsed.LargerCacheIncludesSmaller` | stt/engine_manager.py:115-131 | a larger capacity holds everything a smaller one holds, as its newest part, and never loads more often |
| `LeastRecentlyUsed.LoadBounds` | stt/engine_manager.py:82-113 | every name requested is loaded at least once, no request loads twice, and with room for all names none is loaded again |
| `ThreadBridge.BridgeDelivers` | tts/utils/async_io.py:14-55 | under every schedule yielded items, queue and item in hand are the prefix the generator produced, at most 8 queued; a normal end has yielded everything and an exception is raised only behind every earlier item |
| `ThreadBridge.WorkIsBounded` | tts/utils/async_io.py:21-55 | the steps of a run other than waiting and asking the generator are at most a starting amount plus four per request to the generator |
| `ThreadBridge.NeverStuck` | tts/utils/async_io.py:14-55 | from every reachable unfinished state two steps suffice for progress |
| `ThreadBridge.StopsPromptly` | tts/utils/async_io.py:21-38 | once stopped is set the producer does at most one more put and one more pull and runs out of steps |
| `ThreadBridge.SharedBridge.PutOrTimeOut` | tts/utils/async_io.py:21-27 | a put that fits is queued, one that does not is a timeout, both as the transition system has it |
| `ThreadBridge.SharedBridge.GetNowait` | tts/utils/async_io.py:43-53 | takes the head or nothing, and leaves by item, failure or sentinel |
| `ThreadBridge.SharedBridge.TakeFromGenerator` | tts/utils/async_io.py:31-34 | one item pulled from the generator |
| `ThreadBridge.SharedBridge.GeneratorOver` | tts/utils/async_io.py:35-38 | normal end or exception |

## Left out

- Plumbing: gRPC, WebSocket and HTTP servers, proxies, configuration, health checks, ping and deadline timers, HTML clients; they hold no state the properties speak about.
- Inside the engines: Whisper, Piper and Ollama are opaque; an engine is its name and a serial number, a transcription or a generation is a parameter.
- `strip_markdown`: it needs regular-expression semantics.  The text-to-speech servicer appears only through what it can send, a first part of the synthesised chunks (`Synthesis.Spoken`).
- Floating point: resampling, durations and means are exact rationals; float32 rounding in `np.interp` and float64 rounding in `linspace`, `round(duration * to_rate)` and `calculate_duration` are not modelled.
- Sample rates are natural numbers: a negative rate, which a protobuf field could carry, is not modelled in `_resample`.
- Bytes are read little-endian, as numpy does on the platforms the services run on.
- `str.isdigit` is a parameter, and lower-casing covers ASCII letters only, which is all the abbreviation list is made of.
- File names: `EngineCache.PathName` is `Path(name).name` on POSIX paths only.
- Cancellation of a Python coroutine in the middle of an `await`, except where it ends the bridge's consumer.
- Message payloads not named in a property: error texts, audio format numbers in audio_format, the voice a client selects.
- The order of pairs in the history relative to turn numbers: the append is not atomic with the turn check (internal/ws/session.go:408-432), so no such claim is made.
- BargeInDrain.DrainTerminates: stated for calm runs; in others chats of the current turn can keep adding sentences, and `BargeInDrain.DrainsAreBounded` says how many drains that allows.
- GatewaySession.SessionObject.SendJson: for a session that is not over; once it is, a message may also be dropped with room left (`BargeIn.CanPost` has both).
- GatewaySession.SessionObject.ForwardLlmEvents: runs without interference; what other goroutines can do in between is in `BargeIn`, to which `GatewaySession.ChatRuns` ties it.
- EngineManagement.EngineManager.GetOrLoad: runs without interference between its two locked sections; `EngineThreads` interleaves them.
- A send or an opening call that never returns: network calls are steps that may always return.
- Session shutdown is one step that ends the reader and sets the session over; the closing handshake is not modelled.
