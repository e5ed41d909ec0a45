# Verified model of the voice runtime

The runtime connects telephone calls to speech services. This project models the parts of it
where timing and interleaving matter, in Dafny 4.11, and proves what they keep in every run.
`dafny verify dfyconfig.toml` checks everything.

What is modelled, by file:

| files | source | subject |
|---|---|---|
| `Session.dfy`, `SessionOutcomes.dfy`, `SessionCalls.dfy`, `SessionLife.dfy`, `SessionObject.dfy` | `voice_runtime/session.py` | the call session: the handshake between waiters and playback marks, how waits end, one call after the other |
| `TextChannel.dfy`, `TextNumbers.dfy`, `History.dfy`, `ByteClock*.dfy`, `WriterObject.dfy` | `voice_runtime/transports/_audiohook_writer.py` | the AudioHook send loop: numbered texts, 1600-byte packets 200 ms apart, marks emulated by a byte clock, barge-in |
| `Connection.dfy`, `ConnectionAnswers.dfy`, `ConnectionObject.dfy` | `voice_runtime/transports/audiohook_server.py` | the receiving side: sequence check, authentication, opening, binding, re-chunking, teardown |
| `Ulaw.dfy`, `Mixer.dfy` | `voice_runtime/audio.py` | the mu-law codec (ITU-T Recommendation G.711, section 3) and the two-channel mixer |
| `SttSession.dfy`, `SttSwap.dfy`, `SttStop.dfy`, `SttClose.dfy`, `SttQueue.dfy`, `SttRetry.dfy`, `SttObject.dfy`, `Feeder.dfy` | `voice_runtime/providers/elevenlabs_stt.py` | ownership of the audio feeder under start, reconnects and stop; which queue the feeder reads; when reconnecting gives up; the feeder's loop |
| `AzureRetry.dfy` | `voice_runtime/providers/azure_stt.py` | the bounded retry with backoff |
| `Fanout.dfy` | `voice_runtime/stt_tee.py` | the fan-out of one stream to two providers |
| `Pages.dfy` | `voice_runtime/transports/twilio_call.py` | complete-or-raise pagination and ending a call in the region that has it |

`Base.dfy` and `Positions.dfy` hold what all of them use: options, bytes, and picking items of a
list by their positions.

Two forms stand side by side. A state machine on values (`Next` over acts) describes every
interleaving, and lemmas about its steps and runs state the guarantees. A class with the
source's fields then updates them in place; each method is proved to take exactly the acts of
the machine, so the guarantees hold of the object. A stretch of code between two awaits is one
act. What comes from outside (the socket, the clock, random suffixes and jitter, the other
tasks) is a parameter or an oracle without restriction beyond what is written down: clock
readings do not decrease, and jitter lies in [0.75, 1.25). Times are integer milliseconds, delays
of the retry are reals, bytes are integers below 256, and integers are unbounded as in Python.

## What the proofs found

The code is modelled as it is. Where it does less than it says, or than a caller might
expect, a lemma shows an input or a run, and another gives the exact condition.

- Mark keys. `send_mark_and_wait` says that regenerating its suffix makes keys unique for
  certain (session.py:199-204). The check looks only at the registered keys, and `reset` clears
  them (session.py:279) before the released waiters have run. A new waiter may then draw the key
  of an old one, whose `finally` (session.py:216) removes the new entry, and the next disconnect
  misses the new waiter (`Session.KeyReuseAfterReset`). A reset is safe, whatever key is drawn
  next, if and only if no mark is registered when it comes (`Session.ResetSafeIff`); every run
  whose resets come like that keeps the handshake (`Session.HandshakeWithQuietResets`).
- Stale marks. A waiter that times out unregisters its mark (session.py:216) but the writer goes
  on tracking it, and a barge-in drops only marks still registered
  (_audiohook_writer.py:186-190). Such a mark keeps a target beyond the emptied buffer and holds
  back later marks for good, until new audio, another barge-in or another thread helps
  (`ByteClockStale.StaleMarkHoldsBackLaterMarks`). A barge-in leaves only covered marks if and
  only if every waiting mark belonged to a registered waiter
  (`ByteClockProgress.BargeInKeepsCoverIff`).
- Reused names. A new waiter that draws the name of such a mark is released by it before its own
  audio was sent (`ByteClockReuse.ReusedNameReleasesEarly`). A wait that the byte clock ends has
  all its audio sent unless a mark of its name was tracked when it registered
  (`ByteClockPromise.NormalReturnMeansPlayed`), and that condition is exact: in every state in
  which the loop rests, a key that is not registered can be drawn without some audio and some
  continuation releasing the new waiter early if and only if no tracked mark has it for a name
  (`ByteClockDraw.DrawSafeIff`).
- Latency. A mark taken with nothing outstanding counts its latency from the reading made when
  the pass began (_audiohook_writer.py:120, 132). If that pass wrote a barge-in event first, the
  mark can be resolved in the very pass that takes it, with no latency waited out
  (`ByteClockLatency.LatencyCanBeSkipped`). It waits out its latency if and only if that is zero
  or no time passed while the events were written, so always in a pass without a barge-in
  (`ByteClockLatency.LatencyFromTakingIff`). Seen from the beginning of the pass, some
  continuation anchors a mark before it is taken if and only if a barge-in request is waiting
  (`ByteClockLatency.EarlyAnchorIff`).
- Nearest level. The encoder picks a nearest output level exactly for samples that are not just
  above a segment boundary (`Ulaw.NearestIff`); 124 is one that is (`Ulaw.NotNearestAt124`).
- Mixer shortcuts. They pass a negative zero byte 0x7F on, where mixing would make it 0xFF
  (`Mixer.ShortcutKeepsNegativeZeros`). The sound is the same (`Mixer.AudioMixer.Tick`), the bytes
  are if and only if no 0x7F occurs (`Mixer.MixWithSilence`).
- Stop. `stop` says that "stopped" means that everything the session spawned is done
  (elevenlabs_stt.py:157-162). When nobody starts the session again, every feeder is done and no
  handle is kept (`SttSession.StoppedMeansStopped`), but a coroutine told to cancel may still run
  and open a socket (`SttStop.StoppedIsNotDone`): all scheduled work has ended when the stop
  returns if and only if it had ended when the stop was called (`SttStop.StopFinishesWorkIff`).
  After a start, some earlier stop can return with a live feeder if and only if one had not
  returned when the start came (`SttStop.StartBreaksStopIff`). Such a start can also be left
  without a feeder (`SttStop.StartCanLeaveNoFeeder`); the feeder that a connect leaves is safe if
  and only if the one it found was not being cancelled (`SttSession.ConnectLeavesFeeder`).
- Queue of the feeder. A feeder that is live when `start` brings another queue is kept, and goes
  on reading the old one after the connect (elevenlabs_stt.py:80, 150-155;
  `SttQueue.FeederOnOldQueue`). A live feeder read the queue of the latest start all along if and
  only if no start brought another queue while a feeder was live (`SttQueue.UpToDateIff`); a
  connect that completes while not stopping leaves it right if and only if the feeder it found
  was done or right (`SttQueue.ConnectUpToDateIff`).
- Swap flag. Two overlapping reconnects share `_reconnecting`, so it can be down while a socket
  is being swapped (`SttSwap.FlagDownDuringSwap`). The flag is right throughout a run if and only
  if no connect ended while another was swapping (`SttSwap.FlagRightIff`). Which failures count
  is stated by the flag's value at the failed send (`Feeder.FeedAudio`).
- Fan-out. A task cancelled before its first step never sends the sentinel
  (`Fanout.CancelledBeforeFirstStep`). A finished fan-out has sent it if and only if it had begun
  (`Fanout.SentinelIffBegun`), that is if it was resumed before it was cancelled
  (`Fanout.BegunIff`).

## Model

| member | source | states |
|---|---|---|
| Session.HandshakeKept | voice_runtime/session.py:181-307 | from a state with distinct live keys and every unreleased waiter registered, each act of any thread leads to such a state again, a registration exactly if its key misses the released waiters that still have to run |
| Session.RegisterKeepsDistinctKeysIff | voice_runtime/session.py:199-208 | a registration that passed the uniqueness check keeps the handshake exactly when its key is not one of those orphaned keys |
| Session.ResetSafeIff | voice_runtime/session.py:269-279 | a reset is safe, whatever unused key the next registration draws, exactly if no mark is registered when it comes |
| Session.HandshakeWithQuietResets | voice_runtime/session.py:195-279 | in every run whose resets find no registered mark the uniqueness check alone keeps live keys distinct and every live waiter registered |
| Session.HandshakeBetweenResets | voice_runtime/session.py:195-225 | in particular in every run without a reset |
| Session.RunHandshake | voice_runtime/session.py:181-307 | the handshake held in every state of a run so far exactly if every registration avoided the keys orphaned at that moment |
| Session.KeyReuseAfterReset | voice_runtime/session.py:199-216 | a run in which a reset, a reused key and the old waiter's cleanup leave a live waiter that the next disconnect misses |
| Session.EchoSetsOneEvent | voice_runtime/session.py:218-225 | one echo changes at most the event stored under its key |
| Session.EndOfCallReleasesEveryone | voice_runtime/session.py:254-279 | the first disconnect and every reset release every live waiter |
| Session.WaiterStays | voice_runtime/session.py:206-216 | no act takes back a set event, changes a waiter's key or revives an ended wait |
| Session.EventSetOnlyByFreeing | voice_runtime/session.py:218-279 | an event is set in a step only by an echo of its own key, the first disconnect or a reset |
| Session.SetEventHasCause | voice_runtime/session.py:218-279 | in every run a set event has an earlier act that set it |
| Session.NormalReturnHasCause | voice_runtime/session.py:208-279 | in every run of session acts a wait returns normally only if its own key was echoed while registered, the call was disconnected or reset, or it timed out while disconnected (for the send loop see ByteClockWaits) |
| Session.SecureKept | voice_runtime/session.py:195-279 | a waiter that is alone with its key and owns the entry stays so, or is released or gone, whatever any thread does, resets included |
| Session.SignalOneMore | voice_runtime/session.py:260-261 | signalling keys one after the other releases the same waiters as signalling the whole set |
| SessionOutcomes.EventSetIff | voice_runtime/session.py:218-279 | an act sets an event that was not set exactly if it echoes the waiter's own registered key, is the first disconnect or a reset |
| SessionOutcomes.SetIff | voice_runtime/session.py:218-279 | in every run an event is set exactly if one of those acts came since the waiter registered |
| SessionOutcomes.HowWaitsEnd | voice_runtime/session.py:208-216 | in every run a wait that is over was ended by one act, as a timeout exactly if its event was not set and the call not disconnected at that moment, and normally otherwise |
| SessionOutcomes.SetMeansReturns | voice_runtime/session.py:208-216 | a wait that goes on after its event was set can end, and ends normally |
| SessionCalls.StaleRequestIgnoredIff | voice_runtime/session.py:327-348 | in every run a request to disconnect made for an earlier moment ends the present connected call exactly if no reset came in between, and changes nothing otherwise |
| SessionCalls.NewCallStartsClean | voice_runtime/session.py:233-307 | after a reset no request has an effect until the next call is connected, and that has its own stream and clear queue, nothing queued, registered or requested, whatever the last call left |
| SessionCalls.RequestsCanBeMade | voice_runtime/session.py:103-111 | once the loop is handed over or the call connected, the intent fields exist and a request without a generation always ends the call |
| SessionCalls.ClearGoesToThisCall | voice_runtime/session.py:350-362 | a clear request adds one to the queue of the present connected call and to no other |
| SessionCalls.InboundIsWhatWasPut | voice_runtime/session.py:123-143 | between resets the inbound queue has got everything put while a loop was set and one sentinel at the first disconnect, in order |
| SessionCalls.EveryEndIsReported | voice_runtime/session.py:254-263 | the callback has run once for every first disconnect that found it installed |
| SessionCalls.BooksKept | voice_runtime/transports/_stt_lifecycle.py:17-37 | an act makes, announces, starts, stops or halts a recogniser exactly when it is a start without one and with a factory, a start, a stop, or a reset |
| SessionCalls.RecognisersInOrder | voice_runtime/transports/_stt_lifecycle.py:17-37 | in every run a recogniser is started only once made, announced only if started, second ones are distinct, and none only has its feeder cancelled |
| SessionObject.VoiceSession.PickKey | voice_runtime/session.py:199-204 | returns the first suffixed key that is not registered |
| SessionObject.VoiceSession.RegisterMark | voice_runtime/session.py:195-208 | stores a new event under the key and queues the mark, nothing without a loop |
| SessionObject.VoiceSession.FinishWait | voice_runtime/session.py:208-216 | ends the wait normally if the event was set or the call is disconnected and as timed out otherwise, and removes whatever is stored under its key |
| SessionObject.VoiceSession.SignalMarkReceived | voice_runtime/session.py:218-225 | sets exactly the event stored under the name |
| SessionObject.VoiceSession.SetAllEvents | voice_runtime/session.py:260-261 | after the loop every stored event is set and no other |
| SessionObject.VoiceSession.SignalWsConnected | voice_runtime/session.py:233-247 | records the stream, creates the intent fields that are missing and sets the connected event |
| SessionObject.VoiceSession.SignalDisconnected | voice_runtime/session.py:254-263 | only the first call queues the sentinel, releases the waiters and runs the callback |
| SessionObject.VoiceSession.ResetCall | voice_runtime/session.py:269-307 | bumps the generation, releases everyone, forgets the call, stops the recogniser or without a loop cancels its feeder, and empties both audio queues |
| SessionObject.VoiceSession.StartRecognition | voice_runtime/transports/_stt_lifecycle.py:17-37 | makes a recogniser if there is none and a factory, with a second one behind it if that has a factory too, announces the one there is to the callback and starts it |
| SessionLife.NoRecogniserOrphaned | voice_runtime/session.py:287-299 | in every run each recogniser ever made is the current one or was asked to stop |
| SessionLife.CallbackOncePerCall | voice_runtime/session.py:254-263 | between resets the disconnect callback runs at most once, and only at the first disconnect |
| SessionObject.VoiceSession.RequestDisconnectFor | voice_runtime/session.py:327-348 | a request with a stale generation, or before the call is connected, changes nothing |
| SessionObject.VoiceSession.RequestClearBuffer | voice_runtime/session.py:350-362 | adds one request to the clear queue of the connected call |
| TextChannel.InvKept | voice_runtime/transports/_audiohook_writer.py:70-117 | every step keeps sequence numbers 1, 2, 3, ..., nondecreasing client numbers, queue order and the meaning of the futures |
| TextChannel.WrittenInQueueOrder | voice_runtime/transports/_audiohook_writer.py:99-117 | what was written from the queue is a prefix of what was queued, whatever barge-in events went in between |
| TextChannel.FutureTellsTheTruth | voice_runtime/transports/_audiohook_writer.py:70-117 | a future not given up is True exactly when its message was written, no message is written twice, and none is pending once the queue is empty or the writer failed |
| TextChannel.SettledOnce | voice_runtime/transports/_audiohook_writer.py:89-117 | a settled future never changes |
| TextChannel.HeadWriteAdvances | voice_runtime/transports/_audiohook_writer.py:111-117 | every completed write moves each queued message one place forward and settles the first |
| TextChannel.SettleQueuedAt | voice_runtime/transports/_audiohook_writer.py:92-97 | a failure answers exactly the pending futures of the queue with False |
| TextNumbers.MessagesCarryClientNumber | voice_runtime/transports/_audiohook_writer.py:99-117 | in every run each message written was begun by one act, with the next number, and carries the client's number of that moment; the barge-in events are those begun by a barge-in |
| TextNumbers.ClientNumberIsCounted | voice_runtime/transports/_audiohook_writer.py:99-109 | that number is the sum of what the client's messages added |
| TextNumbers.FailureAnswersEverything | voice_runtime/transports/_audiohook_writer.py:70-97 | after a failed write every message not written is answered False, so is each one sent later, and nothing more is written |
| TextNumbers.GivenUpIsStillWritten | voice_runtime/transports/_audiohook_writer.py:111-117 | giving up on a pending message cancels its future alone; the message stays queued |
| ByteClockAudio.InvKept | voice_runtime/transports/_audiohook_writer.py:119-184 | every step keeps conservation, the packet format, the byte count and the pacing |
| ByteClockAudio.ConservedKept | voice_runtime/transports/_audiohook_writer.py:137-184 | wire, packet in flight, buffer and outbound queue in this order are exactly the bytes queued and not discarded; packets have 1600 bytes with padding 0xFF only at the end; `sent_bytes` is 1600 times their number |
| ByteClockAudio.SessionActConserves | voice_runtime/session.py:269-307 | whatever other threads do to the session keeps conservation; a reset discards just what is still queued |
| ByteClockAudio.StartsSpread | voice_runtime/transports/_audiohook_writer.py:162-165 | k packets later starts at least k times 200 ms later |
| ByteClockAudio.FivePacketsASecond | voice_runtime/transports/_audiohook_writer.py:133-165 | no half-open window of 1000 ms sees more than five packets start, for every clock and input |
| History.DiscardKeepsFirst | voice_runtime/transports/_audiohook_writer.py:179-184 | discarding everything behind a point keeps the first live bytes and removes or reorders none |
| History.DiscardAhead | voice_runtime/transports/_audiohook_writer.py:179-184 | a discard leaves at most the kept number of live bytes ahead of any position |
| ByteClockMarks.InvKept | voice_runtime/transports/_audiohook_writer.py:119-191 | in every step a tracked mark has an anchor exactly when its target is at most `sent_bytes`, an anchored mark has no undiscarded byte ahead of it off the wire, and its target byte's packet was accepted by the anchor time |
| ByteClockMarks.ResolvedMarkIsSound | voice_runtime/transports/_audiohook_writer.py:170-177 | a resolved mark had every undiscarded byte queued ahead of it written, and the latency has passed since its anchor and since the packet with its target byte was accepted |
| ByteClockTaking.TakeTracksQueued | voice_runtime/transports/_audiohook_writer.py:126-132 | a pass keeps the tracked marks and tracks behind them exactly the queued names that are registered, in queue order and each as often as queued, with the target behind all audio held |
| ByteClockTaking.BargeInKeepsOthers | voice_runtime/transports/_audiohook_writer.py:188-190 | a barge-in keeps exactly the marks of other names, in order and each as often as tracked |
| ByteClockPadding.PacketSentIff | voice_runtime/transports/_audiohook_writer.py:133-165 | in every run a pass sends a packet exactly if there is audio, 200 ms are over since the last was accepted, and 1600 bytes are there or a mark waits or no audio was taken for 200 ms since the last barge-in; then the first 1600 bytes go, or all |
| ByteClockPadding.PacketIsPadded | voice_runtime/transports/_audiohook_writer.py:153-161 | the packet accepted is that audio followed by 0xFF up to 1600 bytes |
| ByteClockPadding.NothingBeforeBinding | voice_runtime/transports/_audiohook_writer.py:82-88 | until the call is bound no audio is buffered or sent and no mark is tracked |
| ByteClockPadding.LastMarkIsLatest | voice_runtime/transports/_audiohook_writer.py:170-177 | in every run `last_mark` is the mark resolved last, with its time |
| ByteClockRequests.EveryRequestServedOnce | voice_runtime/transports/_audiohook_writer.py:119-125 | in every run the requests left on a clear queue and the barge-ins begun for it are together the requests at first and those made since |
| ByteClockRequests.PassServesAllRequests | voice_runtime/transports/_audiohook_writer.py:119-126 | a pass takes audio and marks only when the clear queue it found at its beginning is empty |
| ByteClockRequests.HistoryIsWhatWasQueued | voice_runtime/transports/_audiohook_writer.py:137-143 | in every run the byte history is the audio queued at first and all audio queued since, each byte once and in order |
| ByteClockRequests.WireIsWhatWasQueued | voice_runtime/transports/_audiohook_writer.py:137-165 | without barge-in and reset the bytes accepted by the socket are the first of all bytes queued |
| ByteClockProgress.ReachKept | voice_runtime/transports/_audiohook_writer.py:119-191 | targets stay nondecreasing and every waiting target covered by the bytes held, through every step but a barge-in that finds a waiting mark without a waiter |
| ByteClockProgress.BargeInKeepsCoverIff | voice_runtime/transports/_audiohook_writer.py:179-191 | a completed barge-in leaves only covered marks exactly when every waiting mark's waiter was registered when it began |
| ByteClockProgress.DuePassSends | voice_runtime/transports/_audiohook_writer.py:133-158 | while a mark waits, every pass that is due sends a packet |
| ByteClockProgress.PaddedPacketAnchorsAll | voice_runtime/transports/_audiohook_writer.py:157-168 | once a padded packet is accepted no mark waits for bytes |
| ByteClockProgress.AnchoredMarkResolves | voice_runtime/transports/_audiohook_writer.py:170-177 | an anchored mark whose latency is over resolves at the next resolution and releases its waiter |
| ByteClockProgress.DuePassesCountPackets | voice_runtime/transports/_audiohook_writer.py:133-165 | while a mark waits, sent bytes grow by exactly 1600 per due pass |
| ByteClockProgress.MarkAnchoredWithinPasses | voice_runtime/transports/_audiohook_writer.py:126-168 | a mark stops waiting within ceil((target - sent) / 1600) due passes |
| ByteClockService.WaiterFreedWithinPasses | voice_runtime/transports/_audiohook_writer.py:119-191 | in a run whose barge-ins find the waiting marks registered, a waiter with its own entry and a tracked mark no longer waits after the first resolution that comes the latency after ceil((target - sent) / 1600) due passes |
| ByteClockService.RegisteredWaiterIsFreed | voice_runtime/transports/_audiohook_writer.py:119-191 | in every run from the start whose barge-ins find the waiting marks registered, and whose resets before the registration found no mark, a registered waiter no longer waits after the first resolution that comes the latency after ceil(held / 1600) due passes behind a take |
| ByteClockRuns.EveryRunIsSound | voice_runtime/transports/_audiohook_writer.py:82-198 | conservation, pacing, mark soundness and the text channel hold together throughout every run from the start, for any session, latency, clock and environment |
| ByteClockRuns.WriterNeverStuck | voice_runtime/transports/_audiohook_writer.py:82-97 | in every reachable state the loop's next step is possible |
| ByteClockRuns.WriterHasNoChoice | voice_runtime/transports/_audiohook_writer.py:82-198 | the loop's next step is determined but for the clock reading, so it skips no flush, pass, request, packet or resolution |
| ByteClockRuns.PassFindsNoPendingFuture | voice_runtime/transports/_audiohook_writer.py:82-88 | when a service pass begins every message queued so far was written and answered True, unless its owner gave up |
| ByteClockRuns.EveryCarefulRunIsGood | voice_runtime/transports/_audiohook_writer.py:119-191 | every run from the start whose barge-ins find the waiting marks registered keeps the order and cover that the progress results ask for, until the loop ends |
| ByteClockWaits.HandshakeKept | voice_runtime/transports/_audiohook_writer.py:170-191 | the writer's own acts keep the session handshake, and other threads' registrations exactly if they avoid orphaned keys |
| ByteClockWaits.TightThrough | voice_runtime/transports/_audiohook_writer.py:170-191 | in every run of the loop whose resets find no registered mark live waiters hold distinct keys, all of them registered, and every stored event has a live waiter |
| ByteClockWaits.BargeInReleasesEveryWaiter | voice_runtime/transports/_audiohook_writer.py:179-190 | in every run of the loop whose resets so far found no registered mark, whoever waits when a barge-in begins is released, or has left, when it ends, whatever other tasks do while its event is written |
| ByteClockWaits.BargeInReleasesSecure | voice_runtime/transports/_audiohook_writer.py:179-190 | whatever happened before, a barge-in releases each waiter that was alone with its key and owned its entry when it began, resets during the write included |
| ByteClockWaits.NormalReturnHasCause | voice_runtime/transports/_audiohook_writer.py:170-190 | in every run of the send loop a wait returns normally only if the byte clock resolved its mark, a barge-in begun while it was registered ended, its key was echoed, the call disconnected or was reset, or it timed out while disconnected |
| ByteClockOutcomes.SetIff | voice_runtime/transports/_audiohook_writer.py:170-190 | in every run of the loop the event of a waiter is set exactly if the byte clock resolved its mark, a barge-in that named it ended, its key was echoed, the call disconnected or was reset since |
| ByteClockOutcomes.HowWaitsEnd | voice_runtime/session.py:208-216 | in every run of the loop a wait that is over ended as a timeout exactly if its event was not set and the call not disconnected when it ended, and normally otherwise |
| ByteClockOutcomes.SetMeansReturns | voice_runtime/transports/_audiohook_writer.py:170-190 | a wait that goes on after its event was set, by whatever act, ends normally |
| ByteClockPromise.NormalReturnMeansPlayed | voice_runtime/transports/_audiohook_writer.py:126-177 | in every run a wait that returns normally, ended by no barge-in and no other thread, returns only after every byte queued before it registered and not discarded was accepted by the socket and its mark's latency had passed, unless a mark of its name was tracked when it registered |
| ByteClockReuse.ReusedNameReleasesEarly | voice_runtime/transports/_audiohook_writer.py:126-177 | a run without barge-in or other release in which a waiter that drew the name of a tracked mark is released before its audio was sent |
| ByteClockDraw.DrawSafeIff | voice_runtime/transports/_audiohook_writer.py:126-177 | in every reachable state in which the loop rests, some audio and some continuation without barge-in or other release free a waiter that draws a given key before its audio is sent, exactly if a tracked mark has that name |
| ByteClockLatency.LatencyFromTakingIff | voice_runtime/transports/_audiohook_writer.py:119-132 | a mark taken with nothing outstanding cannot be resolved before its latency since then exactly if the latency is zero or no time passed while its pass wrote barge-in events |
| ByteClockLatency.EarlyAnchorIff | voice_runtime/transports/_audiohook_writer.py:119-132 | when a pass begins, some continuation of it anchors a mark earlier than it is taken exactly if a barge-in request is waiting |
| ByteClockLatency.LatencyCanBeSkipped | voice_runtime/transports/_audiohook_writer.py:119-177 | a run in which a mark registered during a barge-in event is resolved by the pass that takes it, before its latency since then |
| ByteClockStale.StaleMarkHoldsBackLaterMarks | voice_runtime/transports/_audiohook_writer.py:170-191 | some run reaches a state in which a timed-out mark has survived a barge-in and from which no continuation without new audio, a barge-in, an echo, a disconnect or a reset releases the live waiter behind it |
| WriterObject.Writer.constructor | voice_runtime/transports/_audiohook_writer.py:44-68 | the new writer is the machine's start state |
| WriterObject.Writer.Send | voice_runtime/transports/_audiohook_writer.py:70-77 | queues a message with a pending future, or answers False at once after a failure |
| WriterObject.Writer.WriteHead | voice_runtime/transports/_audiohook_writer.py:99-114 | numbers the first queued text and leaves it queued while the socket is awaited |
| WriterObject.Writer.HeadWritten | voice_runtime/transports/_audiohook_writer.py:115-117 | removes the written text and settles its future if still pending |
| WriterObject.Writer.FlushText | voice_runtime/transports/_audiohook_writer.py:111-117 | returns with an empty queue, or suspended in the write that failed |
| WriterObject.Writer.Drain | voice_runtime/transports/_audiohook_writer.py:137-143 | moves the outbound queue to the end of the buffer in order and notes the time if there was any |
| WriterObject.Writer.TakeMarks | voice_runtime/transports/_audiohook_writer.py:126-132 | tracks exactly the queued marks still registered, in order and by positions, with the target behind the buffer |
| WriterObject.Writer.IsAnyUnanchored | voice_runtime/transports/_audiohook_writer.py:146-147 | tells whether some tracked mark has no anchor |
| WriterObject.Writer.CutPacket | voice_runtime/transports/_audiohook_writer.py:153-161 | takes a full packet, a padded one where padding is allowed, or none |
| WriterObject.Writer.PacketAccepted | voice_runtime/transports/_audiohook_writer.py:162-168 | counts the bytes, sets the next sending time and anchors the marks reached |
| WriterObject.Writer.PopDueMarks | voice_runtime/transports/_audiohook_writer.py:170-177 | pops exactly the leading marks that are due and releases their waiters |
| WriterObject.Writer.DropQueued | voice_runtime/transports/_audiohook_writer.py:123-186 | empties buffer, outbound and mark queue and remembers the registered names |
| WriterObject.Writer.EventWritten | voice_runtime/transports/_audiohook_writer.py:188-190 | releases the remembered waiters and keeps only the other marks |
| WriterObject.Writer.Service | voice_runtime/transports/_audiohook_writer.py:119-135 | one pass takes the machine's acts in order and ends asleep, or suspended in the write that failed |
| WriterObject.Writer.WaitTime | voice_runtime/transports/_audiohook_writer.py:193-198 | sleeps at most 20 ms and never past the moment the next packet is due, shorter than 20 ms only to meet that moment |
| WriterObject.Writer.FailEverything | voice_runtime/transports/_audiohook_writer.py:91-97 | a socket error empties the text queue and answers its pending futures False |
| WriterObject.Writer.AnswerFalse | voice_runtime/transports/_audiohook_writer.py:94-96 | the loop settles every queued pending future as False and no other |
| WriterObject.Writer.Sound | voice_runtime/transports/_audiohook_writer.py:82-198 | the object's state satisfies all invariants of the machine at any time |
| WriterObject.Writer.Run | voice_runtime/transports/_audiohook_writer.py:82-97 | every run of the object is a run of the machine that ends only with an await that does not succeed, and fails exactly if that raises and is no sleep; after a failure no future is pending and one not given up is True exactly when its message went out |
| Connection.LadderHolds | voice_runtime/transports/audiohook_server.py:176-257 | over every trace: bound implies open implies authenticated, bound at most once, the first message written to a peer let in is `opened`, and messages past the check carry exactly 1, 2, 3, ... |
| Connection.InSequenceStep | voice_runtime/transports/audiohook_server.py:185-201 | every input keeps that numbering, and the client number that the writer reports never falls |
| Connection.BoundIff | voice_runtime/transports/audiohook_server.py:176-257 | over every trace the call is bound exactly if the first input that is not audio is an authorised `open` numbered 1 with suitable media, no probe, whose `opened` was written |
| Connection.DecidedByFirstText | voice_runtime/transports/audiohook_server.py:176-257 | after that input the connection is over, an open probe or bound to the call it named, and stays so; the media answered is the offered entry selected |
| ConnectionAnswers.StrangerIsRefused | voice_runtime/transports/audiohook_server.py:176-230 | over every trace a first text of a peer with a wrong key, or one whose header or `open` does not name the required organisation, ends the connection unauthenticated and unbound with `disconnect` as the only reply |
| ConnectionAnswers.BoundOnlyForAdmitted | voice_runtime/transports/audiohook_server.py:208-257 | over every trace a bound call had a first text numbered 1, an `open` with PCMU 8000 external media and no probe, the right key and the required organisation in header and `open`, and is the call that `open` named |
| ConnectionAnswers.FirstTextStands | voice_runtime/transports/audiohook_server.py:176-257 | over every trace the first text is answered as its form, sender, number, type and media ask, in this order, and that stands: a connection ended by it changes no more, one opened keeps its call and first reply |
| ConnectionAnswers.LaterText | voice_runtime/transports/audiohook_server.py:176-284 | over every trace a later text on an open connection ends it if malformed or out of sequence, or if it is a close, and is otherwise answered by its type alone |
| ConnectionAnswers.RepliesInOrder | voice_runtime/transports/audiohook_server.py:259-284 | while a connection lasts its replies are `opened`, then a pong for each ping and an updated for each update, in order |
| Connection.SelectsFirst | voice_runtime/transports/audiohook_server.py:69-82 | the first suitable offer is selected unchanged |
| Connection.SelectsSuitable | voice_runtime/transports/audiohook_server.py:69-82 | what is selected was offered and suits, and nothing is selected only if nothing suits |
| Connection.WholeOfParts | voice_runtime/transports/audiohook_server.py:286-295 | cutting a stream delivered in two parts gives the frames and remainder of the whole |
| Connection.FramesDependOnStreamOnly | voice_runtime/transports/audiohook_server.py:286-295 | after every trace the frames and the remainder are those of the bytes heard, however they were split |
| Connection.AudioConserved | voice_runtime/transports/audiohook_server.py:286-295 | frames followed by the remainder are the bytes heard, frames have 160 bytes and the remainder fewer |
| Connection.HearsEverything | voice_runtime/transports/audiohook_server.py:165-174 | while a bound connection lasts, the bytes heard are all audio after the binding message |
| ConnectionObject.AudioHookConnection.FindMedia | voice_runtime/transports/audiohook_server.py:69-82 | the loop finds the selected entry |
| ConnectionObject.AudioHookConnection.CheckAuthorized | voice_runtime/transports/audiohook_server.py:208-217 | authorised exactly if the key is right and, where an organisation is required, the header names it and, in an `open`, the message too |
| ConnectionObject.AudioHookConnection.OnOpen | voice_runtime/transports/audiohook_server.py:232-257 | refuses unsuitable media, opens after the answer was written, and unless a probe binds the session and starts its recogniser |
| ConnectionObject.AudioHookConnection.DispatchText | voice_runtime/transports/audiohook_server.py:259-284 | answers ping, update and close; only close ends the connection |
| ConnectionObject.AudioHookConnection.HandleText | voice_runtime/transports/audiohook_server.py:176-206 | one text message takes one step of the machine, checks in the source's order |
| ConnectionObject.AudioHookConnection.HandleAudio | voice_runtime/transports/audiohook_server.py:286-295 | hands the session exactly the whole frames and keeps the rest |
| ConnectionObject.AudioHookConnection.ReadLoop | voice_runtime/transports/audiohook_server.py:165-174 | reading any trace of inputs ends in the machine's state for it, whatever other tasks and threads do to the session in between |
| ConnectionObject.AudioHookConnection.Teardown | voice_runtime/transports/audiohook_server.py:149-163 | reports the disconnect and stops the recogniser exactly when bound, and does nothing else to the session |
| ConnectionObject.AudioHookConnection.Serve | voice_runtime/transports/audiohook_server.py:133-174 | the session ends as the recorded acts of this connection and of all others make it; those of the connection are none if it never binds, else connect, start of the recogniser, the whole frames of the audio heard in order, disconnect and stop; a session nobody else touched has got just that, with its waiters released |
| ConnectionObject.AwaitClose | voice_runtime/transports/audiohook_server.py:310-314 | looks for the answer at most 500 times and gives up only after the full wait |
| Ulaw.FindSegment | voice_runtime/audio.py:73-79 | the mask loop finds the segment |
| Ulaw.SegmentUnique | voice_runtime/audio.py:73-79 | the segment is the only e below 8 with 2^(e+7) <= m < 2^(e+8) |
| Ulaw.LinearToUlaw | voice_runtime/audio.py:63-82 | the shift and mask code computes the closed form of the encoder for every integer |
| Ulaw.BuildTable | voice_runtime/audio.py:46-57 | the table holds the closed-form decoded value of each of the 256 bytes |
| Ulaw.AndOnes | voice_runtime/audio.py:51-53 | masking with k ones is the remainder modulo 2^k, for negative numbers too |
| Ulaw.OrDisjoint | voice_runtime/audio.py:82 | joining fields that do not overlap adds them |
| Ulaw.ErrorBound | voice_runtime/audio.py:46-82 | up to the clip the decoded value is off by at most 2^(e+2), hence by (abs(s) + 132) / 32 |
| Ulaw.Monotone | voice_runtime/audio.py:46-82 | over all integers decode after encode is monotone |
| Ulaw.Saturates | voice_runtime/audio.py:70-71 | beyond the clip the output stays at +-32124, the outermost decoded values |
| Ulaw.SignFlipsTopBit | voice_runtime/audio.py:66-69 | for s != 0 the code of -s is that of s with the top bit flipped |
| Ulaw.EncodeDecode | voice_runtime/audio.py:46-82 | encode after decode is the identity on bytes, except that 0x7F becomes 0xFF |
| Ulaw.QuantizeTwice | voice_runtime/audio.py:46-82 | quantising twice is quantising once |
| Ulaw.CodeUnique | voice_runtime/audio.py:73-82 | the code is the only one whose interval holds the magnitude |
| Ulaw.NearestIff | voice_runtime/audio.py:46-82 | over all integers the codec picks a nearest level exactly when the sample is not just above a segment boundary |
| Ulaw.NotNearestAt124 | voice_runtime/audio.py:46-82 | 124 is such a sample: it decodes to 132 though a byte stands for 120 |
| Mixer.MixFrames | voice_runtime/audio.py:85-105 | the loop over table and clamp yields encode(c + a) at each of the 160 positions |
| Mixer.ClampSubsumed | voice_runtime/audio.py:100-103 | the clamp to 16 bits never changes the encoded byte |
| Mixer.MixCommutes | voice_runtime/audio.py:85-105 | mixing does not depend on the order of its frames |
| Mixer.MixError | voice_runtime/audio.py:85-105 | up to the clip a mixed sample is off the sum by at most (abs(sum) + 132) / 32 |
| Mixer.MixSaturates | voice_runtime/audio.py:85-105 | beyond the clip a mixed sample is the outermost level of the sum's sign |
| Mixer.MixWithSilence | voice_runtime/audio.py:228-233 | mixing with silence keeps the sound, and the bytes exactly if no 0x7F occurs |
| Mixer.ShortcutKeepsNegativeZeros | voice_runtime/audio.py:228-233 | a frame of 0x7F sounds like silence but mixing would change its bytes |
| Mixer.FramesHoldChunk | voice_runtime/audio.py:188-202 | the frames of a chunk are the chunk and fewer than 160 bytes of 0xFF at its end |
| Mixer.NewestAreLast | voice_runtime/audio.py:136-145 | a bounded queue holds the last 400 frames, or all if fewer |
| Mixer.NewestOfAll | voice_runtime/audio.py:188-202 | dropping on each write keeps what dropping once at the end would |
| Mixer.AudioMixer.constructor | voice_runtime/audio.py:136-145 | both queues are empty and the table is built |
| Mixer.AudioMixer.Append | voice_runtime/audio.py:188-202 | appends the frames of a chunk and keeps the newest 400 |
| Mixer.AudioMixer.WriteCaller | voice_runtime/audio.py:188-194 | the caller's queue takes the chunk, the agent's is untouched |
| Mixer.AudioMixer.WriteAgent | voice_runtime/audio.py:196-202 | the agent's queue takes the chunk, the caller's is untouched |
| Mixer.AudioMixer.Tick | voice_runtime/audio.py:218-235 | takes one frame of each queue; whatever shortcut applies, the result sounds like the full mix |
| Feeder.FeedAudio | voice_runtime/providers/elevenlabs_stt.py:258-309 | the error fires exactly at a third send that failed with the flag down and no success in between; a cancel ends the loop wherever it hits; the frames sent are those whose send succeeded, once and in order, none after the end |
| Feeder.CounterMeaning | voice_runtime/providers/elevenlabs_stt.py:285-304 | the failure counter reaches three exactly at such a third failure, failures during a swap neither counting nor resetting |
| Feeder.AcceptedAreTheSuccesses | voice_runtime/providers/elevenlabs_stt.py:263-286 | the frames sent are exactly the dequeued ones whose send succeeded, in order and each once |
| Feeder.DrainStale | voice_runtime/providers/elevenlabs_stt.py:220-229 | the drain drops the frames up to the first sentinel and puts that back at the end |
| Feeder.DrainKeepsSentinel | voice_runtime/providers/elevenlabs_stt.py:220-229 | no drain loses a sentinel |
| Feeder.DrainKeepsWhatIsBehind | voice_runtime/providers/elevenlabs_stt.py:220-229 | the frames behind the first sentinel stay, in order, with the sentinel behind them |
| SttSession.InvKept | voice_runtime/providers/elevenlabs_stt.py:63-254 | under every interleaving each step keeps: one current feeder, cancels only for a stop still waiting, kept handles exactly those of unfinished scheduled work, and what a stop established |
| SttSession.RunInv | voice_runtime/providers/elevenlabs_stt.py:63-254 | the same in every state of every run |
| SttSession.AtMostOneFeeder | voice_runtime/providers/elevenlabs_stt.py:141-155 | at most one feeder is ever live |
| SttSession.ConnectLeavesFeeder | voice_runtime/providers/elevenlabs_stt.py:92-155 | a connect that completes while not stopping leaves a live feeder, safe exactly when the one it found was not being cancelled |
| SttSession.StoppedMeansStopped | voice_runtime/providers/elevenlabs_stt.py:157-176 | when a stop returns and nobody started since it began, every feeder is done, no handle is kept, and all scheduled work has ended or was told to |
| SttClose.ReturnedIff | voice_runtime/providers/elevenlabs_stt.py:157-176 | in every run a stop that has gathered has returned exactly if there was no socket when it gathered or the socket was closed for it since |
| SttClose.StopTellsEverybody | voice_runtime/providers/elevenlabs_stt.py:157-172 | in every run from a call of stop until the next start no feeder runs that was not told to end, no handle is kept, and all scheduled work has ended or was told to |
| SttClose.OldSocketClosedFirst | voice_runtime/providers/elevenlabs_stt.py:102-125 | in every run a connect is about to open its socket exactly if there was none when it began or it has closed the old one since |
| SttClose.RetryBacksOff | voice_runtime/providers/elevenlabs_stt.py:231-246 | in every run an error retry connects only after its backoff |
| SttStop.StopFinishesWorkIff | voice_runtime/providers/elevenlabs_stt.py:157-176 | all scheduled work has ended when a stop returns, however it goes on without a start, exactly if it had ended when the stop was called |
| SttStop.StoppedIsNotDone | voice_runtime/providers/elevenlabs_stt.py:92-176 | a run without a second start in which a cancelled reconnect opens a socket after the stop returned |
| SttStop.StartBreaksStopIff | voice_runtime/providers/elevenlabs_stt.py:77-176 | after a start some earlier stop can return while a feeder is live exactly if one had not returned when the start came |
| SttSession.NoLateFeeder | voice_runtime/providers/elevenlabs_stt.py:63-176 | after that, no run without a start ever makes another feeder |
| SttStop.StopCanReturnWithLiveFeeder | voice_runtime/providers/elevenlabs_stt.py:77-176 | a run in which a start during a stop makes the stop return with a live feeder |
| SttStop.StartCanLeaveNoFeeder | voice_runtime/providers/elevenlabs_stt.py:77-176 | a run in which the started session keeps no feeder and no work that would make one |
| SttQueue.UpToDateIff | voice_runtime/providers/elevenlabs_stt.py:77-155 | in every run a live feeder read the queue of the latest start all along exactly if no start brought another queue while a feeder was live |
| SttQueue.ConnectUpToDateIff | voice_runtime/providers/elevenlabs_stt.py:92-155 | a connect that completes while not stopping leaves a live feeder, on the latest queue exactly if the one it found was done or read that queue |
| SttQueue.FeederOnOldQueue | voice_runtime/providers/elevenlabs_stt.py:77-155 | a run in which a second start with another queue completes and the only feeder still reads the first |
| SttSwap.FlagDownDuringSwap | voice_runtime/providers/elevenlabs_stt.py:102-138 | a run in which the first of two reconnects lowers the flag while the other still swaps |
| SttSwap.FlagAfterConnectIff | voice_runtime/providers/elevenlabs_stt.py:102-138 | the end of a connect, by success, failure or cancellation, leaves the flag right exactly if no other connect is swapping |
| SttSwap.FlagRightIff | voice_runtime/providers/elevenlabs_stt.py:102-138 | the flag was up in every state of a run exactly while some socket was being swapped, if and only if no connect ended while another was swapping |
| SttSwap.FlagRightWithoutOverlap | voice_runtime/providers/elevenlabs_stt.py:102-138 | in particular in every run in which no connect begins while another swaps |
| SttRetry.GivesUpIff | voice_runtime/providers/elevenlabs_stt.py:205-254 | in every run an error retry that begins gives up exactly if three error retries had failed with no successful one since |
| SttRetry.CounterStep | voice_runtime/providers/elevenlabs_stt.py:246-254 | only the connects of error retries move the attempt counter |
| SttObject.PersistentSttSession.constructor | voice_runtime/providers/elevenlabs_stt.py:38-61 | the new session has no feeder, no handle and no socket, and an empty run behind it |
| SttObject.PersistentSttSession.Sound | voice_runtime/providers/elevenlabs_stt.py:63-254 | everything the object does is a run of the machine, so its invariants hold of the fields at any time |
| SttObject.PersistentSttSession.StartCall | voice_runtime/providers/elevenlabs_stt.py:77-90 | empties the queue it is given; a start that returns connected has a socket and, unless the session is stopping by then, a live feeder; it does so if its awaits succeed |
| SttObject.PersistentSttSession.Connect | voice_runtime/providers/elevenlabs_stt.py:92-139 | the same for a connect under any interleaving; whenever it ends the flag is down |
| SttObject.PersistentSttSession.Await | voice_runtime/providers/elevenlabs_stt.py:92-176 | while a coroutine or a stop awaits, others may do anything but move it |
| SttObject.PersistentSttSession.Reconnect | voice_runtime/providers/elevenlabs_stt.py:181-254 | gives up with one error when an error retry finds its attempts used up, else connects if its awaits succeed, and then has a socket and, unless the session is stopping, a live feeder; an error retry leaves no stale frame in a queue without a sentinel |
| SttObject.PersistentSttSession.StopCall | voice_runtime/providers/elevenlabs_stt.py:157-176 | a stop returns only after it gathered and the socket it found then was closed for it, and returns if its awaits succeed; without a start since its call it leaves every feeder done, no handle kept, and all scheduled work ended or told to |
| SttObject.PersistentSttSession.StopSession | voice_runtime/providers/elevenlabs_stt.py:157-172 | cancels every kept handle and the feeder and waits for them |
| SttObject.PersistentSttSession.CancelHandles | voice_runtime/providers/elevenlabs_stt.py:165-167 | the loop cancels exactly the coroutines whose handles are kept |
| AzureRetry.Reconnector.ReconnectAfterError | voice_runtime/providers/azure_stt.py:269-312 | one chain ends with the counter at 0 after the first success, or at the cap with the error fired once, and sleeps once per attempt within the jitter bounds |
| AzureRetry.ChainUnique | voice_runtime/providers/azure_stt.py:274-312 | the outcomes determine the number of attempts |
| AzureRetry.DelaysIncrease | voice_runtime/providers/azure_stt.py:284-288 | delays strictly increase within a chain whatever the jitter |
| AzureRetry.FullFailureSleep | voice_runtime/providers/azure_stt.py:284-312 | a chain that only fails sleeps at least 5.25 s and less than 8.75 s |
| Fanout.FanOutAgrees | voice_runtime/stt_tee.py:109-132 | in every run the primary got exactly the consumed prefix of what arrived (and the sentinel of a cancel), the secondary the items at the increasing positions it took, and delivered plus dropped is consumed |
| Fanout.CancelReachesSecondary | voice_runtime/stt_tee.py:127-132 | after a cancel that hit a begun task the secondary has got a sentinel behind the items it took exactly if it took that too |
| Fanout.ResumeConsumesAll | voice_runtime/stt_tee.py:109-126 | a resumed task has handed on everything that arrived, or stopped at the sentinel |
| Fanout.SentinelIffBegun | voice_runtime/stt_tee.py:109-138 | a finished fan-out has sent the primary one sentinel, as its last item, exactly if it had begun, and otherwise nothing |
| Fanout.BegunIff | voice_runtime/stt_tee.py:103-138 | it begins exactly if it is resumed before it is cancelled |
| Fanout.CancelledBeforeFirstStep | voice_runtime/stt_tee.py:127-138 | a run in which a waiting frame and the sentinel are both never sent |
| Fanout.SttTee.constructor | voice_runtime/stt_tee.py:89-107 | starting makes two empty queues and a task that has not begun |
| Fanout.SttTee.TakeFrame | voice_runtime/stt_tee.py:113-126 | hands one item to the primary and, if it takes it, to the secondary; counts a drop otherwise |
| Fanout.SttTee.ResumeTask | voice_runtime/stt_tee.py:109-126 | runs until the source is empty or the sentinel was handed on |
| Fanout.SttTee.CancelTask | voice_runtime/stt_tee.py:127-138 | sends the sentinels only from a task that had begun and not finished |
| Fanout.SttTee.Stop | voice_runtime/stt_tee.py:134-149 | the task is finished and the drops are forgotten |
| Pages.ListCalls | voice_runtime/transports/twilio_call.py:224-263 | asks first with the filters and then at the valid continuation each page names, at most `max_pages` times; returns rows exactly if the chain ends within that, then by positions the rows of all pages whose time is unknown or after the bound; a bad page or link raises, and so does a valid continuation on the last page allowed |
| Pages.StopsAt | voice_runtime/transports/twilio_call.py:256-263 | a chain that stops at a page goes no further and ends nowhere else |
| Pages.CollectedIff | voice_runtime/transports/twilio_call.py:252-255 | a row is returned exactly if some page of the chain has it and its time is unknown or after the bound |
| Pages.AppendKept | voice_runtime/transports/twilio_call.py:252-255 | the loop appends the wanted rows of one page in order |
| Pages.SizesTellDistinct | voice_runtime/transports/twilio_call.py:140-142 | comparing the sizes of tuple and set finds every repeated host |
| Pages.HangupIn | voice_runtime/transports/twilio_call.py:135-191 | the call counts as ended exactly if the first region that does not miss it says it is over; regions behind are not tried, and missing everywhere raises |
| Pages.HangupCall | voice_runtime/transports/twilio_call.py:146-169 | with regions the identifier and the regions are checked first; without, the ambient client alone decides and missing there is never success |

## Left out

- ByteClockService.WaiterFreedWithinPasses: asks the same of its run as the next result, and that the waiter is alone with its key and owns its entry (see `Session.KeyReuseAfterReset`).
- ByteClockProgress.MarkAnchoredWithinPasses: asks that each waiting mark has a registered waiter at every barge-in of the stretch, because progress fails otherwise (see `ByteClockStale.StaleMarkHoldsBackLaterMarks`).
- Session.NormalReturnHasCause: covers session acts only; `ByteClockWaits.NormalReturnHasCause` covers the send loop.
- SttSession.NoLateFeeder: holds until the next `start`, as the source intends; a start while the stop still waits is treated in `SttStop`.
- WriterObject.Writer.Now: clock readings never decrease, and time passes only at readings and awaits.
- ConnectionObject.AwaitClose: a sleep lasts at least its 20 ms.
- Races inside a stretch between two awaits, such as a dictionary growing while it is iterated, and the delay of thread-safe calls into the event loop.
- Network, JSON, base64, HTTP routing and the provider libraries: their results are oracles that succeed, fail or return a value.
- API-key comparison, header parsing and signature logging: one boolean says whether the key is right.
- The checks of a continuation address: one partial function stands for `_validated_next_url` and the URL library.
- Validation of regions, pages and call records by pydantic: a page is sound or it is not.
- SessionObject.VoiceSession.ResetCall: a loop that is set counts as running.
- What a recogniser, a callback or a factory does when called, and recognisers set by the consumer: calls are recorded in order.
- ByteClockService.RegisteredWaiterIsFreed: asks the same of its barge-ins, and of the resets before the registration what `Session.HandshakeWithQuietResets` asks.
- SttObject.PersistentSttSession.StartCall: producers do not put frames into its queue here, so the contract says only what becomes of those that lay in it.
- The half second before an unauthorised peer is answered, and all log texts.
- Transcript callbacks, echo discard and language identification of both providers, and the time-limit reconnect of the consumer.
- Starting a fan-out again without stopping it.
- `clear_inbound`, `wait_for_ws_connect` and the thread-safe getters of the session.
- The timing of the mixer's ticks, ffplay and WAV files.
- The Twilio transports, the text-to-speech providers, factories, mocks and scripts: plumbing around the parts modelled.
