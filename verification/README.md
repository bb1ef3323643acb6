# Verified model of the live-class chat service

A Dafny model of the hardest logic of the repository, with proofs. Five parts:

1. **Chat delivery and resume** (`internal/api/chatroom/hub.go`, the replay loop of
   `internal/api/service/chat_ws.go`). A client has a bounded send queue, a bounded window of
   ids already seen, a resuming flag and a buffer of live messages held back during replay; a
   manager keeps clients in rooms under two levels of lock. The Go structs are classes
   (`ChatClient.Client`, `RoomRegistry.Manager`, `RoomRegistry.Room`) whose methods are proved
   against step functions on values. On top of these stand state machines in which every step
   is one critical section, so their theorems hold over all interleavings: one client
   (`ChatClientRuns`, and what reaches the wire in `ChatQueue`), all clients with the queue gauge
   (`ChatFleet`), the registry (`RoomRegistryRuns`), and the whole protocol with message log,
   broadcasts and paging (`Delivery`).
2. **The browser's ordering buffer** (`frontend/chat_order_buffer.js`): the class
   `OrderBuffer.ChatOrderBuffer`, its refinement of a specification that knows only sets of
   numbers, whole runs of it (`OrderBufferRuns`, with missing numbers `OrderBufferHoles`, its
   requests `OrderBufferGaps`), and the end-to-end theorems (`Provenance`, `EndToEnd`) that compose
   it with part 1.
3. **Circuit breaker and retry executor** (`internal/resilience`): the classes
   `CircuitBreaker.Breaker` and `Permit`, the method `Executor.Do`, and run theorems over callers
   that hold permits for as long as they like. Time is an integer clock that does not go back.
4. **The Thrift codec of the common records** (`idl/kitex_gen/common/k-common.go`): the generated
   structs as classes whose `FastRead` fills them in place and whose `FastWrite` fills a byte
   array in place, list headers patched in afterwards; both are proved against functions on
   bytes, and the round trip, compatibility and truncation laws are proved about those
   functions; `CommonBytes` writes out the bytes themselves. The primitives come from the Apache
   Thrift binary protocol specification, sections "Struct" and "List and Set" and the base-type
   encodings.
5. **The benchmark's latency histogram** (`cmd/chatbench/histogram.go`) against exact order
   statistics of all samples.

`Wrappers` and `Sets` hold stock types and facts about finite sets and maps.

## How the parts fit

- In `Delivery` a stored message has a rank in the history order, which is creation time and
  then id (`internal/rpc/chat/dao/mongo.go:329-338`); a new message may be stored at any rank, not
  only at the end. What one history read may return is the predicate `IsPage`; `HistoryReplay`
  proves the paging loop itself against a fixed history.
- `Delivery` and `EndToEnd` speak of runs: sequences of states linked by enabled steps.
  `ResumeWitnesses` builds runs step by step, which shows that the hypotheses of the resume
  theorems can be met, also by a run in which the hub reorders.
- Rank and lesson number are separate in `Delivery`, as in the code: the creation time is read
  before the insert and the number is allocated after it
  (`internal/rpc/chat/handler.go:68-106`), so two messages may be ranked one way and
  numbered the other. Nor are the numbers without holes: a number that was allocated and could not
  be stored belongs to no message (`internal/rpc/chat/handler.go:100-110`,
  `internal/rpc/chat/dao/mongo.go:206-207`), and a message may be left without one. The end-to-end
  theorems therefore assume only that no two stored messages have one number n or above.
  `EndToEnd.ShowsPlacedUpToHole` holds in every reachable state (`EndToEnd.ShowsTakenUpToHole` for what
  the writer has taken so far, which is all of it once the queue is empty); `EndToEnd.ShownIff` and
  `EndToEnd.ShowsAllIff` say what that comes to once an open client has resumed and the broadcasts
  are over; `EndToEnd.ShowsBlockIff` and `EndToEnd.ShownInLessonOrder` are their corollaries for
  numbers without a hole.
- A reader of the records is described by two functions: `ReadRecord`, on any bytes, and
  `ApplyAll`, the meaning of a sequence of well-formed fields. `CommonReader.ReadsRecord` connects
  them.

## Where a natural claim is false

Each has a counterexample or the exact condition under which the claim holds, most have both.

- A permit from Closed can be counted as a half-open probe, and close the breaker:
  `BreakerEpisodes.StrangerCountedIff`, `BreakerEpisodes.ClosedByStranger`.
- `FinishResume` returning false leaves accepted messages unsent for good:
  `ChatFlush.FlushLosesNothingIff`, `ChatFlush.FlushCanFail`.
- The order buffer never asks for a second gap: `OrderBufferGaps.AlwaysCoveredIffNoSecondHole`,
  `OrderBufferGaps.SecondHoleWaits`, `OrderBufferGaps.SecondGapNeverRequested`. Of two messages under
  one id the second is lost exactly if the first has already been shown, not if it is only held:
  `OrderBufferRuns.FreeIsLostIffIdShown`, `OrderBufferRuns.ReusedIdIsLostIff`.
- The per-lesson connection label drifts: `RoomRegistryRuns.LabelExactIffBalancedDelete`,
  `RoomRegistryRuns.LabelDrifts`.
- The hub does not always keep lesson order over a resume: `ChatFlush.FlushKeepsOrderIff`,
  `ResumeWitnesses.HubMayReorder`.
- A resume can miss a message that is numbered after the anchor but ranks before it:
  `EndToEnd.ShownIff`, `EndToEnd.ShowsAllIff`, `ResumeWitnesses.RankedBeforeAnchorIsMissed`.
- A lesson number that was allocated but never stored stops the ordering buffer for good: what is
  numbered above it is delivered and never shown. `EndToEnd.ShowsAllIff`,
  `ResumeWitnesses.LostNumberStopsTheBuffer`.
- A reported quantile can exceed the reported maximum:
  `LatencyHistogram.QuantileAboveMaximumIff`, `LatencyHistogram.P99AboveMax`.
- A list with another element type than the declared one is not recognised as foreign: it is read as
  if it had the declared one, which goes well exactly under the conditions of
  `CommonLists.IdListReadIff` and `CommonLists.StatListReadIff`; `CommonLists.ElementTypeIgnored` is a
  record that fails. The union's reader accepts what its writer
  refuses: `CommonCompatibility.UnionReadsTwo`, `CommonCompatibility.ReadUnionWritableIff`.

## Model

| member | source | states |
|---|---|---|
| `ChatClient.Client.constructor` | internal/api/chatroom/hub.go:108-115 | a new client is open with empty queue, window and buffer, and resuming as asked |
| `ChatClient.Client.Enqueue` | internal/api/chatroom/hub.go:262-275 | a closed client and a full queue are refused and nothing changes; otherwise the payload joins the queue and the gauge moves with it; that it leaves the queue unchanged and in its turn is `ChatQueue.TakenIsPlaced` |
| `ChatClient.Client.EnqueueChat` | internal/api/chatroom/hub.go:277-301 | the whole new state and result: duplicate suppressed, held back while resuming unless the buffer is full, else queued and remembered only if queued |
| `ChatClient.Client.EnqueueReplay` | internal/api/chatroom/hub.go:303-314 | the same for a replayed message, which is never held back |
| `ChatClient.Client.FinishResume` | internal/api/chatroom/hub.go:316-328 | resuming ends, the buffer is flushed in order up to the first refusal, and cleared only if there was none; what that means for later messages is `ChatQueue.FinishResumeEndsResuming` |
| `ChatClient.Client.RememberMessage` | internal/api/chatroom/hub.go:330-345 | blank and known ids change nothing; otherwise the id joins list and set and the overflow leaves both |
| `ChatClient.Client.Close` | internal/api/chatroom/hub.go:351-362 | only the first close sets the reason and reports true |
| `ChatClient.Client.WriterTake` | internal/api/chatroom/hub.go:422-431 | the writer takes the oldest payload and the gauge drops by one |
| `ChatClient.Client.WriterExit` | internal/api/chatroom/hub.go:415-420 | the leaving writer takes what is still queued out of the gauge |
| `ChatClient.FlushFromExactly` | internal/api/chatroom/hub.go:316-328 | an undisturbed flush places exactly as much of the buffer, in order, as the queue takes, and succeeds if and only if that is all of it |
| `ChatClientRuns.RememberWindow` | internal/api/chatroom/hub.go:330-345 | the window stays the last MessageDedupSize ids remembered, without repeats, list and set agreeing |
| `ChatClientRuns.InvStep` | internal/api/chatroom/hub.go:262-362 | every step of the client machine keeps the invariant |
| `ChatClientRuns.RunInv` | internal/api/chatroom/hub.go:262-362 | over every interleaving: both queues are bounded, the window is as above, and every id reported delivered has been placed or is still held back |
| `ChatClientRuns.ClosedAddsNothing` | internal/api/chatroom/hub.go:262-275 | after close nothing joins the send queue and the client stays closed |
| `ChatClientRuns.ExactlyOnce` | internal/api/chatroom/hub.go:277-345 | while at most MessageDedupSize distinct ids were accepted, no id is placed twice, and with nothing left to flush every accepted id has been placed exactly once |
| `ChatQueue.TakenIsPlaced` | internal/api/chatroom/hub.go:262-275 | over every run the payloads the writer has taken, followed by those still on the queue, are the payloads placed, in that order and unchanged |
| `ChatQueue.ChatRefusedIff` | internal/api/chatroom/hub.go:277-301 | a chat call returns false, and then changes nothing, exactly if its id is new and there is no room: in the buffer while resuming, on the queue of an open client otherwise |
| `ChatQueue.ChatPlaces` | internal/api/chatroom/hub.go:277-301 | an accepted chat call puts the message in exactly one place: nowhere if its id is known, else last in the buffer while resuming, else last on the queue |
| `ChatQueue.ReplayRefusedIff` | internal/api/chatroom/hub.go:303-314 | a replay call returns false exactly if its id is new and the client is closed or the queue full; else a new message is last on the queue |
| `ChatQueue.AcceptedIsSuppressed` | internal/api/chatroom/hub.go:277-345 | after either call has accepted an id, the next call of either kind under that id changes nothing and returns true |
| `ChatQueue.FlushedIsSuppressed` | internal/api/chatroom/hub.go:320-325 | the same for a message the flush has sent, even if the window had forgotten its id before |
| `ChatQueue.FreshClient` | internal/api/chatroom/hub.go:108-115 | a new resuming client holds its first live message back, any other new client queues it |
| `ChatQueue.FinishResumeIsFlushSteps` | internal/api/chatroom/hub.go:316-328 | the FinishResume call is all steps of the flush in a row, the one that ends resuming included, with the same result |
| `ChatQueue.FinishResumeEndsResuming` | internal/api/chatroom/hub.go:316-328 | after FinishResume, whatever it returned, a new live message goes on the queue at once if there is room, and none is held back |
| `ChatQueue.LiveAfterResume` | internal/api/chatroom/hub.go:277-328 | over every run in which the flush has ended, other steps in between or not, a chat call holds nothing back, succeeds exactly if the id is known or the queue has room, and then queues a new message |
| `ChatQueue.ControlsInOrder` | internal/api/chatroom/hub.go:262-275 | over every run the control payloads placed are those whose Enqueue returned true, in order, and it did so exactly if the client was open and the queue had room |
| `ChatQueue.FirstCloseCounts` | internal/api/chatroom/hub.go:351-362 | over every run a client is closed exactly if some step closed it; the first close sets the reason for good and is the only one to report true |
| `ChatFlush.FlushPlaces` | internal/api/chatroom/hub.go:316-328 | an undisturbed flush adds to what was sent exactly the held messages the queue has room for, in order, and succeeds if and only if none is left |
| `ChatFlush.FlushLosesNothingIff` | internal/api/chatroom/hub.go:316-328 | from every reachable client about to flush, within the window, every accepted id ends up sent, exactly once, if and only if all held messages beyond the room on the queue carry a blank id |
| `ChatFlush.FlushLosesNothingIfItFits` | internal/api/chatroom/hub.go:316-328 | without blank ids: if and only if everything held fits the queue, which is also when FinishResume returns true |
| `ChatFlush.FlushCanFail` | internal/api/chatroom/hub.go:316-328 | a run in which the flush fails and an id whose EnqueueChat returned true is not sent |
| `ChatFlush.FlushKeepsOrderIff` | internal/api/chatroom/hub.go:303-328 | after an undisturbed flush the chat messages sent are in lesson order if and only if those sent before are, those it sends are, and none sent before has a greater number than one it sends |
| `ChatClientRuns.FlushAloneIsFinishResume` | internal/api/chatroom/hub.go:316-328 | the flush steps of the machine with nothing in between are the FinishResume call |
| `ChatClientRuns.LiveStreamIsFiltered` | internal/api/chatroom/hub.go:277-301 | for a client that is not resuming, the chat payloads sent are the broadcast stream filtered by "id blank, or not among the last MessageDedupSize ids kept" |
| `ChatFleet.GaugeIsQueued` | internal/api/chatroom/hub.go:410-463 | over every interleaving of all clients the gauge is the number of payloads queued at clients whose writer has not returned |
| `RoomRegistry.Manager.RegisterClient` | internal/api/chatroom/hub.go:208-218 | the client joins the indexed room of its lesson, which is created if there is none; no other room changes |
| `RoomRegistry.Manager.FindRoom` | internal/api/chatroom/hub.go:224-229 | the lookup gives the indexed room, if any |
| `RoomRegistry.Manager.RemoveClient` | internal/api/chatroom/hub.go:231-241 | the client leaves this room; whether it was there and whether the room is now empty |
| `RoomRegistry.Manager.PruneRoom` | internal/api/chatroom/hub.go:245-257 | the room leaves the index exactly if it is still current and still empty |
| `RoomRegistry.Manager.UnregisterClient` | internal/api/chatroom/hub.go:223-258 | undisturbed, the whole new hub is that of the three sections in a row |
| `RoomRegistry.UnregisterExactly` | internal/api/chatroom/hub.go:223-258 | undisturbed, exactly this client leaves its lesson's room, the room goes exactly if nobody else was in it, no other lesson is touched, and nothing changes if the client was not there |
| `RoomRegistry.UnregisterUndoesRegister` | internal/api/chatroom/hub.go:208-258 | unregistering right after registering leaves everybody connected where they were before |
| `RoomRegistryRuns.ConnectedIsLive` | internal/api/chatroom/hub.go:195-206 | in every reachable state the clients ConnectionCount counts are those registered for the lesson and not yet removed |
| `RoomRegistryRuns.InvStep` | internal/api/chatroom/hub.go:208-258 | every critical section and every metric update keeps the registry invariant |
| `RoomRegistryRuns.RegistrySafe` | internal/api/chatroom/hub.go:208-258 | every registered, not yet removed client is in the indexed room of its lesson and nowhere else; rooms out of the index are empty; no client is removed twice; at rest no indexed room is empty |
| `RoomRegistryRuns.DetachedInRun` | internal/api/chatroom/hub.go:245-257 | a room that is out of the index in one state of a run is out of it and empty in every later one |
| `RoomRegistryRuns.LabelExactIffBalancedDelete` | internal/api/chatroom/hub.go:219-253 | at rest the label of a lesson is its number of clients if and only if increments and decrements owed at its last deletion balanced |
| `RoomRegistryRuns.LabelDrifts` | internal/api/chatroom/hub.go:219-253 | a run that ends at rest with a label of 1 for a lesson without clients |
| `Delivery.InvStep` | internal/api/chatroom/hub.go:168-193 | every step of the protocol keeps its invariant, whatever the interleaving |
| `Delivery.ComingStep` | internal/api/chatroom/hub.go:168-193 | a delivery that is due stays due until it is made, reported as suppressed, or the client is closed |
| `Delivery.GapFreeResume` | internal/api/service/chat_ws.go:252-262 | an open client that has resumed has had every stored message after its anchor placed on its queue, or that message's delivery is still to come |
| `Provenance.RunSourced` | internal/api/chatroom/hub.go:277-328 | nothing is sent or held back that was not stored, each under its own id |
| `Provenance.RunReplayed` | internal/api/service/chat_ws.go:268-324 | whatever was sent by the replay is a stored message that ranks after the anchor |
| `Provenance.RunLive` | internal/api/chatroom/hub.go:168-193 | whatever was sent live, or is held back, was handed over to this client by a broadcast that found it in the room and was not refused |
| `Provenance.HandedOverIsReported` | internal/api/chatroom/hub.go:277-301 | whatever was so handed over counts as delivered from then on |
| `Provenance.HandedOverWasFound` | internal/api/chatroom/hub.go:168-193 | whatever a broadcast handed to this client, it had found the client in the room before |
| `EndToEnd.ShowsPlacedUpToHole` | frontend/chat_order_buffer.js:20-60 | in every reachable state, no two stored messages having one number n or above and maxPending covering the numbers in use above n: fed with what the hub placed, the buffer started at n never overflows, shows the placed messages without a number and those numbered from n up to the first number no placed message carries, each once and those in order, and holds exactly the ones beyond |
| `EndToEnd.ReceivedIsPlacedPrefix` | internal/api/chatroom/hub.go:410-431 | in every reachable state the messages the browser has been handed, made of the payloads the writer has really taken, are a prefix of those placed for it, and all of them once the queue is empty |
| `EndToEnd.ShowsTakenUpToHole` | frontend/chat_order_buffer.js:20-60 | the same theorem for the messages that have arrived so far: this is what the browser shows at that moment |
| `EndToEnd.PlacedIffReached` | internal/api/service/chat_ws.go:252-262 | at rest (an open client has resumed, everything stored after it registered has been broadcast, every broadcast is over) a stored message has been placed if and only if it ranks after the anchor or some broadcast of it found the client in the room and was not refused |
| `EndToEnd.ShownIff` | frontend/chat_order_buffer.js:20-60 | at rest and under the same conditions on numbers and maxPending, a stored message with a number is shown if and only if that is n or above and every number from n up to it belongs to a message so reached; one without a number if and only if it was reached itself |
| `EndToEnd.ShowsAllIff` | frontend/chat_order_buffer.js:20-60 | at rest and under the same conditions, all stored messages numbered n and up are shown if and only if their numbers have no hole from n on and each of them ranks after the anchor or was handed over by a broadcast |
| `EndToEnd.ShowsBlockIff` | frontend/chat_order_buffer.js:20-60 | at rest, if every stored message has a number, those numbered n and up are numbered n, ..., n+k-1 without a hole, and maxPending >= k-1: the buffer never overflows, and shows exactly these k messages in order, holding nothing, if and only if each of them ranks after the anchor or was handed over by a broadcast |
| `EndToEnd.ShownInLessonOrder` | frontend/chat_order_buffer.js:20-60 | at rest, if the stored messages after the anchor are numbered n, ..., n+k-1 without a hole, those at or before it have numbers from 1 to n-1, and maxPending >= k-1: the buffer shows the messages after the anchor once each, in lesson order, nothing missing, nothing held |
| `ResumeWitnesses.RankedBeforeAnchorIsMissed` | internal/rpc/chat/handler.go:68-106 | a run that resumes with a message numbered after the anchor but ranked before it, which is never sent and never shown |
| `ResumeWitnesses.LostNumberStopsTheBuffer` | internal/rpc/chat/handler.go:100-110 | a run that resumes with a message numbered 3 placed and nothing missed, while 2 belongs to no message: the buffer started at 2 shows nothing, holds 3 and has asked for 2 |
| `ResumeWitnesses.HubMayReorder` | internal/api/chatroom/hub.go:303-328 | a run of the whole protocol in which the hub sends lesson numbers 1, 3, 2 and the browser shows 1, 2, 3 |
| `ResumeWitnesses.ResumeReachable` | internal/api/chatroom/hub.go:368-389 | a run in which a message stored before the client joined is replayed and the client resumes |
| `HistoryReplay.GetGivesPiece` | internal/rpc/chat/dao/mongo.go:306-355 | a page is the next full batch with more to come, or all the rest; an unknown anchor or a fault is the only other reply |
| `HistoryReplay.OfferPage` | internal/api/service/chat_ws.go:299-311 | the messages of a page are offered in order up to the first refusal, and the status names exactly those taken |
| `HistoryReplay.ReadPage` | internal/api/service/chat_ws.go:274-298 | a failed, empty or unreadable reply ends the replay with its error; any other is the next piece of the history |
| `HistoryReplay.OfferReply` | internal/api/service/chat_ws.go:299-311 | after a page the messages offered are a prefix of those missed, or a refusal has ended the replay |
| `HistoryReplay.ReplayMissed` | internal/api/service/chat_ws.go:268-324 | the loop terminates; it completes if and only if the anchor is known, no call fails and no message is refused; then it has offered the first min(1000, missed) in order, and truncation is reported exactly if more were missed |
| `OrderBuffer.ChatOrderBuffer.Push` | frontend/chat_order_buffer.js:20-43 | the whole new state and result of one push, the thrown error included |
| `OrderBuffer.ChatOrderBuffer.EmitAndAdvance` | frontend/chat_order_buffer.js:48-60 | the message is shown, then everything held that follows without a hole; the gap request ends when nothing is held |
| `OrderBuffer.DrainRefines` | frontend/chat_order_buffer.js:52-58 | draining ends at the least number not accepted, with exactly the accepted numbers above it still held |
| `OrderBuffer.PushRefines` | frontend/chat_order_buffer.js:20-60 | one push is one step of the set-based specification, with the same result |
| `OrderBufferRuns.RunRefines` | frontend/chat_order_buffer.js:20-60 | over every run the buffer and the set-based specification agree on every result and stay related |
| `OrderBufferRuns.OutputIsTheAcceptedPrefix` | frontend/chat_order_buffer.js:20-60 | from n > 0, after every run in which an id fixes its number, the numbered output is n, n+1, ..., nextSeq-1, nextSeq is the least number not accepted, exactly the accepted numbers above it are held, and no more than maxPending of them |
| `OrderBufferRuns.StartsAtFirstNumber` | frontend/chat_order_buffer.js:29-31 | a buffer started at 0 behaves as one started at the first number it is given |
| `OrderBufferRuns.StartsAtFirstNumberRun` | frontend/chat_order_buffer.js:12-31 | over every run from 0, messages without a number before the first numbered one included, the buffer does exactly what one started at that number does |
| `OrderBufferRuns.FreeIsLostIffIdShown` | frontend/chat_order_buffer.js:22-22 | over every run a message whose number is neither shown nor held is ignored if and only if a message with its id has been shown |
| `OrderBufferRuns.ReusedIdIsLostIff` | frontend/chat_order_buffer.js:22-22 | of two messages with one id, both numbered from the start on, the second is lost if and only if the first is shown at once |
| `OrderBufferRuns.Converges` | frontend/chat_order_buffer.js:20-60 | every order, with repetitions, of a block of k messages and maxPending >= k-1 never throws and ends with the block shown in order, nothing held, no gap outstanding |
| `OrderBufferRuns.ConvergesIff` | frontend/chat_order_buffer.js:20-60 | given nothing but messages of the block and stale ones, the buffer never throws and shows the whole block if and only if it was given all of it |
| `OrderBufferHoles.EverythingUpToTheHole` | frontend/chat_order_buffer.js:20-60 | from n > 0, given any messages in any order with any repeats, no id and no number from n on used twice and maxPending covering the numbers above n: nothing is thrown; shown are the messages without a number and those numbered from n up to the first number not given, each once and those in order; held are exactly the ones beyond |
| `OrderBufferHoles.EverythingFromZero` | frontend/chat_order_buffer.js:12-60 | the same from 0: nothing is thrown, every message without a number is shown, and once a numbered one has come the buffer shows up to the first hole from its number on |
| `OrderBufferGaps.GapAsksOnlyForMissing` | frontend/chat_order_buffer.js:35-38 | a push asks for at most one range, only when nothing was held, and no number in it was shown or held |
| `OrderBufferGaps.RunKeepsRequestShape` | frontend/chat_order_buffer.js:35-59 | over every run, from any start and with ids reused or not, a request is outstanding exactly while something is held, and every range asked for ends below nextSeq or just below a number that is held |
| `OrderBufferGaps.AlwaysCoveredIffNoSecondHole` | frontend/chat_order_buffer.js:35-38 | over every run, every missing number has been asked for at every moment if and only if no accepted push, made while something was held, left a hole above all of that |
| `OrderBufferGaps.NotAskedUntilItArrives` | frontend/chat_order_buffer.js:35-38 | over every run, a missing number that was not asked for is never asked for, and the buffer does not pass it, until a message that carries it is accepted |
| `OrderBufferGaps.SecondHoleWaits` | frontend/chat_order_buffer.js:35-38 | over every run, after a push that opened a second hole the number just below it stays missing and unasked for until it arrives |
| `OrderBufferGaps.SecondGapNeverRequested` | frontend/chat_order_buffer.js:35-38 | after 3, 5, 1, 2 the buffer waits for 4, which was never asked for |
| `CircuitBreaker.NewCircuitBreaker` | internal/resilience/breaker.go:50-63 | exactly the acceptable configurations give a breaker, closed and without history |
| `CircuitBreaker.Breaker.Acquire` | internal/resilience/breaker.go:65-86 | the whole new state and whether a permit is granted |
| `CircuitBreaker.Breaker.StateNow` | internal/resilience/breaker.go:95-102 | the state reported is the one an Acquire at that moment acts in, Open exactly if that Acquire is refused because the breaker is open |
| `CircuitBreaker.Breaker.Record` | internal/resilience/breaker.go:104-151 | the whole new state after one result; when it opens is `BreakerWindow.OpensExactlyOnWindow` and `BreakerRuns.ClosesOnlyOnProbes` |
| `CircuitBreaker.Permit.Done` | internal/resilience/breaker.go:88-93 | only the first call records |
| `BreakerRuns.ProbesStep` | internal/resilience/breaker.go:65-128 | every step keeps the probe counters within their bounds and in-flight probes below the permits outstanding |
| `BreakerRuns.HalfOpenBound` | internal/resilience/breaker.go:79-84 | in every reachable state, stale permits included, both probe counters are bounded and the episode has granted at most 2*HalfOpenProbes - 1 permits |
| `BreakerEpisodes.BoundIsReached` | internal/resilience/breaker.go:79-84 | for every configuration a run from a new breaker in which one episode has granted that many |
| `BreakerRuns.NeverStuck` | internal/resilience/breaker.go:65-86 | with no permit outstanding, Acquire grants if and only if the breaker is not within its open time, that is, unless it leaves the breaker open |
| `BreakerRuns.SliceIsWindow` | internal/resilience/breaker.go:130-138 | dropping the stale prefix of the slice is filtering the whole history |
| `BreakerWindow.OpensExactlyOnWindow` | internal/resilience/breaker.go:130-150 | after a record in Closed the slice is all outcomes since the last close not older than the window, and the breaker is open exactly if there are at least MinimumRequests of them and the number of failures among them is at least FailureThreshold times theirs |
| `BreakerWindow.ThresholdExtremes` | internal/resilience/breaker.go:57-59 | with every accepted threshold, enough outcomes without a failure never open the breaker and enough failures alone always do |
| `BreakerRuns.OpenStep` | internal/resilience/breaker.go:70-78 | records while Open change nothing; Open is left only by a granted Acquire after the open time, to HalfOpen |
| `BreakerRuns.OpenLastsLongEnough` | internal/resilience/breaker.go:70-78 | at least OpenDuration passes between an opening and the next grant |
| `BreakerRuns.ClosesOnlyOnProbes` | internal/resilience/breaker.go:109-125 | the breaker closes exactly when the half-open episode has recorded HalfOpenProbes results, all successful |
| `BreakerEpisodes.StrangerCountedIff` | internal/resilience/breaker.go:104-125 | in every run, the half-open episode an Acquire begins can come to count the result of an earlier permit if and only if some permit was outstanding when it began |
| `BreakerEpisodes.ClosedByStranger` | internal/resilience/breaker.go:104-125 | a run from a new breaker in which a stale success closes it while its only probe is still out |
| `BreakerEpisodes.ProbesAreOwn` | internal/resilience/breaker.go:104-125 | an episode that began with no permit outstanding counts only its own results |
| `Executor.TryOnce` | internal/resilience/executor.go:41-68 | one attempt: permit, call, and the permit finished with the call's result, other callers acting in between; what the breaker gets is `Executor.BreakerIsReplayed` |
| `Executor.Do` | internal/resilience/executor.go:21-85 | result, breaker and acts are those of the recursive reference over the attempts |
| `Executor.DoExactly` | internal/resilience/executor.go:21-85 | the number of calls is at most max(1, Attempts); all but the last failed, were retryable and backed off without error; each attempt asks, calls and finishes with its own call's success at its own times; and the result is that of the last call, or of the context or the refusal that kept the next one from being made |
| `Executor.BreakerIsReplayed` | internal/resilience/executor.go:41-68 | the breaker after Do is its acts applied to the one before in order: an Acquire per request, the other callers' steps, and a record of the success each finish carries; and each request was answered as the breaker then answers it |
| `Executor.CallsBounded` | internal/resilience/executor.go:25-81 | Do calls the operation at most max(1, Attempts) times, and exactly so often when it always fails, is to be retried and nothing refuses |
| `Executor.PermitsFinished` | internal/resilience/executor.go:41-68 | every permit acquired is finished exactly once, before the next request or the return; Do succeeds exactly if its last act is finishing a success |
| `ThriftBinary.SignedOfBigEndian` | idl/kitex_gen/common/k-common.go:100-112 | two's complement big-endian integers read back as written |
| `ThriftBinary.BigEndianOfSigned` | idl/kitex_gen/common/k-common.go:166-171 | and every byte sequence is the encoding of the integer read from it |
| `CommonBytes.BigEndianIsDigits` | idl/kitex_gen/common/k-common.go:166-171 | an integer is written as its digits to base 256, most significant first |
| `CommonBytes.TypeCodes` | idl/kitex_gen/common/k-common.go:31-89 | the code, width and layout of every type of value |
| `ThriftBinary.SkipsWellFormed` | idl/kitex_gen/common/k-common.go:82-88 | skipping any well-formed value, nested to any depth, ends right after its bytes |
| `ThriftParsing.SkipsExactlyWellFormed` | idl/kitex_gen/common/k-common.go:82-88 | skipping ends at an offset if and only if the bytes up to there are the encoding of a well-formed value of that type |
| `CommonRecords.GetAfterSet` | idl/kitex_gen/common/k-common.go:100-138 | assigning a field changes that field and no other |
| `CommonRecords.FieldsDetermine` | idl/kitex_gen/common/k-common.go:781-926 | a record is determined by its fields |
| `CommonReader.ReadField` | idl/kitex_gen/common/k-common.go:39-89 | one loop turn keeps the kind of record and consumes at least one byte |
| `CommonReader.ReadsField` | idl/kitex_gen/common/k-common.go:31-89 | one loop turn on a well-formed field applies it and passes exactly its bytes |
| `CommonReader.ReadsRecord` | idl/kitex_gen/common/k-common.go:23-98 | on any well-formed struct, fields in any order, repeated, missing or foreign, the reader assigns the fields one by one and stops right after STOP |
| `CommonFormat.ValRoundTrip` | idl/kitex_gen/common/k-common.go:1026-1049 | every field value, nested structs and lists included, is written well-formed and means itself |
| `CommonFormat.RecordRoundTrip` | idl/kitex_gen/common/k-common.go:1055-1069 | though fields are written out of id order, assigning them restores the record |
| `CommonFormat.RoundTrip` | idl/kitex_gen/common/k-common.go:23-153 | reading what was written, wherever it stands and whatever follows, gives the record and consumes exactly the bytes written |
| `CommonBytes.BytesAreLayout` | idl/kitex_gen/common/k-common.go:140-185 | the exact bytes written for every record of every kind: type codes, field ids, order of the fields, lengths and digits |
| `CommonCompatibility.ForeignFieldIgnored` | idl/kitex_gen/common/k-common.go:82-88 | a well-formed field of unknown id or other type between any two fields leaves the record unchanged and moves the end by exactly its length |
| `CommonCompatibility.CleanMeans` | idl/kitex_gen/common/k-common.go:1452-1597 | foreign fields at any depth, in nested structs and list elements, do not change what is read |
| `CommonCompatibility.NeighboursCommute` | idl/kitex_gen/common/k-common.go:781-926 | fields with different ids may be exchanged |
| `CommonCompatibility.RecordExtends` | idl/kitex_gen/common/k-common.go:23-98 | what can be read from a prefix is read alike from the longer buffer |
| `CommonCompatibility.TruncationDetected` | idl/kitex_gen/common/k-common.go:92-98 | no strict prefix of a written record can be read |
| `CommonCompatibility.FailedReadKeepsFields` | idl/kitex_gen/common/k-common.go:23-98 | a read that fails has assigned exactly the fields before the one it fails in |
| `CommonCompatibility.CutBetweenFields` | idl/kitex_gen/common/k-common.go:31-98 | a written record cut off behind some of its fields gives exactly these, and an error |
| `CommonLists.IdListReadIff` | idl/kitex_gen/common/k-common.go:618-640 | a well-formed list of any element type is read as ids if and only if eight bytes per element are left in the buffer, and the read ends where the list ends if and only if its elements take eight bytes each on average |
| `CommonLists.StatListReadIff` | idl/kitex_gen/common/k-common.go:1026-1049 | a well-formed list of any element type is read as statistics if and only if as many well-formed structs start behind its header, and the read ends where the list ends if and only if these are made of exactly its elements' bytes, as they are for a list of structs |
| `CommonLists.StatEndsAsSkipped` | idl/kitex_gen/common/k-common.go:1210-1271 | reading a statistic ends where skipping a struct would, on any bytes |
| `CommonLists.ElementTypeIgnored` | idl/kitex_gen/common/k-common.go:618-640 | a lesson record whose id list holds two bytes, well-formed and not foreign by its type, which cannot be read |
| `CommonCompatibility.UnionReadsTwo` | idl/kitex_gen/common/k-common.go:1452-1597 | the union's reader accepts two fields |
| `CommonCompatibility.ReadUnionWritableIff` | idl/kitex_gen/common/k-common.go:1717-1739 | what the union's reader gives can be written if and only if the struct read declares exactly one field, however often repeated |
| `CommonWriter.WriteIdsField` | idl/kitex_gen/common/k-common.go:716-728 | elements first, header patched in afterwards, gives exactly the bytes of the list field and touches nothing else |
| `CommonWriter.LengthIsById` | idl/kitex_gen/common/k-common.go:1071-1085 | the lengths of the fields, added in id order, make the length of the bytes written in writing order |
| `CommonWriter.WrittenReadsBack` | idl/kitex_gen/common/k-common.go:140-153 | a record written into a buffer is read back from there, whatever else the buffer holds |
| `FlatStructs.ReadIdList` | idl/kitex_gen/common/k-common.go:618-640 | the loop reads as many ids as the header says, or fails |
| `FlatStructs.User.FastRead` | idl/kitex_gen/common/k-common.go:212-301 | the struct and the end offset, or the error with the fields assigned so far, are those of ReadRecord |
| `FlatStructs.User.FastWrite` | idl/kitex_gen/common/k-common.go:359-373 | the buffer holds exactly the struct's bytes from the offset on and is unchanged elsewhere |
| `FlatStructs.User.BLength` | idl/kitex_gen/common/k-common.go:375-385 | the number of bytes FastWrite writes |
| `FlatStructs.Lesson.FastRead` | idl/kitex_gen/common/k-common.go:443-560 | the struct and the end offset, or the error with the fields assigned so far, are those of ReadRecord on the bytes |
| `FlatStructs.Lesson.FastWrite` | idl/kitex_gen/common/k-common.go:656-672 | the buffer holds exactly the struct's bytes from the offset on, fields in the order 1, 6, 2, 3, 4, 5, and is unchanged elsewhere |
| `FlatStructs.Lesson.BLength` | idl/kitex_gen/common/k-common.go:674-686 | the number of bytes FastWrite writes |
| `FlatStructs.QuizStat.FastRead` | idl/kitex_gen/common/k-common.go:1210-1271 | the struct and the end offset, or the error with the fields assigned so far, are those of ReadRecord on the bytes |
| `FlatStructs.QuizStat.FastWrite` | idl/kitex_gen/common/k-common.go:1301-1313 | the buffer holds exactly the struct's bytes from the offset on, fields in the order 2, 1, and is unchanged elsewhere |
| `FlatStructs.QuizStat.BLength` | idl/kitex_gen/common/k-common.go:1315-1323 | the number of bytes FastWrite writes |
| `FlatStructs.Chat.FastRead` | idl/kitex_gen/common/k-common.go:1353-1400 | the struct and the end offset, or the error with the fields assigned so far, are those of ReadRecord on the bytes |
| `FlatStructs.Chat.FastWrite` | idl/kitex_gen/common/k-common.go:1416-1427 | the buffer holds exactly the struct's bytes from the offset on, fields in the order 1, and is unchanged elsewhere |
| `FlatStructs.Chat.BLength` | idl/kitex_gen/common/k-common.go:1429-1436 | the number of bytes FastWrite writes |
| `NestedStructs.ReadStatList` | idl/kitex_gen/common/k-common.go:1026-1049 | each statistic is read into a new struct, as many as the header says, or the list fails |
| `NestedStructs.Quiz.FastRead` | idl/kitex_gen/common/k-common.go:781-926 | the struct and the end offset, or the error with the fields assigned so far, are those of ReadRecord on the bytes, the list of statistics read into new structs |
| `NestedStructs.Quiz.WriteStats` | idl/kitex_gen/common/k-common.go:1136-1148 | the list of statistics is written behind the place of its header, which is patched in afterwards |
| `NestedStructs.Quiz.FastWrite` | idl/kitex_gen/common/k-common.go:1051-1069 | the buffer holds exactly the struct's bytes from the offset on, fields in the order 1, 2, 4, 7, 3, 5, 6, 8, and is unchanged elsewhere |
| `NestedStructs.Quiz.BLength` | idl/kitex_gen/common/k-common.go:1071-1085 | the number of bytes FastWrite writes, the statistics added up in a loop |
| `NestedStructs.Data.CountIsView` | idl/kitex_gen/common/common.go:468-495 | the number of fields set |
| `NestedStructs.Data.FastRead` | idl/kitex_gen/common/k-common.go:1452-1597 | the union and the end offset, or the error with the fields set so far, are those of ReadRecord; a nested struct is attached only when it was read to its end |
| `NestedStructs.Data.FastWrite` | idl/kitex_gen/common/k-common.go:1717-1739 | panics if and only if not exactly one field is set; otherwise the buffer holds exactly its bytes from the offset on and is unchanged elsewhere |
| `NestedStructs.Data.BLength` | idl/kitex_gen/common/k-common.go:1741-1763 | panics under the same condition; otherwise the number of bytes FastWrite writes |
| `NestedStructs.Resp.FastRead` | idl/kitex_gen/common/k-common.go:23-98 | the response and the end offset, or the error with the fields assigned so far, are those of ReadRecord; its data is attached only when read to its end |
| `NestedStructs.Resp.FastWrite` | idl/kitex_gen/common/k-common.go:140-153 | panics if and only if its union does; otherwise the buffer holds exactly its bytes from the offset on and is unchanged elsewhere |
| `NestedStructs.Resp.BLength` | idl/kitex_gen/common/k-common.go:155-164 | panics if and only if its union does; otherwise the number of bytes FastWrite writes |
| `LatencyHistogram.Histogram.Add` | cmd/chatbench/histogram.go:20-27 | buckets, count and maximum stay those of all samples, the new one included |
| `LatencyHistogram.Histogram.Quantile` | cmd/chatbench/histogram.go:35-48 | the loop's answer in terms of the exact nearest-rank quantile of the samples |
| `LatencyHistogram.Histogram.Summarize` | cmd/chatbench/histogram.go:29-50 | the summary of all samples, zeros when there are none |
| `LatencyHistogram.Histogram.BucketsSumToCount` | cmd/chatbench/histogram.go:20-27 | the buckets add up to the count |
| `LatencyHistogram.RankBucket` | cmd/chatbench/histogram.go:36-46 | the r-th smallest sample is in bucket b or below exactly when the buckets up to b hold at least r samples |
| `LatencyQuantiles.QuantileErrorBound` | cmd/chatbench/histogram.go:35-48 | the answer is the exact quantile rounded up to a whole millisecond, less than 1 ms above it, or the true maximum when the quantile is above 600000 ms; exact means: a sample, with at least the share p of all samples not above it and less than that below it |
| `LatencyQuantiles.QuantileIsNearest` | cmd/chatbench/histogram.go:36-36 | the nearest-rank quantile is the only value with that property |
| `LatencyQuantiles.SummaryMeans` | cmd/chatbench/histogram.go:29-49 | the summary names the number of samples, the exact quantiles for 0.5, 0.95 and 0.99 rounded up, and the greatest sample |
| `LatencyHistogram.QuantileMonotone` | cmd/chatbench/histogram.go:35-48 | the answers grow with p |
| `LatencyHistogram.SummaryOrdered` | cmd/chatbench/histogram.go:49-49 | P50 <= P95 <= P99 |
| `LatencyHistogram.QuantileAboveMaximumIff` | cmd/chatbench/histogram.go:35-48 | an answer exceeds the maximum exactly when the quantile shares the maximum's bucket, that is not the overflow bucket, and the maximum is not whole |
| `LatencyHistogram.P99AboveMax` | cmd/chatbench/histogram.go:49-49 | one sample of 0.3 gives a P99 of 1 |

## Left out

- Locks, channels and goroutines as such: a critical section is one step, a send on the channel
  and its gauge update are one step, and `Enqueue` inside a flush is a step of its own because
  control messages and the writer may come between.
- Close frames, pings, the pong timer, socket reads and writes: only "the writer takes one payload"
  and "the writer exits" are steps. A parent context that is cancelled without a close is not
  modelled, since the session's context cannot be cancelled that way.
- Prometheus metrics other than the queue depth and the per-lesson connection label.
- Validation of the hub's time settings and message size.
- `Delivery`: deletion of a lesson's messages, and the setting of a message's number after it was
  stored: a stored message has its number, or none, for good.
- `Delivery`: a restarted broadcast of a message is a further cast of the same entry; how the
  outbox worker decides to repeat one is not modelled.
- `HistoryReplay`: an anchor made of blanks only, which the history service treats as no anchor; a
  history service that reports more messages with an empty page but a non-blank cursor, with which
  the loop would go on; permission checks and the JSON text of a page.
- `EndToEnd`: the browser's own reconnect logic and how it answers a gap request.
- Message payloads are values that carry the id and number they announce; JSON encoding does not fail.
- `Executor`: the operation returns (a panic in it leaves a permit unfinished); attempt time-outs
  and the length of the backoff are not modelled, only whether the backoff ended with an error.
- Floating point: thresholds, milliseconds and count*p are exact reals.
- Codec: the generated packages other than `common`; nil list elements and nil receivers; the
  difference between a nil and an empty list where the field is not optional; the no-copy writer;
  error texts; the library's limit on nesting depth when skipping; memory a hostile list size
  would reserve.
- `NestedStructs.Resp.FastWrite`: says nothing about the buffer when it panics half-way.
- HTTP handlers, rate limits, Kafka, Redis, MongoDB drivers, the mall services and the benchmark
  drivers: input and output around the modelled logic.
