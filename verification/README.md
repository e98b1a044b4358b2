# Peer protocol: a verified model

This project models the core of the peer library in Dafny and proves what its protocols keep over
whole runs. It covers four connected pieces:

* the session engine (`infrastructure/peer/conn`): a symmetric multiplexing protocol with two
  identifier halves, pending calls and opens, streams with two bounded queues, half-close, terminal
  frames, cancellation and teardown;
* the revocation manager (`infrastructure/peer/security/revocation.go`): a monotone checkpoint, a
  canonical digest, a set of active connections and an expiry timer guarded by a generation counter;
* the frame codec (`infrastructure/peer/codec/frame.go`) and the size limits around it;
* admission and error mapping (`application/peer/router.go`, `domain/peer/status.go`).

`dafny verify dfyconfig.toml` checks everything.

## How it is built

Protocols are step systems. A label names what one goroutine does between two lock, channel or write
operations; a run is any sequence of steps; theorems speak of every reachable state or every run.
Objects that the code mutates under a lock are classes whose methods are tied to functions on the
object's state, and the step systems use those same functions. What a function decides or computes is
also stated without it: field by field, byte by byte, or as what its users can observe over whole runs.

| files | content |
|---|---|
| `Status` | error trees, status codes, the terminal frame body |
| `Stream` | one live stream as an object |
| `StreamPair`, `StreamConservation`, `StreamTermination` | two endpoints sharing a stream; conservation; terminals |
| `StreamEnds`, `StreamServing` | over all runs: why a stream ended, as its opener is told; what the serving side reports |
| `StreamRace`, `StreamFlow` | the race between a delivery and a stream's release; the outbound queue |
| `StreamProgress`, `StreamReport`, `StreamReportRuns` | when a handler's terminal is certain to be reported; concrete runs |
| `Session`, `Engine`, `Dispatcher` | the session's registries as an object; one endpoint as a step system under arbitrary inbound frames |
| `IdSpace`, `Waiters`, `CallServing`, `CallSettling`, `CallOrder`, `Cancellation` | invariants of one endpoint |
| `SessionRules` | one endpoint: violations end the session, what end closes and cancels, acknowledged streams |
| `Calls`, `Opens` | two endpoints: call correlation and cancellation; opening streams |
| `Router`, `Budget` | admission; slot accounting across sessions |
| `Codec`, `Writer`, `WireSize` | framing, partial writes, exact size bound |
| `Canonical`, `TrustRoots`, `CheckpointDigest` | byte order, sorting, canonical digests |
| `Revocation`, `RevocationManager`, `RevocationRules` | validation and verification, the manager object; the rules field by field |
| `RevocationHistory`, `Fencing` | monotonicity and restart; fencing and expiry |

## Assumptions

* A transport is ordered and reliable until it is closed; a write fails after Close; a failed write
  stays failed (`Writer.FailStop`, with a counterexample that shows why it is needed).
* A conforming peer is another instance of the same engine with equal limits.
* There is one clock that never goes back, and each manager method reads it once.
* An endpoint allocates at most 2^63 identifiers in one session. The 64-bit counter repeats exactly
  beyond that (`Session.AllocationsCollideIffPeriodApart`).
* Two SHA-256 digests are equal exactly when the hashed bytes are. Digests are a datatype over their
  preimage; the hex texts stored for issuers and CRLs are 64 hex digits.
* Protocol Buffers bodies round-trip; only their sizes are modelled (`WireSize`), for method names
  that are valid UTF-8.

## What the model shows about the code

* **A stream's terminal frame can go unreported although nothing disturbs the stream.** On a session
  that carries this stream alone there are four ways, and no others.
  - A message of the opener is on its way, or the opener may still send one: the reader looks a stream
    up before it delivers to it, and if the handler releases the stream in between, the delivery fails
    and the whole session ends (`StreamRace.NotQuietIsLost`, concrete run
    `StreamRace.TerminalCanBeLost`).
  - The handler half-closed and then returned a failure: the pump has stopped behind the close frame,
    and the barrier of flushOutbound is never taken (`StreamReport.HalfClosedFailureIsNeverReported`,
    concrete run `StreamReportRuns.FailureAfterHalfClose`).
  - Send accepted a message that the frame writer refuses, which ends the session
    (`StreamReport.OversizedReturnIsNeverReported`, concrete run
    `StreamReportRuns.FailureAfterOversizedMessage`). It needs no race, and can happen exactly when
    MaxStreamMessageBytes is above what fits in MaxMessageBytes (`WireSize.AcceptedIsWritableIff`): never
    under the default limits, always when the two are equal, as in the conformance fixtures
    (`WireSize.StreamLimitsInUse`).
  - The frame writer refuses the terminal frame itself, which needs a limit below 25 bytes
    (`WireSize.EndRefusedIff`, `StreamReportRuns.PlainFailure`).

  At the moment a handler returns, its report is certain if and only if none of the four applies
  (`StreamReport.ReturnIsReportedIff`). The last three are conditions that the handler knows; that
  nothing of the opener is on its way follows from having seen io.EOF (`StreamRace.SeenEofIsQuiet`). With
  limits that fit, only the first two are left (`StreamReport.LimitsThatFit`). "Certain" means that no
  undisturbed run gets to a point from which the terminal can no longer be written, as long as a handler
  that has returned no longer uses its stream (`StreamReport.LateHalfCloseCanBlock` shows why that has to
  be said). A cancellation, a failed transport and a shutdown disturb the stream; so does another call or
  stream that ends the same session.
* **A failed acknowledgement loses a router stream slot for good**, although the router's comments say
  that what is reserved is released (`Budget.LeaksAreForever`). It also ends its session, so a session
  loses at most one slot (`Budget.OneLossForEachSession`); but whatever the limit, enough sessions lose
  the whole stream budget (`Budget.EveryBudgetCanBeLost`), and then no stream is ever admitted again
  (`Budget.ExhaustedForGood`).
* **Payloads just below MaxMessageBytes pass the payload check and then end the session**, because the
  frame writer also counts tags, lengths and the method name; the gap is given in closed form for
  requests, results and stream messages (`WireSize.RequestRefusedIff`, `WireSize.RequestGap`,
  `WireSize.ResultRefusedIff`, `WireSize.DataRefusedIff`).
* A stream that ended with its session can look as if the peer had ended it: when the connection is
  lost between two frames, or closed in good order, Recv reports the same error as for a stream that the
  peer finished (`StreamEnds.SessionEndIsRecorded`, `StreamEnds.RecvTellsWhy`).
* A short write without an error, on a transport that then goes on, leaves a byte stream that is no
  longer whole frames and one part (`Writer.ShortWriteCorruptsTheStream`, one such transport).
* The checkpoint digest covers neither the CRL number nor the next update
  (`CheckpointDigest.DigestIgnoresNumberAndExpiry`).
* The concatenation of trust roots determines the roots only for complete DER objects
  (`TrustRoots.AmbiguousWithoutPrefixFreedom`).
* Where the code and its comments disagree the model follows the code: Apply's comment promises that
  every session is closed before it returns, but the fence stops waiting after five seconds, so the
  model lets Apply return first; `terminal` is said to map a clean end onto io.EOF but returns
  ErrStreamClosed; Send is documented to block while the queue drains but never blocks; and CloseSend
  on a cancelled stream without a recorded terminal reports success.

## Model

| member | source | states |
|---|---|---|
| `Status.StatusIsBestRank` | domain/peer/status.go:112-139 | StatusOf of any wrapped or joined error tree is the code of the best-ranked sentinel found anywhere in the tree, against an independent ranking of trees |
| `Status.StatusIsOkIffNil` | domain/peer/status.go:109-139 | the mapping yields OK exactly for a nil error and never leaves the known codes |
| `Status.StatusSurvivesTheWire` | infrastructure/peer/conn/dispatch.go:451-476 | a status sent in a terminal frame decodes to exactly the error it stands for, which is what the error conveys, with the same status |
| `Status.StatusConveys` | domain/peer/status.go:78-139 | without the two switches: the error a status stands for is the decisive sentinel of its tree, a full send queue being told as an overload, and an internal error if there is none |
| `Status.ConveysOneSentinel` | domain/peer/status.go:78-107 | an error conveys exactly one sentinel, and never the end of a stream |
| `Status.CodesAreStable` | domain/peer/status.go:78-107 | every code that StatusOf can produce is a fixed point of Err followed by StatusOf |
| `Status.RelayIsIdempotent` | domain/peer/status.go:78-139 | any number of relay hops gives the status of one hop |
| `Status.RelayConveys` | domain/peer/status.go:78-139 | any number of hops conveys the error itself |
| `Status.OnlyOkDecodesToSuccess` | infrastructure/peer/conn/dispatch.go:462-476 | a terminal body decodes to success exactly for code 0; an unknown code is a violation; what is no status byte is refused as one |
| `Stream.LiveStream.Send` | infrastructure/peer/conn/stream.go:150-172 | which refusal comes first and its error, the context's own included, and a message appended to the outbound queue exactly when accepted |
| `Stream.LiveStream.CloseSend` | infrastructure/peer/conn/stream.go:177-209 | only the first call closes the send side, and it queues the marker once; it waits for room and for the pump, either wait ends with the context, and every later call reports the same error |
| `Stream.LiveStream.Deliver` | infrastructure/peer/conn/stream.go:262-277 | when a message is queued, when delivery waits, and which error it fails with |
| `Stream.LiveStream.CloseInboundHalf` | infrastructure/peer/conn/stream.go:281-289 | the first close marks end of file; later ones change nothing |
| `Stream.LiveStream.FinishStream` | infrastructure/peer/conn/stream.go:291-316 | the terminal error is recorded once and the queue closed without an end-of-file mark |
| `Stream.LiveStream.Recv` | infrastructure/peer/conn/stream.go:92-142 | queued messages first, then io.EOF after a half-close, else the terminal error; on a done context an open empty queue is finished, with the session's error first |
| `Stream.LiveStream.PumpTurn` | infrastructure/peer/conn/stream.go:221-231 | the pump quits on a done context, takes the head of the outbound queue, or waits |
| `StreamConservation.MessagesAreConserved` | infrastructure/peer/conn/stream.go:92-316 | in every reachable state of two conforming endpoints, both directions: messages returned by Recv are a prefix of those Send accepted, and io.EOF means the sender half-closed and nothing is missing |
| `StreamConservation.DirectionConserved` | infrastructure/peer/conn/dispatch.go:125-142 | the same for one direction, from the sender's and the receiver's own invariants |
| `StreamConservation.CloseMeansAllWritten` | infrastructure/peer/conn/stream.go:177-241 | once the close frame is written every accepted message was written before it |
| `StreamConservation.NextKeepsInv` | infrastructure/peer/conn/stream.go:150-316 | every step of either endpoint keeps the conservation invariant |
| `StreamTermination.FailureDrainsFirst` | infrastructure/peer/conn/dispatch.go:376-408 | a handler that fails without having half-closed: the peer receives every message accepted before the return, then exactly what the failure conveys, never io.EOF |
| `StreamTermination.CleanReturnEndsInEof` | infrastructure/peer/conn/dispatch.go:387-401 | a handler that returns cleanly: the peer sees every message and then only io.EOF |
| `StreamTermination.ReportTellsTheReturn` | infrastructure/peer/conn/dispatch.go:397-408 | the terminal frame of an undisturbed stream carries 0 for a nil or stream-closed return, else the status of the failure |
| `StreamTermination.TerminatedMeansEnd` | infrastructure/peer/conn/dispatch.go:229-240 | a terminal error from Recv is the one in the terminal frame the handler's return justified |
| `StreamTermination.NextKeepsCalmInv` | infrastructure/peer/conn/dispatch.go:376-408 | every undisturbed step keeps the link between the handler's return, the frames written and what the client took |
| `StreamEnds.RecvTellsWhy` | infrastructure/peer/conn/stream.go:124-142 | over all runs, disturbed or not: an error that Recv returns to the opener is what a terminal frame of the peer tells, the end of the caller's context, or the session's; and always the same one |
| `StreamEnds.NoticesTellWhy` | infrastructure/peer/conn/session.go:404-411 | a terminal frame the opener writes says whether its caller was cancelled or ran out of time |
| `StreamEnds.OpenTellsWhy` | infrastructure/peer/conn/dispatch.go:177-201 | OpenStream succeeds on an acknowledgement or an empty end, else it tells the peer's refusal or the session's end |
| `StreamEnds.SessionEndIsRecorded` | infrastructure/peer/conn/session.go:219-257 | what the end of a session records, and what its live stream and pending open are told |
| `StreamEnds.FailedWriteIsRecorded` | infrastructure/peer/conn/session.go:388-394 | a failed write ends the session: a message above the limit as too large, else as a lost connection |
| `StreamEnds.OversizedEndsTheStreamOnly` | infrastructure/peer/conn/dispatch.go:215-221 | a message above the stream's limit ends the stream and not the session |
| `StreamServing.TerminalTellsTheReturn` | infrastructure/peer/conn/dispatch.go:376-408 | over all runs: a terminal frame of the serving side reports the handler's failure once its messages are out, what CloseSend reported after a return in good order, or the context that cut it short |
| `StreamServing.ReleasedIsSilent` | infrastructure/peer/conn/dispatch.go:384-391 | a handler that returns after its stream was released writes no terminal frame on any run |
| `StreamServing.CloseSendIsHonest` | infrastructure/peer/conn/stream.go:177-198 | on any run a CloseSend that reports success has its close frame written, or the stream's context is done |
| `StreamServing.CloseCutShort` | infrastructure/peer/conn/stream.go:200-209 | a CloseSend cut short by the context is an error only on a stream that ended with one |
| `StreamRace.NotQuietIsLost` | infrastructure/peer/conn/stream.go:262-277 | when a handler is about to release its stream and the opener may still send, or something it sent is not handed over: some undisturbed run ends the session without the terminal |
| `StreamRace.NextKeepsQuiet` | infrastructure/peer/conn/dispatch.go:204-240 | a quiet stream stays quiet and its session up over every undisturbed step, unless the serving side's writer refuses a frame |
| `StreamRace.SeenEofIsQuiet` | infrastructure/peer/conn/stream.go:281-289 | a handler whose stream carries the end-of-file mark is in a quiet state |
| `StreamRace.TerminalCanBeLost` | infrastructure/peer/conn/dispatch.go:215-221 | whatever the limits, a concrete reachable state after a failed return from which some undisturbed run ends the session without the terminal |
| `StreamFlow.NextKeepsFlowInv` | infrastructure/peer/conn/stream.go:177-258 | while nothing disturbs a served stream, the pump runs until the close frame is out and each mark is where its owner left it |
| `StreamReport.ReportIsCertainIff` | infrastructure/peer/conn/dispatch.go:376-408 | from the handler's return until it releases the stream: its report is certain if and only if the opener half-closed with everything handed over, the handler's half-close cannot come before its barrier, and the writer accepts every unwritten message and the terminal |
| `StreamReport.ReturnIsReportedIff` | infrastructure/peer/conn/dispatch.go:380-396 | at the return: certain if and only if the opener half-closed with everything handed over, the return is clean or the handler had not half-closed, and the writer accepts every unwritten message and the terminal |
| `StreamReport.HalfClosedFailureIsNeverReported` | infrastructure/peer/conn/stream.go:232-258 | a handler that half-closes and then fails is never reported on any undisturbed run; with a quiet opener both sessions stay up |
| `StreamReport.OversizedReturnIsNeverReported` | infrastructure/peer/conn/stream.go:232-241 | a handler that returns while a message Send accepted is larger than the writer accepts is never reported on any undisturbed run |
| `StreamReport.SessionSurvivesIff` | infrastructure/peer/conn/session.go:388-394 | when a handler is about to release its stream, its session survives every undisturbed run if and only if the opener is done and the writer accepts what is left to write |
| `StreamReport.LimitsThatFit` | domain/peer/peer.go:101-119 | limits under which the writer refuses no message that Send accepted and no terminal |
| `StreamReportRuns.PlainFailure` | infrastructure/peer/conn/dispatch.go:402-408 | for any limits a concrete state after io.EOF, a failure returned and nothing sent: it is certain to be reported exactly when the limit leaves room for its terminal |
| `StreamReportRuns.FailureAfterHalfClose` | infrastructure/peer/conn/stream.go:243-258 | a concrete quiet state whose failure is never reported while both sessions stay up |
| `StreamReportRuns.FailureAfterOversizedMessage` | infrastructure/peer/conn/stream.go:150-172 | whenever MaxStreamMessageBytes is above what the writer accepts, a concrete quiet state whose failure is never reported |
| `StreamReportRuns.MessageCanArrive` | infrastructure/peer/conn/stream.go:150-172 | every message within both limits arrives on a real run |
| `StreamReportRuns.OpenCanBeRefused` | infrastructure/peer/conn/dispatch.go:177-201 | a request refused with any status can fail with exactly what that status tells |
| `StreamReport.LateHalfCloseCanBlock` | infrastructure/peer/conn/stream.go:177-198 | a half-close after a failing return takes the certainty away |
| `Session.AllocationsCollideIffPeriodApart` | infrastructure/peer/conn/session.go:333-342 | allocated identifiers lie in the owner's half, and two collide exactly a period apart |
| `Session.SessionObject.AllocateStreamID` | infrastructure/peer/conn/session.go:335-337 | returns the counter's value and advances it by two modulo 2^64 |
| `Session.SessionObject.RegisterCall` | infrastructure/peer/conn/session.go:269-273 | adds the pending call and changes nothing else |
| `Session.SessionObject.TakeCall` | infrastructure/peer/conn/session.go:376-384 | reports and removes a pending call |
| `Session.SessionObject.RegisterStream` | infrastructure/peer/conn/session.go:321-325 | adds the live stream and changes nothing else |
| `Session.SessionObject.RegisterOpen` | infrastructure/peer/conn/session.go:309-313 | adds the pending open and changes nothing else |
| `Session.SessionObject.TakeOpen` | infrastructure/peer/conn/session.go:365-373 | reports and removes a pending open |
| `Session.SessionObject.TakeStream` | infrastructure/peer/conn/session.go:354-362 | reports and removes a live stream |
| `Session.SessionObject.TrackInflight` | infrastructure/peer/conn/session.go:283-287 | registers the cancel function of an inbound call |
| `Session.SessionObject.CancelInflight` | infrastructure/peer/conn/session.go:296-307 | gives the context to cancel and removes its registration |
| `Session.SessionObject.Usable` | infrastructure/peer/conn/session.go:260-267 | an error exactly when the session has ended, and then the recorded one |
| `Session.SessionObject.EndSwap` | infrastructure/peer/conn/session.go:223-237 | records the first cause, an error as it is and an orderly or missing one as a closed connection, empties every registry and hands over everything that was in them |
| `Session.SessionObject.SettleAll` | infrastructure/peer/conn/session.go:239-244 | every collected waiter is sent the failure exactly once and no other waiter is |
| `Session.SessionObject.End` | infrastructure/peer/conn/session.go:219-257 | run alone, end cancels the context, closes the transport, records one cause, tells it exactly once to every pending call and open and to nobody else, and gives the calls to cancel, the streams to finish and their cause |
| `Dispatcher.DispatchFrame` | infrastructure/peer/conn/dispatch.go:71-149 | the lookups of the code, lock by lock: for each frame what is taken out, what a pending request is told, when the reader fails, and which call is cancelled; and they agree with the step system |
| `IdSpace.ReachableIdsAreSafe` | infrastructure/peer/conn/session.go:269-384 | under any inbound frames: calls and opens are local and disjoint, calls and streams disjoint, inflight identifiers remote, no identifier opened twice on the wire |
| `IdSpace.FramesAreLocal` | infrastructure/peer/conn/dispatch.go:71-149 | everything the reader does for a frame changes only state of that frame's identifier, or is the step that ends the session |
| `IdSpace.DispatchIsLocal` | infrastructure/peer/conn/dispatch.go:97-149 | the same for taking and routing one frame |
| `IdSpace.StepKeepsIds` | infrastructure/peer/conn/dispatch.go:97-149 | every step keeps the identifier invariant, whatever frame arrives |
| `IdSpace.NextIdIsFresh` | infrastructure/peer/conn/config.go:34-40 | the next identifier was never used before within one period |
| `Waiters.SettledAtMostOnce` | infrastructure/peer/conn/session.go:219-257 | each outcome channel is sent at most one value over a whole run |
| `Waiters.NoWaiterIsStranded` | infrastructure/peer/conn/session.go:113-184 | once the transport is closed, no end is in progress and the reader is not in the middle of sending a value, every caller still waiting has been sent its value, even if it registered while end ran |
| `Waiters.EndTellsOneCause` | infrastructure/peer/conn/session.go:239-244 | all waiters settled by end see the same recorded cause |
| `Waiters.FirstCauseIsKept` | infrastructure/peer/conn/session.go:223-227 | the first recorded cause is never replaced over a whole run |
| `Waiters.FirstCauseIsTold` | infrastructure/peer/conn/session.go:219-244 | the cause of the end that takes the lock first is recorded, an error as it is, an orderly or missing one as a closed connection, and every waiter settled by end is told it |
| `Waiters.StepKeepsWaiters` | infrastructure/peer/conn/session.go:219-257 | every step keeps each waiter with exactly one owner or one value |
| `CallServing.StepKeepsServing` | infrastructure/peer/conn/dispatch.go:271-325 | every frame written in answer to the peer is explained by an admission decision or by a handler's execution, and no ticket runs twice |
| `CallServing.BadRequestsAreRefused` | infrastructure/peer/conn/dispatch.go:271-280 | under any frames: a request that does not decode is refused as invalid, one without a name as not found, and neither reaches a handler |
| `CallSettling.StepKeepsSettling` | infrastructure/peer/conn/dispatch.go:151-201 | every value a caller receives is computed from one frame taken for its identifier, or is the session's end |
| `CallSettling.FrameTellsTheCaller` | infrastructure/peer/conn/dispatch.go:151-201 | under any frames: what each kind of frame and status tells a pending call or open |
| `SessionRules.NothingAfterAViolation` | infrastructure/peer/conn/dispatch.go:18-31 | a frame that breaks the protocol is the last one taken, and the session ends with a protocol violation, or in good order after a close |
| `SessionRules.StreamsAreAcknowledged` | infrastructure/peer/conn/dispatch.go:354-373 | a live stream of the peer's is acknowledged, or is just being acknowledged |
| `SessionRules.EndedMeansClosed` | infrastructure/peer/conn/session.go:219-227 | once the end is recorded the context is cancelled and the transport closed |
| `SessionRules.NoCallIsMissed` | infrastructure/peer/conn/session.go:245-257 | when no end is under way every inbound call is cancelled or still registered, and nothing released is registered |
| `CallOrder.StepKeepsOrder` | infrastructure/peer/conn/session.go:130-138 | the cancellation of a call is written after its request, and says why the caller gave up |
| `Calls.CallReturnsTheHandlersResult` | infrastructure/peer/conn/session.go:113-144 | Call returns p only if the peer took this identifier's request with this method and payload exactly once and its handler ran exactly once under the session's identity and returned p |
| `Calls.CallFailsWithThePeersError` | infrastructure/peer/conn/dispatch.go:162-169 | a failed call carries the recorded cause of the session's end, or what the peer's refusal or its handler's failure conveys |
| `Calls.HandlersRunForTheirCaller` | infrastructure/peer/conn/dispatch.go:301-325 | every handler execution belongs to exactly one request the peer made, and is the only one for it |
| `Calls.OpenedStreamIsAdmitted` | infrastructure/peer/conn/dispatch.go:177-201 | OpenStream succeeds only if the peer admitted a stream of that name under that identifier |
| `Opens.SettledByTheFirstFrame` | infrastructure/peer/conn/dispatch.go:114-124 | a call or open is settled by the first frame the peer wrote under its identifier, as that frame tells |
| `Opens.OpenReturnsThePeersDecision` | infrastructure/peer/conn/dispatch.go:177-201 | an open is accepted if and only if that frame is the acknowledgement; otherwise it conveys the peer's refusal |
| `Opens.OpenFailsWithThePeersRefusal` | infrastructure/peer/conn/session.go:146-184 | a failed OpenStream conveys the peer's refusal or the recorded end of the session; a successful one was acknowledged |
| `Opens.OpenCanSucceed` | infrastructure/peer/conn/session.go:146-184 | every stream with a name can be opened on a real run |
| `Calls.CancellationReachesItsCall` | infrastructure/peer/conn/dispatch.go:133-141 | once the reader has taken StreamEnd for an admitted call its context is cancelled, in every interleaving with its goroutine and end |
| `Calls.CancellationTellsWhy` | infrastructure/peer/conn/session.go:404-411 | and the frame says that the caller was cancelled or ran out of time |
| `Calls.CancellationReachesOnlyItsCall` | infrastructure/peer/conn/session.go:295-307 | the same frame cancels no other call's context and not the session's |
| `Calls.CallCanSucceed` | infrastructure/peer/conn/session.go:113-144 | every call can return every result: a complete run of both endpoints that ends so |
| `Cancellation.StepKeepsCancel` | infrastructure/peer/conn/session.go:283-307 | a call nobody cancelled stays findable under its identifier until the session's context ends |
| `Router.RouterObject.constructor` | application/peer/router.go:34-46 | two empty slot channels of the configured capacity |
| `Router.RouterObject.PrepareCall` | application/peer/router.go:64-92 | the first check that fails decides the refusal; a slot is reserved exactly on admission |
| `Router.RouterObject.ServeCall` | application/peer/router.go:93-107 | the handler's own error, a panic as internal, a fitting result as it is, an oversized one refused; the slot goes back in every case |
| `Router.RouterObject.PrepareStream` | application/peer/router.go:118-140 | the same for a stream, without the size and context checks |
| `Router.RouterObject.ServeStreamHandler` | application/peer/router.go:141-144 | the handler's own error, a panic as internal; the slot goes back in every case |
| `Router.RouterObject.Invoke` | application/peer/router.go:152-158 | which refusal or result an in-process call gives, for every request and handler; the budget is left as it was |
| `Router.RouterObject.ServeStream` | application/peer/router.go:167-173 | the same for an in-process stream |
| `Budget.SlotsAreExact` | application/peer/router.go:64-145 | over any number of sessions: call slots in use are exactly the admitted calls that have not returned, stream slots those being served plus those never served; no limit is exceeded |
| `Budget.GatesAreExact` | infrastructure/peer/conn/dispatch.go:281-325 | a session's gate counts exactly its requests that are not finished |
| `Budget.ReleaseNeverFindsNothing` | infrastructure/peer/conn/dispatch.go:426-431 | a release never reaches its empty default |
| `Budget.NothingIsHeldAtRest` | infrastructure/peer/conn/dispatch.go:341-378 | when every request is over only the slots of streams that were never served are held |
| `Budget.LeaksAreForever` | infrastructure/peer/conn/dispatch.go:360-373 | in every later state at least as many router stream slots are in use as acknowledgements had failed |
| `Budget.ExhaustedForGood` | infrastructure/peer/conn/dispatch.go:368-373 | after as many failed acknowledgements as there are slots no stream is ever admitted again |
| `Budget.EveryBudgetCanBeLost` | infrastructure/peer/conn/dispatch.go:354-373 | for every limit a reachable state in which all stream slots are lost to failed acknowledgements, each on a session of its own, and no stream is served |
| `Budget.OneLossForEachSession` | infrastructure/peer/conn/dispatch.go:366-373 | a session loses at most one slot |
| `Budget.EndedSessionTakesNothing` | infrastructure/peer/conn/dispatch.go:18-31 | and takes no gate after that |
| `Budget.StepKeepsInv` | application/peer/router.go:177-193 | every step keeps each gate equal to the number of its holders and within its capacity |
| `Codec.Reader.ReadFull` | infrastructure/peer/codec/frame.go:143-151 | exactly the bytes asked for, or all there are and why no more |
| `Codec.Reader.ReadFrame` | infrastructure/peer/codec/frame.go:143-178 | for a whole header and body within the limit: a frame if and only if the type is 1 to 10, the identifier below 2^63, and types 8 to 10 carry none |
| `Codec.ReadFrameDecides` | infrastructure/peer/codec/frame.go:143-191 | in terms of the bytes alone: when one ReadFrame gives the clean end, a truncation, a violation, an oversized body or the frame, and which |
| `Codec.DecodeInvertsEncode` | infrastructure/peer/codec/frame.go:213-240 | decoding the encodings of any valid frames gives them back and then io.EOF |
| `Codec.CleanEndIffEncoding` | infrastructure/peer/codec/frame.go:143-178 | bytes decode to a clean end exactly when they are the encoding of what they decode to |
| `Codec.CutIsAViolation` | infrastructure/peer/codec/frame.go:293-298 | a cut inside a header or body gives exactly the whole frames before it and then a violation |
| `Codec.DecodedFramesAreThePrefix` | infrastructure/peer/codec/frame.go:143-191 | for any bytes, the frames returned re-encode to the bytes before the stop, and the stop is what the rest parses to |
| `Codec.EncodingIsInjective` | infrastructure/peer/codec/frame.go:225-240 | equal byte streams come from equal frame lists |
| `Codec.ParsedIsEncoded` | infrastructure/peer/codec/frame.go:157-178 | whatever parses is the encoding of a valid frame followed by the rest |
| `Writer.Target.Write` | infrastructure/peer/codec/frame.go:248-252 | the arbitrary target: any count, with or without error, or a count out of range |
| `Writer.WriteAll` | infrastructure/peer/codec/frame.go:246-263 | terminates against any target; success means exactly the given bytes, failure a prefix |
| `Writer.FeedStopsAtTheFirstBad` | infrastructure/peer/codec/frame.go:246-263 | the loop ends at the first bad answer and says why, with exactly the bytes the answers took |
| `Writer.WriteFrame` | infrastructure/peer/codec/frame.go:213-240 | an oversized body or illegal fields are refused and touch nothing; on a good transport success is exactly the absence of that; otherwise a prefix of the encoding is written |
| `Writer.GoodTransportTakesAll` | infrastructure/peer/codec/frame.go:230-240 | a transport without a bad answer takes every frame that is not refused |
| `Writer.Refusal` | infrastructure/peer/codec/frame.go:213-223 | refuses exactly bodies above the limit and illegal fields, the size first |
| `Writer.WriteFrames` | infrastructure/peer/codec/frame.go:230-240 | writers serialised by the mutex produce the stream of the specification |
| `Writer.StreamIsWholeFrames` | infrastructure/peer/codec/frame.go:195-263 | on a fail-stop transport the byte stream is the successfully written frames, whole and in order, and at most one part of the next |
| `Writer.ReaderGetsWhatWasWritten` | infrastructure/peer/codec/frame.go:211-263 | the reader at the other end gets those frames, then the clean end or a violation |
| `Writer.ShortWriteCorruptsTheStream` | infrastructure/peer/codec/frame.go:257-261 | without fail-stop the stream is no longer whole frames and one part |
| `WireSize.VarintHasItsSize` | infrastructure/peer/codec/frame.go:265-272 | the length of an encoded varint |
| `WireSize.FitIsExact` | proto/liapoldus/peer/v1/peer.proto:15-23 | a field fits in a number of bytes exactly when its content is no longer than the closed form |
| `WireSize.RequestRefusedIff` | infrastructure/peer/conn/session.go:117-132 | a call is refused by the writer exactly when its payload exceeds the closed-form bound |
| `WireSize.RequestGap` | infrastructure/peer/conn/session.go:117-132 | the gap between the payload check and the body check for requests, for every name and limit |
| `WireSize.ResultRefusedIff` | infrastructure/peer/conn/dispatch.go:318-323 | the same for results, against the check in the router |
| `WireSize.GapIsNeverEmpty` | application/peer/router.go:103-105 | a result of exactly the limit is always refused |
| `WireSize.DataRefusedIff` | infrastructure/peer/codec/frame.go:213-220 | a stream message is refused by the writer exactly above the closed form |
| `WireSize.AcceptedIsWritableIff` | infrastructure/peer/conn/stream.go:150-153 | every message that Send accepts can be written if and only if MaxStreamMessageBytes is at most that closed form of MaxMessageBytes |
| `WireSize.StreamLimitsInUse` | tests/fixtures/peer-net/main.go:111-119 | the default limits leave room, two equal limits never do |
| `WireSize.OpenRefusedIff` | infrastructure/peer/conn/session.go:153-172 | a stream request is refused by the writer exactly for a name that does not fit |
| `WireSize.EndRefusedIff` | infrastructure/peer/conn/dispatch.go:451-460 | a terminal frame is refused exactly when the limit is below its size, which no limit of 25 or more is |
| `WireSize.EndSizes` | infrastructure/peer/conn/dispatch.go:451-460 | the size of every terminal body in numbers |
| `WireSize.DefaultResultGap` | domain/peer/peer.go:103-103 | under the default limit exactly the last five sizes are refused |
| `Canonical.SortedIsUnique` | infrastructure/peer/security/revocation.go:557-557 | a list sorted by distinct keys is determined by its elements, whatever algorithm sorts it |
| `Canonical.SortForgetsOrder` | infrastructure/peer/security/revocation.go:555-565 | sorting forgets the order of its input |
| `Canonical.OrderIsBytewise` | infrastructure/peer/security/revocation.go:557-557 | the order is byte by byte, a beginning before its continuations |
| `TrustRoots.CanonicalTrustRootsDigest` | infrastructure/peer/security/revocation.go:576-594 | the loop computes the digest of the sorted concatenation, and rejects exactly the empty list and lists with duplicates |
| `TrustRoots.RootOrderIsIrrelevant` | infrastructure/peer/security/revocation.go:574-585 | permuted roots have the same digest |
| `TrustRoots.DigestOfSortedRoots` | infrastructure/peer/security/revocation.go:576-594 | the digest is of the roots in byte order; there is none exactly for no roots or a repeated one |
| `TrustRoots.RootsDigestIsExact` | infrastructure/peer/security/revocation.go:586-594 | for members of a prefix-free code equal digests hold exactly for equal root sets |
| `TrustRoots.AmbiguousWithoutPrefixFreedom` | infrastructure/peer/security/revocation.go:591-592 | without prefix-freedom two different root sets share a digest |
| `CheckpointDigest.DigestIsExact` | infrastructure/peer/security/revocation.go:555-572 | equal digests hold exactly when the maps from issuer to CRL hash and revoked set are equal |
| `CheckpointDigest.DigestForgetsOrder` | infrastructure/peer/security/revocation.go:556-565 | reordering issuers does not change the digest |
| `CheckpointDigest.DigestOfLayout` | infrastructure/peer/security/revocation.go:555-572 | the digest is of the layout: issuers in byte order, each as issuer hash, CRL hash, sorted serials closed by 0, and 0xff |
| `CheckpointDigest.LinesAreDecodable` | infrastructure/peer/security/revocation.go:559-569 | the canonical bytes can be read back |
| `CheckpointDigest.DigestIgnoresNumberAndExpiry` | infrastructure/peer/security/revocation.go:559-569 | any two lists that agree on issuers, CRL hashes and serials have the same digest, whatever their numbers and next updates |
| `Revocation.CheckEntries` | infrastructure/peer/security/revocation.go:364-377 | accepts exactly supported, non-negative, distinct serials and gives their set |
| `Revocation.CheckIssuers` | infrastructure/peer/security/revocation.go:327-339 | accepts exactly authorities that occur once |
| `Revocation.CheckRecords` | infrastructure/peer/security/revocation.go:327-379 | accepts exactly sound records and gives the revoked set of each |
| `Revocation.Sorted` | infrastructure/peer/security/revocation.go:411-422 | whatever order the set is walked in, the sorted list is the same |
| `Revocation.CheckAdvance` | infrastructure/peer/security/revocation.go:394-410 | rejects exactly a rollback, an equivocation or a forgotten serial |
| `Revocation.BuildStates` | infrastructure/peer/security/revocation.go:386-428 | the new states, exactly when every record advances its issuer and no issuer is dropped |
| `Revocation.Validate` | infrastructure/peer/security/revocation.go:310-437 | the next checkpoint, exactly for an acceptable bundle |
| `Revocation.Verify` | infrastructure/peer/security/revocation.go:472-519 | admits exactly an open manager with current CRLs and chains that are covered and unrevoked |
| `Revocation.VerifyOne` | infrastructure/peer/security/revocation.go:496-517 | each certificate against its issuer's CRL and the root against its own |
| `Revocation.CheckSerials` | infrastructure/peer/security/revocation.go:165-175 | accepts exactly distinct decimal texts of non-negative numbers |
| `Revocation.CheckCheckpoint` | infrastructure/peer/security/revocation.go:139-178 | accepts exactly a stored checkpoint that is empty, or well formed and carries its own digest |
| `Revocation.DecimalIsInjective` | infrastructure/peer/security/revocation.go:372-376 | different serial numbers have different texts |
| `Revocation.SerialTextReadsBack` | infrastructure/peer/security/revocation.go:372-376 | the text of any number reads back as the number |
| `Revocation.SerialIsNonNegative` | infrastructure/peer/security/revocation.go:165-170 | a stored serial is accepted exactly when it reads as a number that is not negative |
| `Revocation.SignsAreRead` | infrastructure/peer/security/revocation.go:165-170 | either sign is read, and nothing but digits after it |
| `RevocationRules.AcceptedIffLawful` | infrastructure/peer/security/revocation.go:310-437 | for every manager, bundle and time: accepted if and only if open, of these roots, every CRL signed, matching, understood, numbered and current, entries distinct, every root covered, and every issuer's previous state followed and none dropped or added |
| `RevocationRules.NextStores` | infrastructure/peer/security/revocation.go:386-437 | an accepted bundle is stored as one state for each record, with exactly its CRL and serials, in issuer order, and their digest |
| `RevocationRules.AdmittedIffCleared` | infrastructure/peer/security/revocation.go:472-519 | admitted if and only if open, with a bundle, every CRL current, and every certificate cleared by the CRL of the one that follows it and the last by its own |
| `RevocationRules.StartsIff` | infrastructure/peer/security/revocation.go:90-178 | starts if and only if the roots are distinct and valid and a stored checkpoint is intact, of these roots, and leaves out none |
| `RevocationRules.FreshIsRestored` | infrastructure/peer/security/revocation.go:109-136 | the roots, checkpoint, digest and timer a start leaves |
| `RevocationManager.NewRevocationManager` | infrastructure/peer/security/revocation.go:90-137 | succeeds exactly on a startable configuration, with the restored state and a scheduled expiry |
| `RevocationManager.Cover` | infrastructure/peer/security/revocation.go:117-131 | every root is among the stored issuers |
| `RevocationManager.EarliestIsMinimum` | infrastructure/peer/security/revocation.go:283-291 | the loop finds the minimum next update |
| `RevocationManager.ManagerObject.ScheduleExpiry` | infrastructure/peer/security/revocation.go:276-308 | a new generation and a timer at the earliest next update |
| `RevocationManager.ManagerObject.Apply` | infrastructure/peer/security/revocation.go:228-255 | a refused bundle or exact repeat changes nothing; a changed one replaces the checkpoint and hands over exactly what was active |
| `RevocationManager.ManagerObject.TrackConnection` | infrastructure/peer/security/revocation.go:210-223 | registers exactly an admitted connection |
| `RevocationManager.ManagerObject.Close` | infrastructure/peer/security/revocation.go:258-274 | closes, invalidates the timer and hands over everything |
| `RevocationManager.ManagerObject.Expire` | infrastructure/peer/security/revocation.go:296-307 | only the current generation acts |
| `RevocationManager.ManagerObject.Forget` | infrastructure/peer/security/revocation.go:80-82 | removes the connection from the active set |
| `RevocationHistory.AcceptedIsLater` | infrastructure/peer/security/revocation.go:390-434 | an accepted bundle never lowers a CRL number, forgets a serial, drops an issuer or adds one |
| `RevocationHistory.RevokedStaysRevoked` | infrastructure/peer/security/revocation.go:403-410 | a chain revoked under a checkpoint is revoked under every later one |
| `RevocationHistory.ClearIffCoveredAndNotRevoked` | infrastructure/peer/security/revocation.go:496-517 | a chain is clear exactly when every link is covered and none is revoked |
| `RevocationHistory.RepeatChangesNothing` | infrastructure/peer/security/revocation.go:242-246 | applying any permutation of the accepted bundle again, at any time, changes no state |
| `RevocationHistory.RepeatIsAccepted` | infrastructure/peer/security/revocation.go:225-246 | and it is accepted while its CRLs are current |
| `RevocationHistory.FencesIffChanged` | infrastructure/peer/security/revocation.go:242-252 | an accepted bundle leaves the manager as it was exactly when it means the same revocations |
| `RevocationHistory.RestartDecidesAlike` | infrastructure/peer/security/revocation.go:90-137 | restoring the stored checkpoint succeeds and decides every chain and bundle as before the manager closed |
| `RevocationHistory.NothingToRestoreAtFirst` | infrastructure/peer/security/revocation.go:110-112 | before the first bundle the stored checkpoint cannot be restored |
| `Fencing.ConnectionsAreFenced` | infrastructure/peer/security/revocation.go:76-85 | in every reachable state: active connections are covered and unrevoked, every connection ever tracked is active, handed to a fence or closing, and no transport is closed twice |
| `Fencing.FencedIsClosed` | infrastructure/peer/security/revocation.go:531-550 | when the fences are done every connection that is not active has been closed exactly once |
| `Fencing.NeverActiveAgain` | infrastructure/peer/security/revocation.go:247-253 | a connection that left the active set never returns to it |
| `Fencing.TimerIsPending` | infrastructure/peer/security/revocation.go:276-308 | while anything is active exactly one callback of the current generation is pending, at the minimum next update |
| `Fencing.CallbackActsIffCurrent` | infrastructure/peer/security/revocation.go:296-307 | a callback of the current generation is the pending timer of an expired CRL and hands over everything active; any other changes nothing |
| `Fencing.NothingActiveAfterExpiry` | infrastructure/peer/security/revocation.go:479-494 | after the current callback fires nothing is active, whatever happens, until the checkpoint changes |
| `Fencing.OnlyChangedBundlesChangeTheCheckpoint` | infrastructure/peer/security/revocation.go:242-252 | and the checkpoint changes only when an open manager accepts a bundle that means other revocations |
| `Fencing.ChangesAreLawful` | infrastructure/peer/security/revocation.go:228-255 | every change of the checkpoint is a lawful bundle applied to an open manager, and is what is stored |
| `Fencing.StatesAreSourced` | infrastructure/peer/security/revocation.go:341-437 | in every reachable state each issuer's state was restored at the start, or comes from a CRL that was signed, trusted and current when its bundle was applied |
| `Fencing.HistoryIsMonotone` | infrastructure/peer/security/revocation.go:310-437 | over any run CRL numbers never decrease, revoked sets only grow and the issuers stay the same |
| `Fencing.RevokedForEver` | infrastructure/peer/security/revocation.go:472-519 | a chain refused as revoked is refused for ever, and no active connection presented chains that were ever revoked |
| `Fencing.RestartAnywhere` | infrastructure/peer/security/revocation.go:90-178 | at any point of any run after a first bundle a restart decides alike |
| `Fencing.StepKeepsInv` | infrastructure/peer/security/revocation.go:210-308 | every step of the manager, its timers and its connections keeps the fencing and timer invariants |

## Left out

- Carriers (TCP, QUIC, Unix sockets, pipes), TLS handshakes, sockets and file permissions: input and output.
- X.509 and CRL parsing, signature checks, chain building and extension identifiers: flags of a parsed record. Whether an issuer is trusted is taken per record and so does not depend on the order of the bundle.
- SHA-256 and hex: a digest is a datatype over its preimage.
- Protocol Buffers encoding and decoding, beyond the sizes.
- Keep-alive: probeLoop, ping and pong.
- Profiles, identity resolution, the registry builder and default limits: a registry is a flag of the request.
- Liveness and deadlock freedom: one slow consumer blocks the reader by design, so only safety is claimed. That a report is certain says that it stays possible, not that it happens.
- Error texts: Revocation's methods say whether they refuse, not with which message.
- StreamPair: the teardown of a session is one step there (its interleavings are in Engine and Waiters), and one stream is followed at a time: that another call or stream ends the session is a disturbance, so the conditions for a certain report are those of a session that carries this stream alone.
- Engine: the payload of stream frames and the stream queues are in StreamPair; a dispatched data frame may fail the session at any time. Looking up and cancelling an inbound call is one step.
- Engine: which refusal a request gets is any error that fits a malformed or nameless one; the order of the checks is in Router.
- Fencing: a fence may close its connections at any later time; the five-second wait and the write deadline are not modelled.
- RevocationManager.NewRevocationManager: the delay passed to the timer is not modelled, only its deadline; a delay beyond 292 years would be cut by the runtime.
- IdSpace.ReachableIdsAreSafe: holds up to 2^63 allocations, where the counter repeats.
