# Sippy: what its protocol machinery keeps

Sippy is a SIP stack and back-to-back user agent. This project models the parts of it whose promises are about whole
runs, and proves them. Each component has a description on values (states, one function for each step), theorems over
all runs of those steps, and, where the source updates objects in place, a class with the source's fields whose methods
are proved to do what the step functions say.

| files | component |
|---|---|
| `SipTransactions`, `ServerRuns`, `ClientRuns`, `SipRuns`, `SipDeadlines`, `ClientDeadlines`, `SipDuplicates`, `SipFailures`, `SipPackets`, `SipRequests`, `SipAnswers`, `SipTransactionManager` | the SIP transaction layer: client and server transactions, their tables, timers A to G, the reply cache |
| `TwoGeneration` | the two-generation caches |
| `CallSetup` | call set-up timers of a calling leg |
| `Routing` | where an ACK and later requests of a dialog go |
| `RtpEndpoint`, `RtpUpdates` | the RTP endpoint's lock-protected sections, and the shared RTP server's reference count |
| `Packetiser`, `Ingest` | audio to packets and packets to audio |
| `SdpText`, `Sdp`, `SdpRoundTrip`, `SdpPrintedText`, `SdpLostTexts`, `SdpLayout`, `SdpObjects` | SDP parsing, and printing with the `c=` line hoisted: on lines, then on texts |
| `TimerQueue`, `TimerActions`, `TimerGuards` | the dispatcher's timer heap with lazy deletion, and what it means for the SIP timers |
| `RtpproxyUdp`, `RtpproxyReplies`, `RtpproxyUpdate`, `RtpproxyAnswers`, `SdpChange`, `SdpSections`, `Sequencer`, `SequencerCalls` | the RTP proxy command pipeline |
| `Basics` | options, results, doubling intervals, division |

`dafny verify dfyconfig.toml` checks everything.

## How to read it

* Time is a real number. An armed timer is the time at which it is due; a run may fire it at that time or later, and
  stops being armed only where the code cancels it or it fires. That timer A does not run when B or D is due before it
  is a condition on runs that the dispatcher meets (`TimerGuards`).
* A transaction, a pending RTP proxy request or a timer is a record found through its number; the source's
  dictionaries map keys to these numbers.
* The reply cache's checksum is taken to be injective, so the cache is keyed by the datagram.
* The transaction layer is used as it has to be: branches are fresh, a To tag does not collide with a live transaction
  (`ServerRuns.TagMustBeFree` shows that this is exactly what the re-keying needs), `uack` is set before the final
  response is processed, `cancelTransaction` and `sendACK` are called on live transactions.
* Two kinds of theorem stand beside the step functions: those about whole runs, and those that say what one step of a
  run puts on the wire, tells, stores or arms, in terms of the inputs and fields and without the step functions
  (`SipPackets`, `SipRequests`, `SipAnswers`, `RtpUpdates`, `RtpproxyReplies`, `RtpproxyAnswers`, `SdpSections`,
  `SdpLayout`, `SequencerCalls`, `TimerActions`).
* Callbacks into code outside a component are data: the calls that the callback makes, in order.
* Where the code fails a property that one would expect, the model keeps the code; a lemma says exactly when the
  property holds, and another gives an input for which it does not:

  | property | holds exactly when | fails for |
  |---|---|---|
  | the ACK and later requests take the same way | `Routing.AgreementExactlyWhen` | `Routing.AckStopsAtTheStrictRouter` |
  | the server table is whole after a final response | `ServerRuns.TagMustBeFree` | `SipFailures.SameTagTwice` |
  | a request gets one final response | `SipRuns.OneFinalExactlyWhen` | `SipFailures.RefusedThenTerminated` |
  | the TU hears one final outcome | `SipRuns.OneOutcomeExactlyWhen` | `SipFailures.ToldTwice` |
  | a table entry has a timer that takes it out | `SipRuns.KeepsATimerExactlyWhen` | `SipFailures.NoAckCallbackRaises` |
  | a duplicate is not parsed again | `SipDuplicates.ParsedAgainExactlyWhen` | the datagrams of `SipDuplicates.Forgets` |
  | the RTP output worker's assertion holds | `Packetiser.AssertionFailsExactlyWhen` | `Packetiser.ResamplingCanFail` |
  | an endpoint's channels are all closed | `RtpEndpoint.AllClosedExactlyWhen` | `RtpEndpoint.ChannelLost` |
  | a printed SDP body is read back | `SdpPrintedText.PrintKeepsMeaning` | `SdpLostTexts.SessionConnectionIsLost`, `SdpLostTexts.LineBreakIsLost` |
  | reprinting an accepted SDP text is stable | `SdpPrintedText.ReprintingIsStable` | `SdpLostTexts.TrailingBlankIsLost` |
  | an RTP proxy answer leads to a callback | `RtpproxyUpdate.RaisedExactlyWhen` | `RtpproxyUpdate.AnswersThatRaise` |
  | an SDP change ends with a callback | `SdpChange.CallbackOnce` | `SdpChange.AnswerSwallowed` |
  | a deferred deletion of the sequencer is done | `Sequencer.FirstInFirstOut` | `Sequencer.RaisingCallbackKeepsTheClient` |

* A request whose body is shorter than announced is meant to be refused (sippy/SipTransactionManager.py:334-337), but the
  call in line 335 lacks an argument that the exception's method requires, and raises. The model does what the code
  does: such a request is neither answered nor remembered (`SipDuplicates.Forgets`).
* A callback of the TU that raises leaves the code where it was called. For `recvRequest`, `noack_cb`, `ack_cb` and the
  `resp_cb` of a final response this is an outcome of the step; for `cancel_cb`, and `resp_cb` in all other cases,
  nothing would have come after the callback.
* The RTP proxy client's `process_reply` and the stream's `pkt_proc` leave by an assertion in cases that their
  neighbours rule out; in the first this is a condition on runs, in the second an outcome of the model.

## Model

| member | source | states |
|---|---|---|
| `SipRuns.InviteHandedOnce` | sippy/SipTransactionManager.py:287-295 | In every run of datagrams, timers, TU calls, CANCELs, ACKs and purges: between two handovers of one byte-identical INVITE datagram to the TU there are a final response to it and then two purges of the reply cache |
| `SipRuns.DuplicateGetsFinalReply` | sippy/SipTransactionManager.py:290-295 | In every run, a duplicate of an INVITE that is answered and less than two purges old gets the final response from the cache, and nothing else in the manager changes |
| `SipRuns.ServerTransactionsInRuns` | sippy/SipTransactionManager.py:755-776 | In every run: each key of the server table leads to the live transaction with that `tid`, across the move from branch to To tag; each transaction gives at most one final response; of `ack_cb` and `noack_cb` at most one runs, at most once, and of a transaction still in the table only a `noack_cb` that raised |
| `SipRuns.OneFinalExactlyWhen` | sippy/SipTransactionManager.py:390-394 | In every run, a request gets at most one final response, those counted that go past its transaction, if and only if it was not refused or its transaction has not been answered |
| `ServerRuns.TagMustBeFree` | sippy/SipTransactionManager.py:759-768 | The move to the To-tag key keeps the server table whole if and only if no other live transaction holds that key |
| `SipFailures.SameTagTwice` | sippy/SipTransactionManager.py:759-768 | A run in which it is not free: one INVITE on two branches, both answered with the dialog's To tag; the first transaction stays alive outside the table |
| `SipFailures.RefusedThenTerminated` | sippy/SipTransactionManager.py:390-394 | A run in which it gets two: the TU raises a `SipParseError` that carries a 400, and timer E sends the 487 300 seconds later |
| `SipRuns.InviteKeepsATimer` | sippy/SipTransactionManager.py:669-675 | In every run, a live INVITE server transaction has timer E armed until its final response, and then D and A unless its `noack_cb` has raised; one that is gone has sent exactly one final response |
| `SipRuns.KeepsATimerExactlyWhen` | sippy/SipTransactionManager.py:785-794 | In every run, a server entry has a timer that will take it out if and only if it is an INVITE on which `noack_cb` has not raised; a client entry if and only if it does not wait for the TU's ACK and is not one on whose final response the callback raised with no provisional response since |
| `SipFailures.NoAckCallbackRaises` | sippy/SipTransactionManager.py:791-794 | A run in which an INVITE is left in the table without a timer: timer D fires and `noack_cb` raises |
| `SipDeadlines.AbandonedForEver` | sippy/SipTransactionManager.py:785-794 | In every run, such an INVITE is in the table in every later state, whatever happens, an ACK included |
| `SipDeadlines.StepEvolves` | sippy/SipTransactionManager.py:724-776 | One step of the manager never re-opens a server transaction, and stamps the first send of an INVITE's final response with the time of the step that sends it |
| `SipDeadlines.InviteLeavesTheTable` | sippy/SipTransactionManager.py:785-805 | In every run with timers on time, an INVITE in the server table whose `noack_cb` has not raised arrived at most its `Expires` value plus 32 seconds ago |
| `SipRuns.ClientTransactionsInRuns` | sippy/SipTransactionManager.py:464-553 | In every run: all final outcomes of a client transaction that the TU hears (a response or the local 408) but one had a callback that raised; the armed timers are those of its state; no CANCEL leaves before a provisional response; a deferred one leaves at most once; the client table is exact |
| `SipRuns.OneOutcomeExactlyWhen` | sippy/SipTransactionManager.py:541-553 | In every run, the TU hears at most one final outcome if and only if none followed one on which its callback had raised |
| `SipFailures.ToldTwice` | sippy/SipTransactionManager.py:544-549 | A run in which it hears two: the callback raises on a 486, and a second 486 arrives |
| `ClientDeadlines.ClientLeavesTheTable` | sippy/SipTransactionManager.py:561-588 | In every run with timers on time, a client transaction in the table that does not wait for the TU's ACK, and whose callback has not raised on the last final response, sent its request at most 64 seconds ago if no provisional response came, and else got the last one at most `expires` plus 32 seconds ago |
| `SipRuns.DeferredCancelLeaves` | sippy/SipTransactionManager.py:481-488 | In every run, when an INVITE with a deferred cancellation has heard nothing yet and a provisional response with its key, not seen before, is received, this step sends the CANCEL: one new transaction under its key, one request on the wire, none before |
| `SipRuns.TimedSendsAreBounded` | sippy/SipTransactionManager.py:555-559 | In every run, however late the loop: on its timers a request, or a final response to INVITE, is sent at most 7 times, the k-th resend no earlier than 0.5(2^k - 1) s after the first send (duplicates of the request are answered besides) |
| `SipRuns.NothingFiresAfterRemoval` | sippy/SipTransactionManager.py:87-98 | In every run, each timer of a transaction that has left the tables has been cancelled or has fired, though `cleanup` itself cancels none: no timer can fire on it |
| `TimerGuards.ClientTimerAInOrder` | sippy/Core/EventDispatcher.py:168-173 | In every run of the dispatcher, when it runs the listener of a client's timer A, armed before and not touched since, A is due and not after timer B, if B is armed and has a listener too |
| `TimerGuards.ServerTimerAInOrder` | sippy/Core/EventDispatcher.py:168-173 | The same for timers A and D of a server transaction |
| `SipDuplicates.ParsedAgainExactlyWhen` | sippy/SipTransactionManager.py:286-296 | In every run, after a datagram that the reply cache did not know, a byte-identical duplicate is parsed again if and only if it was too short, a request whose body is cut off, a response to a client transaction that has ended or waits for the TU's ACK, or a request that was neither answered, remembered nor left without a TU |
| `SipDeadlines.NoResendAfterResponse` | sippy/SipTransactionManager.py:470-479 | In every run, a request is not resent after its first response or after timer B |
| `SipPackets.FinalResponseIsAcked` | sippy/SipTransactionManager.py:496-553 | In every run, when a live client transaction in TRYING or RINGING receives a final response with its key that the cache does not know: for an INVITE without `uack` the ACK with the key and the response's To tag goes on the wire and into the cache at once; for any other request, and for an INVITE with `uack`, nothing leaves; the TU is told the code, and the transaction ends, waits for the TU's ACK for 64 s, or stays because the callback raised |
| `SipPackets.DuplicateIsAckedAgain` | sippy/SipTransactionManager.py:287-295 | In every run, a byte-identical duplicate of such a response puts the same ACK on the wire again as long as the cache was purged at most once in between, and changes no client transaction |
| `SipPackets.AcknowledgeSends` | sippy/SipTransactionManager.py:847-857 | In every run, the TU's `sendACK` puts on the wire exactly the ACK with the To tag of the final response that the transaction waits with, and ends it |
| `SipPackets.WaitsWithWhatArrived` | sippy/SipTransactionManager.py:537-545 | In every run, that response has arrived for the transaction while it was undecided |
| `SipRequests.RequestLeaves` | sippy/SipTransactionManager.py:397-452 | In every run, a new request goes on the wire once and at once, timer A is due after 0.5 s and timer B after 32 s, and its extension is the INVITE's `Expires` (300 s if missing or not positive) or 32 s; under a key in use nothing happens |
| `SipRequests.ClientTimersDo` | sippy/SipTransactionManager.py:555-588 | In every run: timer A, and no other, puts the request on the wire again, records it and waits 0.5 * 2^n s after the n-th send; timer B tells 408 and nothing else, and leaves the entry for 32 s; timer C removes it |
| `SipRequests.CancelLeaves` | sippy/SipTransactionManager.py:454-462 | In every run, cancelling a ringing request puts its CANCEL, same branch, on the wire, unless one is under way; otherwise the wish is noted and nothing leaves |
| `SipRequests.ProvisionalResponseRings` | sippy/SipTransactionManager.py:470-495 | In every run, a provisional response for an undecided transaction is told with its own code, stops timer A, moves timer B to `expires` after it, and puts the deferred CANCEL, and nothing else, on the wire |
| `SipRequests.LateResponse` | sippy/SipTransactionManager.py:464-481 | In every run, a response for a transaction in TERMINATED or UACK changes nothing |
| `SipAnswers.TuIsHeard` | sippy/SipTransactionManager.py:724-776 | In every run, a response of the TU on an open transaction goes on the wire as the answer to the transaction's own request, with its To tag or, above 100, a generated one, and into the cache; a provisional one arms timer F; a final one to INVITE is re-keyed by that tag, resent after 0.5 s and given up after 32 s; a final one to another request ends the transaction; on any other key nothing happens |
| `SipAnswers.ServerTimersDo` | sippy/SipTransactionManager.py:555-559 | In every run: timer A puts the stored final response on the wire again, under the tag that the ACK is matched by, and doubles its wait; timer D tells `noack_cb` if it is set and removes the entry unless it raised; timer E answers 487 and then tells `cancel_cb` if it is set; timer F puts the stored provisional response on the wire again |
| `SipAnswers.RequestIsHandled` | sippy/SipTransactionManager.py:590-701 | In every run, a request that the cache does not know: 482 if one of its branches is that of a client transaction with its dialog and method; a repeated one gets the stored response; a CANCEL gets 200, and the open INVITE 487 and `cancel_cb`; an ACK stops D and A, removes the entry and calls `ack_cb` if it is set; a stray ACK gets nothing, a stray CANCEL 481; any other gets a transaction that expires after its `Expires` or 300 s and goes to the TU, whose calls are done in order, whose callbacks are installed and whose reply or refusal leaves |
| `SipAnswers.OtherDatagramsDo` | sippy/SipTransactionManager.py:283-394 | In every run: short datagrams are dropped, cached ones get the cached packet, malformed ones and responses that nobody waits for are remembered without an answer |
| `SipAnswers.PurgeDoes` | sippy/SipTransactionManager.py:822-825 | In every run, a purge keeps what was stored since the last one and forgets what is older |
| `SipTransactionManager.TransactionManager.constructor` | sippy/SipTransactionManager.py:258-270 | A new manager has empty tables and caches |
| `SipTransactionManager.TransactionManager.HandleDatagram` | sippy/SipTransactionManager.py:272-394 | One received datagram: reply cache, malformed and cut-off texts, responses, requests, and the reply to a TU that raises; the new state is that of the run model |
| `SipTransactionManager.TransactionManager.TransmitData` | sippy/SipTransactionManager.py:831-845 | Sending, and remembering what was sent as the reply to byte-identical datagrams |
| `SipTransactionManager.TransactionManager.RCachePurge` | sippy/SipTransactionManager.py:822-825 | The current generation of the reply cache becomes the older one |
| `SipTransactionManager.TransactionManager.SendResponse` | sippy/SipTransactionManager.py:724-775 | A response of the TU or of the manager; on a finished transaction nothing changes unless it is a retransmission |
| `SipTransactionManager.TransactionManager.CompleteTransaction` | sippy/SipTransactionManager.py:747-775 | The end of a final response: timers E and F stop, an INVITE moves to its To-tag key with timers D and A, any other transaction leaves |
| `SipTransactionManager.TransactionManager.ContinueTransaction` | sippy/SipTransactionManager.py:741-746 | A provisional response puts the transaction into RINGING and re-arms timer F |
| `SipTransactionManager.TransactionManager.TuSendResponse` | sippy/SipTransactionManager.py:727-729 | The TU's response finds its transaction by the branch key; an unknown key changes nothing |
| `SipTransactionManager.TransactionManager.DoCancelTransaction` | sippy/SipTransactionManager.py:777-783 | A cancellation answers an INVITE with 487 and then calls `cancel_cb` |
| `SipTransactionManager.TransactionManager.RunTuCalls` | sippy/SipTransactionManager.py:681-691 | The TU's calls while it handles a new request, in order |
| `SipTransactionManager.TransactionManager.IncomingRequest` | sippy/SipTransactionManager.py:590-641 | Loop check, matching by branch or (for ACK) by To tag, and the four kinds of unmatched requests |
| `SipTransactionManager.TransactionManager.IncomingRequestMatched` | sippy/SipTransactionManager.py:603-630 | Duplicate, CANCEL and ACK of an existing server transaction |
| `SipTransactionManager.TransactionManager.IncomingAck` | sippy/SipTransactionManager.py:616-630 | The ACK cancels timers A and D, takes the entry out, calls `ack_cb` and cleans up; without a timer D, or with a callback that raises, it leaves midway |
| `SipTransactionManager.TransactionManager.IncomingRequestNew` | sippy/SipTransactionManager.py:641-691 | A new server transaction is entered, armed and handed to the TU; when the TU raises a parse error that carries a response, this is sent and remembered |
| `SipTransactionManager.TransactionManager.FinishRequest` | sippy/SipTransactionManager.py:692-701 | What follows from the TU's return value |
| `SipTransactionManager.TransactionManager.FireTimerA` | sippy/SipTransactionManager.py:555-559 | Server timer A resends the final response and doubles its interval |
| `SipTransactionManager.TransactionManager.FireTimerD` | sippy/SipTransactionManager.py:785-794 | Timer D cancels timer A, calls `noack_cb` unless confirmed and removes the transaction under its own key, unless the callback raises |
| `SipTransactionManager.TransactionManager.FireTimerE` | sippy/SipTransactionManager.py:796-805 | Timer E cancels an INVITE that is still unanswered |
| `SipTransactionManager.TransactionManager.FireTimerF` | sippy/SipTransactionManager.py:809-814 | Timer F resends the last provisional response while RINGING |
| `SipTransactionManager.TransactionManager.NewTransaction` | sippy/SipTransactionManager.py:397-452 | A client transaction is entered with timers A and B and sent; a key in use is refused |
| `SipTransactionManager.TransactionManager.CancelTransaction` | sippy/SipTransactionManager.py:454-462 | CANCEL starts now in RINGING and is deferred otherwise |
| `SipTransactionManager.TransactionManager.IncomingProvisional` | sippy/SipTransactionManager.py:481-495 | A provisional response: state, deferred CANCEL, timer B, cache, callback, in this order |
| `SipTransactionManager.TransactionManager.IncomingFinal` | sippy/SipTransactionManager.py:496-553 | A final response: ACK or UACK with timer G, callback, and removal unless the callback raises; `SipPackets.FinalResponseIsAcked` says which packet leaves |
| `SipTransactionManager.TransactionManager.IncomingClientResponse` | sippy/SipTransactionManager.py:464-481 | Responses in the other states do nothing |
| `SipTransactionManager.TransactionManager.SendACK` | sippy/SipTransactionManager.py:847-857 | Timer G is cancelled, the TU's own ACK is sent, and the transaction is removed |
| `SipTransactionManager.TransactionManager.FireClientTimerA` | sippy/SipTransactionManager.py:555-559 | Client timer A resends the request and doubles its interval |
| `SipTransactionManager.TransactionManager.FireTimerB` | sippy/SipTransactionManager.py:561-576 | Timer B ends the transaction with a local 408 and arms C |
| `SipTransactionManager.TransactionManager.FireTimerC` | sippy/SipTransactionManager.py:582-588 | Timer C removes the transaction |
| `TwoGeneration.CacheRefinesStampedMap` | sippy/SipTransactionManager.py:182-190 | For every sequence of stores, lookups and rotations, the two-generation cache answers every lookup like one map whose entries carry the period of their last store (or, with promotion, last use) and expire after the next period |
| `TwoGeneration.ResultsRefine` | sippy/SipTransactionManager.py:287-290 | The same from any pair of states that agree |
| `TwoGeneration.AddressCache.GetServer` | sippy/SipTransactionManager.py:179-215 | One server at a fixed address; else the server at the local address that the caller names, or that a hit in the cache gives (promoted from the older generation) or a miss resolves and stores; every address has its own server, and none ever changes |
| `TwoGeneration.AddressCache.RotateCache` | sippy/SipTransactionManager.py:217-219 | The current generation becomes the older one |
| `CallSetup.ChainRefinesDeadlines` | sippy/UacStateIdle.py:85-105 | For every sequence of responses, abandonments and clock ticks, the chained single timer reports exactly what three independent deadlines would (no-reply values of 32 s or more ignored), due times included; at most one timer is armed, none outside Trying and Ringing |
| `CallSetup.RunRefines` | sippy/UacStateTrying.py:48-81 | The same from any leg that agrees with its deadlines, response by response |
| `CallSetup.FinalCodeDecides` | sippy/UacStateTrying.py:85-141 | After every history: a final code during set-up is reported and moves the leg, 2xx with a tag as a connection, 2xx without one as failure 502, any other as failure with its own code; provisional codes ring; once given up, nothing is reported and the final code decides between Disconnected and Dead |
| `CallSetup.EarliestWaitIsReported` | sippy/UacStateIdle.py:85-105 | When only provisional responses have come since the call was tried, a clock tick reports the earliest of: the no-reply time if none has come and it is under 32 s, the no-progress time if all were 100, the expiry; and nothing before that |
| `CallSetup.UacLeg.RecvTry` | sippy/UacStateIdle.py:85-106 | Deadlines that cannot fire first are dropped and the first of the rest is armed |
| `CallSetup.UacLeg.RecvResponse` | sippy/UA.py:216-234 | A response in each state: a 401 or 407 that was answered is swallowed, else new state, timers and event |
| `CallSetup.UacLeg.TryingResponse` | sippy/UacStateTrying.py:42-141 | The hand-over from one timer to the next in Trying |
| `CallSetup.UacLeg.RecvAbandon` | sippy/UacStateTrying.py:143-159 | Giving up disarms every set-up timer |
| `CallSetup.UacLeg.RunTimers` | sippy/UA.py:254-264 | An expired timer clears its own field and disconnects the leg |
| `Routing.AckAndUaAgree` | sippy/SipTransactionManager.py:505-528 | For every 2xx with a Contact and any Record-Route list, without outbound proxy: the transaction layer's ACK and the UA's later requests have the same request URI, Route list and next hop, and the hops are the reversed Record-Route list and then the Contact, in the loose and the strict case (section 12.2.1.1 of RFC 3261) |
| `Routing.AgreementExactlyWhen` | sippy/UacStateTrying.py:163-182 | The two agree if and only if: without an outbound proxy, there is a Contact, or the first route is loose, or there are no routes and the INVITE went to the address of its own request URI; with one, it is where the ACK goes anyway, and there are no routes, or a strict first one and a Contact |
| `Routing.AckStopsAtTheStrictRouter` | sippy/SipTransactionManager.py:505-528 | A 2xx without Contact from behind one strict router: the ACK has no Route and ends at the router, the UA's requests go on to the remote target |
| `Routing.AckFieldByField` | sippy/SipTransactionManager.py:505-533 | For every 2xx: request URI, each Route and the address of the ACK, behind a strict router, a loose one and without routes, with and without a Contact |
| `Routing.LaterFieldByField` | sippy/UacStateTrying.py:163-182 | The same for the UA's later requests; with an outbound proxy and a loose first route the request URI is that router without its `lr`, and the routes are all routers and then the remote target |
| `Routing.TransactionLayer.BuildAck` | sippy/SipTransactionManager.py:505-533 | The ACK for a 2xx as the transaction layer builds it |
| `Routing.UaRoutes.UpdateRoutes` | sippy/UacStateTrying.py:163-182 | The route set that the UA keeps, with or without an outbound proxy, updated in place |
| `RtpEndpoint.EverythingGivenBackOnce` | sippy/Rtp/EPoint.py:169-229 | With one updating thread and any number of `shutdown` calls interleaved between the lock-protected sections, and with calls into the server that may raise: no channel is closed twice, no writer ended twice, the server not released twice; when the endpoint has been shut down and every thread is through, each writer started was ended once, the server released once, and a channel created was closed once if and only if it was not leaked |
| `RtpEndpoint.AllClosedExactlyWhen` | sippy/Rtp/EPoint.py:126-135 | Then every channel created has been closed if and only if in no swap of the run the new channel refused its target |
| `RtpEndpoint.ChannelLost` | sippy/Rtp/EPoint.py:127-129 | A run in which it does: channel 1 is never closed |
| `RtpUpdates.UpdateDelivers` | sippy/Rtp/EPoint.py:169-214 | In every reachable state without a shutdown, an update that runs alone ends; unless a call raises the endpoint then has a writer if and only if it has a target, a new one if and only if there was none or the packet time or the protocol changed, and a new channel if and only if the protocol changed; what is replaced is ended or closed, and the log grows by exactly these events, in order; when a call raises, nothing after it is done |
| `RtpUpdates.ConstructionDelivers` | sippy/Rtp/EPoint.py:27-39 | A constructed endpoint has its channel, and a started writer if and only if it has a target |
| `RtpUpdates.ShutdownDelivers` | sippy/Rtp/EPoint.py:219-229 | From any state, a shutdown ends the writer, closes the channel and releases the server, in this order, each if it is there, and leaves none |
| `RtpEndpoint.RTPEPoint.constructor` | sippy/Rtp/EPoint.py:30-90 | A new endpoint holds a channel and the server, and a writer if it has a target; a construction that fails has released the server and closed the channel, or leaves both to the shutdown that follows when the writer fails |
| `RtpEndpoint.RTPEPoint.UpdateSection` | sippy/Rtp/EPoint.py:174-192 | The locked section at the head of `update`; `RtpUpdates.UpdateDelivers` says what comes of it |
| `RtpEndpoint.RTPEPoint.BindSection` | sippy/Rtp/EPoint.py:126-129 | Binding the new channel and setting its target, each of which may raise |
| `RtpEndpoint.RTPEPoint.SwapSection` | sippy/Rtp/EPoint.py:130-135 | The locked section that swaps the channel, or closes the new one |
| `RtpEndpoint.RTPEPoint.InstallSection` | sippy/Rtp/EPoint.py:207-214 | The locked section that installs the new writer, or ends it |
| `RtpEndpoint.RTPEPoint.ShutdownSection` | sippy/Rtp/EPoint.py:220-222 | The locked section that takes everything away |
| `RtpSingletons.CountIsNumberOfHolders` | sippy/Rtp/Singletons.py:13-33 | For any set of endpoints and any interleaving, constructors that are under way or fail included: the reference count is the number of endpoints that are being constructed or have not released the server, the singleton exists if and only if it is positive, and it is the server that each of them holds |
| `RtpSingletons.Singletons.AcquireRtpServer` | sippy/Rtp/Singletons.py:13-19 | The shared server is made on demand and counted |
| `RtpSingletons.Singletons.ReleaseRtpServer` | sippy/Rtp/Singletons.py:22-33 | A release of the shared server counts down and drops it at zero; any other is ignored |
| `Packetiser.PacketiserConserves` | sippy/Rtp/OutputWorker.py:137-186 | In every interleaving of `soundout` calls with the packetising thread, whatever the chunks: frames received are processed, queued or pending; pending bytes are the buffer; packets have one size; packets and buffer in order are the encoding of the padded chunks in order; a chunk counts as processed exactly when its last encoded byte has been sent |
| `Packetiser.CodecRateNeverFails` | sippy/Rtp/OutputWorker.py:173-174 | If every chunk comes at the codec's rate, the buffer is always a whole number of packets and the assertion never fails, in any interleaving |
| `Packetiser.AssertionFailsExactlyWhen` | sippy/Rtp/OutputWorker.py:152-174 | In every run, the assertion fails if and only if at some point a packet is due while the resampler has changed the number of samples of the chunks taken so far by no multiple of the packet size |
| `Packetiser.ResamplingCanFail` | sippy/Rtp/OutputWorker.py:153-162 | A run in which the assertion fails: two chunks of 100 samples at 16 kHz, packets of 20 ms |
| `Packetiser.EveryByteOnTheWire` | sippy/Rtp/OutputWorker.py:146-180 | In every interleaving, byte n of packets and buffer encodes sample n, after all samples before it, of the chunks' own or resampled audio in the order accepted, each followed by fewer zeros than a packet and as many as make the chunk as it came a whole number of packets |
| `Packetiser.EachCallSends` | sippy/Rtp/OutputWorker.py:146-180 | A call takes chunks from the front of the queue only while there is less than a packet, and sends one packet unless the assertion fails or the whole queue does not fill one |
| `Packetiser.MarkTwice` | sippy/Rtp/OutputWorker.py:127-135 | Marking sent bytes in two portions leaves what marking them at once leaves |
| `Packetiser.PendingAreUnfinished` | sippy/Rtp/OutputWorker.py:127-135 | What marking leaves pending are exactly the chunks whose last byte is not yet sent |
| `Packetiser.ProcInIsRun` | sippy/Rtp/OutputWorker.py:137-186 | A call of `_proc_in` is one of the interleavings of the run model |
| `Packetiser.RTPOutputWorker.Soundout` | sippy/Rtp/OutputWorker.py:96-104 | A chunk is counted and queued |
| `Packetiser.RTPOutputWorker.MarkProcessedBytes` | sippy/Rtp/OutputWorker.py:127-135 | The loop over the pending chunks, and the frame counter |
| `Packetiser.RTPOutputWorker.TakeFromQueue` | sippy/Rtp/OutputWorker.py:148-168 | One turn of the loop: resample, pad, encode, account |
| `Packetiser.RTPOutputWorker.SendPacket` | sippy/Rtp/OutputWorker.py:173-180 | One packet leaves, or the assertion fails |
| `Packetiser.RTPOutputWorker.ProcIn` | sippy/Rtp/OutputWorker.py:137-186 | The whole call: chunks are taken until a packet is there, one packet leaves, and the next call is due one period after the deadline (the first call's own time), or never when the stream has ended |
| `Ingest.ReceivingLosesNothing` | sippy/Rtp/Ingest.py:42-73 | For G.711 with an output rate that is a positive multiple of 8000, in every run: blocks and then the leftover are all payloads and silence fills in order, each block has 800 bytes, and unless the sequence-number assertion failed every frame is there and less than a block is left over |
| `Ingest.EveryByteHasItsPlace` | sippy/Rtp/Ingest.py:51-73 | In every such run: blocks and leftover have exactly as many bytes as the RTP frames carry and the gaps have lost; from where the frames before it end, each RTP frame's own bytes stand, and for a gap as many bytes 255; blocks have 800 bytes, and unless an assertion failed no frame is missing |
| `Ingest.PacketStopsAtTheFirstMisfit` | sippy/Rtp/Ingest.py:52-66 | A packet is handled to its end if and only if each RTP frame has the number after the frame or gap before it, the first one since the start or an update excepted; otherwise the frames before the first misfit are absorbed and no block is cut |
| `Ingest.BlocksAreStamped` | sippy/Rtp/Ingest.py:63-71 | Every block a packet releases carries the time of its own first byte, reckoned from the latest RTP frame at 8000 bytes a second; earlier blocks stay |
| `Ingest.BlockArithmetic` | sippy/Rtp/Codecs/G711.py:29-39 | Whatever such output rate: a block is 800 encoded bytes, and is cut if and only if that many are there |
| `Ingest.RTPInStream.PktProc` | sippy/Rtp/Ingest.py:42-73 | One packet; a failed assertion leaves before any block is cut |
| `Ingest.RTPInStream.AppendFrames` | sippy/Rtp/Ingest.py:51-66 | The loop over the frames; which bytes it appends is `Ingest.EveryByteHasItsPlace` |
| `Ingest.RTPInStream.CutBlocks` | sippy/Rtp/Ingest.py:67-73 | The loop that cuts blocks terminates and cuts all of them |
| `Ingest.RTPInStream.Update` | sippy/Rtp/Ingest.py:32-36 | `stream_update` forgets the last sequence number |
| `SdpPrintedText.PrintKeepsMeaning` | sippy/SdpBody.py:106-156 | For every well-formed body with any number of sections: its text, with the connection hoisted or in every section, is read back (without a session-level connection over sections) if and only if no value has a line break in it and the last line does not end in a blank; it is read back as the printed body if and only if, besides, there are no sections or no session-level connection |
| `SdpPrintedText.TextReadsBack` | sippy/SdpBody.py:133-155 | The same condition, whatever connection is hoisted over the sections |
| `SdpPrintedText.ReprintingIsStable` | sippy/SdpBody.py:60-104 | For every text the parser accepts: printing what was read and reading it again gives the same result if and only if the last printed line does not end in a blank |
| `SdpPrintedText.ParsedClean` | sippy/SdpBody.py:73-90 | What is read from a text has no line break in any value |
| `SdpLostTexts.TrailingBlankIsLost` | sippy/SdpBody.py:73-74 | An accepted text that does not survive: an attribute `x` with a blank behind it, before a `b=` line, is printed last and loses the blank |
| `SdpLostTexts.SessionConnectionIsLost` | sippy/SdpBody.py:91-94 | A body with a session-level connection and a section is read back without the former |
| `SdpLostTexts.LineBreakIsLost` | sippy/SdpBody.py:73-74 | A value with a line break in it is not read back |
| `SdpRoundTrip.LinesKeepMeaning` | sippy/SdpBody.py:106-156 | On lines, for every well-formed body: the hoisted and the plain form parse to the same body, which is the printed one if and only if it has no sections or no session-level connection |
| `SdpRoundTrip.ParseUndoesPrint` | sippy/SdpBody.py:133-155 | On lines, whatever connection text is hoisted over the sections, parsing gives the body back |
| `SdpRoundTrip.ParsedOk` | sippy/SdpBody.py:91-104 | Every accepted body is well-formed and has no session-level connection if it has sections |
| `SdpRoundTrip.HeaderRoundTrip` | sippy/SdpBody.py:33-36 | Each header's text parses back to the header |
| `SdpRoundTrip.MediaRoundTrip` | sippy/SdpMedia.py:43-75 | A media header's text, with its numbers, parses back |
| `SdpRoundTrip.AttrRoundTrip` | sippy/SdpMediaDescription.py:38-51 | An attribute's text parses back, if its name has no colon |
| `SdpLayout.PrintedLayout` | sippy/SdpBody.py:106-156 | Every printed body has its lines in the order of the source, the connection at the top if and only if the session has one, there is one section, or the first two sections share one and the session has none, and then no section with this connection has its own line |
| `SdpLayout.NameInAnyCase` | sippy/SdpBody.py:77-90 | A line is read alike whether its name is in capital or small letters |
| `SdpLayout.ReadIsComplete` | sippy/SdpBody.py:97-104 | What is read has v, o, s and t, each section m and c, and no header of another name |
| `SdpLayout.BlankLineIsSkipped` | sippy/SdpBody.py:73-74 | A line of nothing but blanks makes no difference, wherever it stands |
| `SdpLayout.RefusalNamesTheFirst` | sippy/SdpBody.py:97-104 | A refusal for a missing header names the first missing one in the order v, o, s, t, or else in the order c, m of a section |
| `SdpLayout.UnknownIsRefused` | sippy/SdpBody.py:75-90 | A line without `=` or with an unknown name is refused, at session level and in a section |
| `SdpObjects.SdpBody.Read` | sippy/SdpBody.py:72-104 | Stripping the text, splitting it into lines, and the loops over lines, sections and mandatory headers give the model's result or its error |
| `SdpObjects.SdpBody.ReadLine` | sippy/SdpBody.py:77-90 | One line of the parser's loop, on the section objects |
| `SdpObjects.SdpBody.FillSections` | sippy/SdpBody.py:91-94 | A session-level connection goes to each section without one |
| `SdpObjects.SdpBody.CheckRequired` | sippy/SdpBody.py:97-104 | The first missing mandatory header |
| `SdpObjects.SdpBody.ToLines` | sippy/SdpBody.py:106-156 | The printer with its three branches |
| `SdpObjects.SdpBody.ToText` | sippy/SdpBody.py:106-156 | The text that is printed |
| `SdpObjects.SdpBody.AddHeader` | sippy/SdpBody.py:220-224 | A session-level header is set, an attribute appended |
| `SdpObjects.SdpMediaDescription.AddHeader` | sippy/SdpMediaDescription.py:106-110 | A section's header is set, an attribute appended |
| `SdpObjects.SdpMediaDescription.LocalStr` | sippy/SdpMediaDescription.py:87-97 | A section's lines, with or without its connection |
| `SdpObjects.MediaStr` | sippy/SdpMedia.py:67-75 | The text of a media header, format by format |
| `TimerQueue.CallbacksAreDue` | sippy/Core/EventDispatcher.py:70-88 | In every run, the n-th run of a timer without randomized intervals comes at or after its registration plus n intervals, an absolute timer's only run at or after its time; no timer runs more often than its ticks |
| `TimerQueue.NeverAfterCancel` | sippy/Core/EventDispatcher.py:50-62 | In every run, a cancelled timer's callback never runs again |
| `TimerActions.RegisteredTimerRuns` | sippy/Core/EventDispatcher.py:151-203 | In every run, from the call that registers a timer without random intervals: its n-th run is due exactly n intervals after the registration, or at its absolute time, and comes no earlier; it runs at most as often as ordered, once where fewer than two ticks are ordered, without bound only for -1, and not at all for 0 |
| `TimerActions.CancelledNeverRuns` | sippy/Core/EventDispatcher.py:50-62 | In every run, after a call of `cancel` the timer's callback does not run |
| `TimerActions.EveryStep` | sippy/Core/EventDispatcher.py:167-203 | In every run: a turn runs the callback of the live timer that is due first, and only turns do; a periodic one waits again an interval later; a started one waits for its time; a break stops the turns until the loop is entered again |
| `TimerQueue.AllDueHaveRun` | sippy/Core/EventDispatcher.py:168-172 | When `dispatchTimers` ends without a break, every started and uncancelled timer is due after `last_ts`, with its runs and remaining ticks adding up to n, or has run exactly n times |
| `TimerQueue.EarlierRunsFirst` | sippy/Core/EventDispatcher.py:168-190 | In every run: if at some time two timers wait and the first is due earlier, the second does not run from then on unless the first has run or been cancelled since |
| `TimerQueue.AtMostHalfIsWaste` | sippy/Core/EventDispatcher.py:290-294 | In every run `twasted` is at least the number of cancelled heap entries, and right after the sweep the heap is at most twice the live timers |
| `TimerQueue.EventDispatcher2.RegTimer` | sippy/Core/EventDispatcher.py:151-165 | A timer is made, unless it has no ticks; an absolute one has one |
| `TimerQueue.EventDispatcher2.Start` | sippy/Core/EventDispatcher.py:70-88 | `go` sets the due time and enters the timer into the heap |
| `TimerQueue.EventDispatcher2.CancelListener` | sippy/Core/EventDispatcher.py:50-62 | A live timer counts as waste and is cleared |
| `TimerQueue.EventDispatcher2.PopRoot` | sippy/Core/EventDispatcher.py:173-190 | One turn: a dead entry is dropped, a periodic timer is pushed again with one tick less |
| `TimerQueue.EventDispatcher2.DispatchTimers` | sippy/Core/EventDispatcher.py:167-203 | What the loop does, each callback with its own time and the timers it registers, starts and cancels and the break it asks for, is a run of the model; if it ends by itself, nothing is due |
| `RtpproxyUdp.CallbackExactlyOnce` | sippy/Rtp_proxy/Client/udp.py:119-170 | In every run, with replies, duplicates, timers and callbacks that send: a command no longer pending had its callback called once, a pending one not yet, and has a timer armed |
| `RtpproxyUdp.TriesAndTiming` | sippy/Rtp_proxy/Client/udp.py:93-132 | In every run a command is sent at most max(1, n) times, no sooner than planned, where n is the number the command asks for or else the one that `getnretrans` reckons from the timeout T of its kind; while the worker runs it fails only after all of them, at x(2^max(1,n) - 1) after the request if no timer is late and no earlier if one is; with n reckoned that is at most max(T, x) |
| `RtpproxyReplies.CalledWithTheFirstAnswer` | sippy/Rtp_proxy/Client/udp.py:138-170 | In every run, the one call of a finished command's callback is the text of the first answer to its cookie since it was sent, at the time when that was read, or nothing, at the time of the timer that gave up; a pending command has had neither |
| `RtpproxyReplies.TriesFitTheTimeout` | sippy/Rtp_proxy/Client/udp.py:98-111 | In every run, a command that does not say how often to be sent gets the largest number of doubling waits that fits into 10 s for an I, 1 s for a G and 3 s for any other |
| `RtpproxyReplies.EveryStep` | sippy/Rtp_proxy/Client/udp.py:93-170 | In every run: a command, asked for by the user or in a callback, goes out at once and waits four times the delay estimate; a timer with a try left sends it again and waits twice as long, one without gives up; no other request changes; the estimate, 0.25 at first, moves by a twentieth towards the delay of an answer if and only if the command was sent once and the callback did not raise |
| `RtpproxyUdp.FailsInTime` | sippy/Rtp_proxy/Client/udp.py:110-111 | With n reckoned, the time of failure is never beyond the timeout, or the first wait where not even that fits |
| `RtpproxyUdp.RetriesUnique` | sippy/Rtp_proxy/Client/udp.py:39-49 | n is the one number with x(2^n - 1) <= T < x(2^(n+1) - 1) |
| `RtpproxyUdp.FilterStaysPositive` | sippy/Rtp_proxy/Client/udp.py:95-111 | In every run the delay estimate is positive, so the argument check of `getnretrans` never fails |
| `RtpproxyUdp.Getnretrans` | sippy/Rtp_proxy/Client/udp.py:39-49 | The loop terminates with this number; a non-positive first wait is an error |
| `RtpproxyUdp.Recfilter.ApplySample` | sippy/Math/recfilter.py:46-48 | The filter's new value, between the old one and the sample |
| `RtpproxyUdp.RtpProxyClientUdp.SendOne` | sippy/Rtp_proxy/Client/udp.py:93-117 | A command is sent and becomes pending with its timer |
| `RtpproxyUdp.RtpProxyClientUdp.RetransmitOne` | sippy/Rtp_proxy/Client/udp.py:119-132 | The timer gives up with a None callback, or sends again with a doubled wait |
| `RtpproxyUdp.RtpProxyClientUdp.ReadReply` | sippy/Rtp_proxy/Client/udp.py:138-169 | A reply takes its command out, calls back, and then feeds the filter unless there was a retransmission; what the callback is told is `RtpproxyReplies.CalledWithTheFirstAnswer` |
| `RtpproxyUpdate.SuccessHandsOutSlices` | sippy/Rtp_proxy/Session/update.py:76-86 | After a success each subcommand was handed exactly its own contiguous slice of the zero-padded results, accepted it, and the slices together are all of them |
| `RtpproxyUpdate.RaisedExactlyWhen` | sippy/Rtp_proxy/Session/update.py:47-87 | A text raises an exception, instead of one call of the callback, if and only if only blanks stand before its first `&&`, or its first field is not a number, does not begin with an E, and no subcommand finds fault with the results |
| `RtpproxyUpdate.AnswersThatRaise` | sippy/Rtp_proxy/Session/update.py:47-87 | Such texts: the empty one, one that begins with `&&`, and a word |
| `RtpproxyAnswers.EveryAnswer` | sippy/Rtp_proxy/Session/update.py:42-109 | For every text, case by case in the source's order: an error for a first field that begins with E; too many results, the command at the place of a trailing -1, the first subcommand that rejects its own zero-padded results; a port that is no number or is 0; and else a success with this port, the second field or the proxy's address, IP6 if and only if the third field is 6, and on hold if and only if the request was for 0.0.0.0 or :: |
| `RtpproxyAnswers.TextIsRead` | sippy/Rtp_proxy/Session/update.py:47-59 | The text that joins given fields by blanks and given results by `&&` is read as exactly these |
| `RtpproxyUpdate.UpdateParams.ProcessRtppResult` | sippy/Rtp_proxy/Session/update.py:42-109 | From the text of the answer: the callback is called exactly once on every path that raises nothing, with the verdict of the model, and is gone after a success |
| `RtpproxyUpdate.UpdateParams.Blame` | sippy/Rtp_proxy/Session/update.py:67-75 | A trailing -1 is blamed on the command at its own place among all commands, an index in range |
| `RtpproxyUpdate.UpdateParams.HandOut` | sippy/Rtp_proxy/Session/update.py:78-86 | The loop that takes results from the front of the list gives each subcommand its slice |
| `RtpproxyUpdate.UpdateParams.Expected` | sippy/Rtp_proxy/Session/update.py:62-62 | The number of commands of all subcommands |
| `SdpChange.CallbackOnce` | sippy/Rtp_proxy/Session/side.py:199-247 | For any positive number of supported sections and any order of their answers: the SDP callback is called at most once, and once if and only if no answer raises or one fails; with a body if and only if every section succeeded, each then rewritten with its own result, no other section touched, and the session's attributes passed through the subcommands' ends in the order of the answers |
| `SdpChange.AnswerSwallowed` | sippy/Rtp_proxy/Session/side.py:199-206 | One section whose update is answered with a text that raises: the callback is never called and the body waits for ever |
| `SdpChange.OnePtime` | sippy/Rtp_proxy/Session/side.py:224-232 | After repacketizing a section has exactly one `ptime`, the wanted one, and its other attributes in order |
| `SdpSections.EverySectionSays` | sippy/Rtp_proxy/Session/side.py:199-247 | For the body that the callback gets, about each section whose update was answered: the connection has the answer's family and address, the port is the answer's unless it was 0, every other header is as the subcommands left it; each `rtcp` names port + 1, family and address; on hold `sendrecv` is gone and `sendonly` there; the packet time stands once, where the last old one was, or after the first `fmtp`, or before the last attribute; all other attributes are there in order; other sections are untouched, the last is marked if configured, and the session's headers but the origin stay |
| `SdpSections.OriginOfTheBody` | sippy/Rtp_proxy/Session/side.py:236-247 | Its origin is this side's, at the proxy's address: the same number while the remote number stays, with a version one higher if and only if the remote version changed, and a new number otherwise |
| `SdpSections.TransportInAnyCase` | sippy/Rtp_proxy/Session/side.py:173-175 | Whether a section's transport is supported does not depend on its letters' case |
| `SdpChange.RtppsSide.OnSdpChange` | sippy/Rtp_proxy/Session/side.py:161-197 | Which sections get an update; none means no callback is to come |
| `SdpChange.RtppsSide.SdpChangeFinish` | sippy/Rtp_proxy/Session/side.py:199-247 | One section's end |
| `SdpChange.RtppsSide.FinishBody` | sippy/Rtp_proxy/Session/side.py:236-247 | The end of the body: origin, marker and callback |
| `SdpChange.RtppsSide.RewriteSection` | sippy/Rtp_proxy/Session/side.py:214-234 | A section's new connection, port and attributes; `SdpSections.EverySectionSays` says them field by field |
| `SdpChange.RtppsSide.Repacketize` | sippy/Rtp_proxy/Session/side.py:224-232 | The loop that replaces `ptime` |
| `SdpChange.RtppsSide.RemoveSendrecv` | sippy/Rtp_proxy/Session/side.py:219-223 | `sendrecv` gives way to `sendonly` |
| `Sequencer.FirstInFirstOut` | sippy/Rtp_proxy/Cmd/sequencer.py:39-67 | In every run, commands and deletions inside callbacks and callbacks that raise included: called commands are a prefix of those sent, these of those accepted, at most one is in flight, none waits while none is in flight; when the last result is in, a deferred deletion has been done if and only if that result's callback did not raise |
| `Sequencer.RaisingCallbackKeepsTheClient` | sippy/Rtp_proxy/Cmd/sequencer.py:56-59 | A run in which it is never done |
| `Sequencer.EachStreamDeletedOnce` | sippy/Rtp_proxy/session.py:157-166 | In every run that deletes the session: each index that had an update gets exactly one D, or none if it is the timed-out index, after all its U commands |
| `SequencerCalls.EveryCall` | sippy/Rtp_proxy/session.py:157-166 | In every run, inside callbacks and outside: an update has its U accepted and raises the highest index, any other command is accepted as it is, a deletion has one D for each index from the highest to 0 but the timed-out one; all while the sequencer has its client, which it loses at the deletion or, deferred, after the last callback that does not raise |
| `Sequencer.RtpProxyCmdSequencer.Submit` | sippy/Rtp_proxy/Cmd/sequencer.py:39-46 | A command is ignored, queued or sent |
| `Sequencer.RtpProxyCmdSequencer.NextCommand` | sippy/Rtp_proxy/Cmd/sequencer.py:48-55 | A result frees the line for the next command before the callback runs |
| `Sequencer.RtpProxyCmdSequencer.DeleteQueue` | sippy/Rtp_proxy/Cmd/sequencer.py:62-67 | Deletion waits for the command in flight |
| `Sequencer.RtpProxySession.UpdateStream` | sippy/Rtp_proxy/Session/side.py:68-97 | An update raises the highest index and submits U |
| `Sequencer.RtpProxySession.DeleteStreams` | sippy/Rtp_proxy/session.py:157-166 | The loop over the indexes, and the deletion of the sequencer |
| `Sequencer.RtpProxySession.ResultCallback` | sippy/Rtp_proxy/Cmd/sequencer.py:48-60 | A result with whatever calls its callback makes, and the deferred deletion, which is skipped when the callback raises |

## Left out

- Heap objects with references: a transaction, a request and a timer is a record with a number, so aliasing between
  objects is not modelled; the SDP section objects are modelled as objects.
- Time inside one handler: a handler runs at one instant.
- `RtpProxyError`, `SdpParseError` and `SipParseError` out of `ack_cb` and `cancel_cb`, to which the manager replies: an
  exception there is one of another kind.
- A final-response callback that calls back into its own client transaction, and TU calls into client transactions from
  inside a callback.
- Loss emulation, NAT and WSS rewriting of Contact, compact header forms, the wildcard server choice: they do not touch
  the tables, timers or caches.
- Sockets, addresses and the text of SIP messages: keys, codes, tags and the datagram's identity stand for them.
- `req_out_cb` and `res_out_cb`, logging, and `regConsumer`: which consumer gets a request is part of the TU's reaction.
- TwoGeneration.AddressCache.GetServer: what the socket resolves to is a parameter; so is the one local address that has
  a server from the start.
- CallSetup.UacLeg.TryingResponse: SDP callbacks and redirects, as for the next.
- CallSetup.ChainRefinesDeadlines: the SDP callbacks are absent, and the leg is the calling one; redirects count as
  failures; the answering side's `cancel` does not disarm its set-up timers and has no claim here.
- Late media, where the UA sends its own ACK after the connection.
- `UasStateUpdating` and `group_expires`: no claim about them.
- RtpEndpoint.EverythingGivenBackOnce: one updating thread; a writer that fails to start counts as never started.
- Data logging, debugging output and the process channel of the output worker.
- Packetiser.PacketiserConserves: the resampler and the encoders are functions, the encoder one of all samples it has
  been fed, with one byte for a sample (G.711, and G.722 at 8 kHz).
- The jitter buffer: what it hands over is the input of `Ingest`; decoding and G.722's arithmetic.
- Digits outside ASCII and underscores in numbers, letters outside ASCII in `lower()`, and `MyAddress` in an origin;
  `localStr` prints what `str` prints.
- `getPTbyName`, `optimize_a` and `isOnHold`: queries without a claim.
- TimerQueue.EventDispatcher2.DispatchTimers: a number of turns bounds the loop, since a timer with a non-positive
  interval keeps it going for ever; an exception in a callback is caught, so a callback is the calls it makes before
  one; the heap hands out some earliest entry and has no further structure; nested event
  loops, signals and calls from other threads.
- RtpproxyUdp.CallbackExactlyOnce: every command has a callback, cookies are unique, and a reply is read after the
  request it answers was sent.
- `go_offline` and the other transports of the RTP proxy client.
- SdpChange.CallbackOnce: one change of a side at a time; what the DTLS and ICE subcommands do at the end is a function of
  the section, the session's attributes and the answer, which raises nothing; `after_sdp_change`; `soft_repacketize`
  without a packet time.
- SdpChange.RtppsSide.OnSdpChange: the options, subcommands and parameters of each section's update are not modelled.
- SipTransactionManager.TransactionManager.HandleDatagram: the NAT and WSS rewriting of a request's Via and Contact, which
  touches no table; a request whose Contact it cannot read counts as malformed.
- Bodies without a supported section: the wrappers drop the body that `_on_sdp_change` returns.
- Sequencer.FirstInFirstOut: results arrive later, not inside `send_command`.
- Sequencer.RtpProxySession.UpdateStream: the options and subcommands that the text of a U command carries.
- The text of RTP proxy commands, tags and notification sockets.
