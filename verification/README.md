# Verification of the Veidemann recorder proxy

The recorder proxy answers each proxied HTTP request while driving two gRPC streams: one to the browser
controller (New, Notify, Completed) and one to the content writer (ProtocolHeader, Payload, Meta, Cancel).
This project models that protocol, the recording body readers, the content writer that recounts what it is
sent, the session accounting of the proxy, the payload formatter of the logger and the host normalisation
of the request prolog, and proves what they promise. `dafny verify dfyconfig.toml` checks everything.

## How the model is built

- `Session.dfy` is one recording session as a state machine. Five threads (the handler, the transport that
  reads the request body, the select loop with `finish`, the `Recv` goroutine and the disconnect watcher)
  have program counters; `b.m` and `c.m` have owners; the unbuffered channels are rendezvous steps; each
  stream is the sequence of frames on its wire with `closed` and `broken`. A step of a blocked thread
  changes nothing. `Run(schedule)` is the state after any sequence of steps of threads, peers and client, so
  a theorem about `Run(schedule)` is a theorem about every interleaving, every disconnect, every cancel of
  the controller and every failed send. What a lock protects is split into one step per shared access.
- `Effects.dfy` says what each thread's steps leave alone. `ControllerProtocol.dfy`, `WriterProtocol.dfy`,
  `Reporting.dfy` and `Growth.dfy` hold the inductive invariants; `SessionTheorems.dfy` states what follows.
- `Telling.dfy` treats what the client is told, `Closing.dfy` how a session is cancelled and ended,
  `Progress.dfy` and `Finish.dfy` the termination of `finish`, and `Interceptor.dfy` that of the response interceptor.
- `Beginning.dfy`, `Opening.dfy`, `Traces.dfy`, `AfterCancel.dfy`, `Aborting.dfy`, `Cancels.dfy`, `Describing.dfy`,
  `Snapshots.dfy` and `Copies.dfy` each take a promise that the code keeps only sometimes and give the exact
  condition, over all runs, in terms of what can be read off the state. `LogWrites.dfy` is what the last two share.
- `Refusals.dfy`, `Responses.dfy`, `Notices.dfy`, `Sizes.dfy` and `Ends.dfy` follow what the controller says, what the
  handler's calls and the bodies yield and what the archive answers in a run, as functions of the schedule, and prove what is reported of it.
- `Witnesses.dfy` gives concrete runs: a request that succeeds, and a run for each promise that one might
  expect and that the code does not keep. It also shows that every frame sequence that the wire language
  allows does occur.
- `Peer.dfy` is the content writer of the test utilities as an imperative server, and `Composition.dfy`
  runs it against every session. `Proxy.dfy` puts many sessions on many connections.
- `ContentWriter.dfy`, `BrowserController.dfy`, `Bodies.dfy`, `RequestBody.dfy`, `ResponseBody.dfy` and
  `RecorderFilter.dfy` are the same code as objects with fields, arrays and loops. Their contracts give the
  effect of each call; the lemmas named `...IsSteps`, most of them in `Refinement.dfy`, prove that the session's
  steps, run without interruption, have the same effect.
- `Utf8.dfy`, `HexDump.dfy` and `Formatter.dfy` are the payload formatter (sections 3 and 4 of RFC 3629), and
  `Pieces.dfy` says what it shows without using its functions; `Host.dfy` is the host
  functions (with Go's `net.SplitHostPort` and `net.JoinHostPort` written out).

SHA-1 is a free function of the bytes written (`Sha1(content)`); the digest of a record that was never
filled in is `Unset`.

## Assumptions

- After `CloseSend` nothing more reaches the wire, and a failed `Send` makes all later sends on its stream fail.
- The first attempt to open each stream succeeds, from the handler thread, and sessions are created one at a
  time; reads and writes of the shared flags and log fields are atomic.
- The outer proxy library handles the requests of a connection one after the other, and a client that goes
  away may make a response write fail at any point.
- Copying the crawl log is one step, and so is writing the size and digest of the archived response. Its status code
  and its error are written in two.
- `done`, `canceled`, `complete` and the log are read in the order in which the code reads them. Taking a
  lock and the first check under it are one step: only holders of the lock change what is checked, except
  for `b.complete`, which the loop writes without `b.m`, and a write between taking the lock and the check
  has the same effect as one just before.

## What turned out not to hold

- A session's frames need not begin with New: if the client leaves before registration, Completed is the
  only frame (`Witnesses.CompletedAlone`). While nothing has been sent, New is bound to come first exactly if
  registration already holds `b.m`, the loop has ended, or the stream is dead (`Beginning.BeginsWithNewIff`). The
  language of all wires is that of `SessionTheorems.WireLanguage`.
- Record 0 is described exactly if the request body had been read to its end and transmitted when Meta was
  sent (`Describing.RequestDescribedIff`); in all other runs with a Meta frame, and only in these, the checking
  peer reports a mismatch (`Describing.VerdictIff`). `Witnesses.RequestNotDescribed` and
  `Witnesses.RequestRejected` are such a run.
- The client may be told an error that is not the outcome (`Witnesses.ToldAnotherError`,
  `Witnesses.ToldAfterCompleted`). `Telling.ClientIsToldIff` says exactly when, over all exits of
  SendRequestError, and `Telling.CompletedTells` what Completed carries.
- The status code and the error of the log are written one after the other, by receiver, handler and `finish`, under
  no common lock, so they may disagree: in the Completed frame of a session without an outcome
  (`Witnesses.StatusAndErrorDisagree`), and in the copy that handler or receiver hands over
  (`Witnesses.ReportsMix`). `Snapshots.CompletedAgreesIff`, `Copies.ReceiverAgreesIff` and
  `Copies.HandlerAgreesIff` say exactly when, from the first write on.
- Whether a Completed frame says that the response was from the cache is decided when `finish` sends it, so for a client
  that leaves early it may say no of a response that then is (`Witnesses.CachedTooLate`); it is right in every success
  and never says yes otherwise (`Responses.CompletedSaysCached`).
- A cancel by the controller that comes before the content writer is opened does not cancel it, so the
  response is archived although the session is reported as cancelled (`Witnesses.AbortedYetArchived`).
  `Cancels.KeepsOutIff` gives the exact condition for every point that the handler may have reached, registration
  and the inside of SendMeta included.
- The comment on `handleRequestError` says that nothing is written to the content writer. The code may have
  sent frames of the request by then (`Witnesses.ErrorAfterHeader`), and it sends a Cancel itself: nothing is
  written, then or later, exactly if the content writer was not opened, or its stream had died with nothing on it
  (`Traces.NothingWrittenIff`). What always holds is that nothing of such a session is archived
  (`Closing.ErrorsAreNotArchived`).
- A data frame may follow a Cancel frame, because data sends do not take `c.m` (`Witnesses.PayloadAfterCancel`):
  after a cancel by handler or receiver at most two, of threads that had passed their check
  (`AfterCancel.LastData`); when another one can come at all, `AfterCancel.DataFollowsIff` says exactly.
- `finish` can hang for ever, in four ways: the receiver waits for the loop (`Witnesses.ReceiverDeadlock`), a
  reporting handler holds `b.m` (`Witnesses.HandlerDeadlock`), registration holds `b.m` while the receiver
  waits (`Witnesses.RegistrationDeadlock`), or registration holds `b.m` for a reply that does not come, while the
  controller waits for `finish` to close the stream (`Witnesses.SilentDeadlock`). `Finish.FinishesIff` gives the exact
  condition from the moment the loop takes its last branch, for a controller that ends its own stream when `finish`
  has closed, as the one of the test utilities does, and `Finish.EndedFinishesIff` for any controller.
- The interceptor can hang as well. At its send on `done` the client may have left just before
  (`Witnesses.InterceptorHangs`). At the wait for the content writer, no Meta and no Cancel may ever be sent, because
  the controller's stream broke before the response (`Witnesses.InterceptorWaitsForWriter`) or because nobody read
  the response to its end (`Witnesses.UnreadResponseHangs`). At the wait for `finish`, a cancel of the controller may
  keep `finish` from its end. `Interceptor.ReturnsIff` gives the exact condition at each of these points.
- `OpenSessions` subtracts two counters that are read one after the other, so `Close` may stop while a
  session is open throughout (`Proxy.SessReadFirst`): a session that was created and has closed between the readings
  hides one that is still open (`Proxy.Hidden`). When `Close` stops, all sessions that it found have closed exactly if
  as many later ones have as the difference falls short of zero, and all sessions have exactly if these are all the
  later ones (`Proxy.CloseIsRightIff`). In the other order of reading a difference of zero would always be right
  (`Proxy.ClosedReadFirst`).
- A payload of U+FFFD has the same dump as one of the octet EF (`HexDump.ReplacementCharacterIsAmbiguous`), and code
  points above U+FFFF have codes that do not fit their cells: a text can be read back from the cells of its dump
  exactly if it has neither (`HexDump.RoundTripIff`).
- removeZone removes only the last of several zone markers (`Host.RemoveZoneMeans`).

## Model

| member | source | states |
|---|---|---|
| SessionTheorems.WireLanguage | context/browsercontroller_client.go:95-166 | in every run the frames to the controller are a prefix of New Data* AllData? Completed, or Completed alone; stated position by position |
| SessionTheorems.ScanIsLegal | context/browsercontroller_client.go:464-493 | the automaton of the invariant accepts exactly the sequences that are legal position by position |
| Witnesses.EveryLegalWireOccurs | context/browsercontroller_client.go:376-493 | conversely every legal sequence is the wire of some run, so the language is exact |
| SessionTheorems.NothingAfterCompleted | context/browsercontroller_client.go:274-301 | once Completed is on the wire it never changes again, however the run goes on |
| SessionTheorems.FirstOutcomeWins | context/browsercontroller_client.go:95-163 | the outcome is the first message the loop received, for good; Completed carries its snapshot, and the -5011 error if there was none |
| Telling.ToldTheOutcomeIff | context/browsercontroller_client.go:303-344 | when the loop takes the error of SendRequestError, that is what the client is told; it is the outcome, for the rest of every run, iff no outcome had come first or it is the controller's cancel itself |
| Telling.ClientIsToldIff | context/browsercontroller_client.go:303-344 | over all exits of SendRequestError, the client's code is the outcome's iff an error had been decided before, or the loop took the handler's error first, or that error is the controller's cancel |
| Telling.CompletedTells | context/browsercontroller_client.go:95-131 | what Completed carries for each kind of header: -5011 for a decided error, the posted code in status and error unless the controller cancels, and for an error that was not handed over the controller's cancel or -5011, never its own code |
| SessionTheorems.ClientIsTold | recorderproxy/request_handler.go:36-53 | in every run without a controller cancel, the code of a posted header is the outcome's code and Completed's status and error; which code that is, say `Refusals.Refused` and `Refusals.ErrorHasCause` |
| Telling.DecidedIsTold | context/browsercontroller_client.go:310-321 | if there is an error already when SendRequestError looks, the client is told that one, in every continuation in which it is told at all |
| Refusals.Refused | context/browsercontroller_client.go:426-443 | from the controller's replies in the schedule: a request whose first reply other than a cancel of the session is a cancel for robots.txt, or whose stream ends before such a reply, never opens or sends anything to the content writer; an error handed over for it is PRECLUDED_BY_ROBOTS for the cancel or an unknown end and CANCELED_BY_BROWSER for an orderly end, in the header, and, if the controller has not cancelled, in outcome and Completed |
| Refusals.OpenedIfAccepted | context/browsercontroller_client.go:170-203 | the content writer is opened only if the controller has accepted the request, and the error of an unknown end is set only by one |
| Refusals.ErrorHasCause | recorderproxy/request_handler.go:36-51 | every error of an outcome or a posted header is the controller's cancel (an outcome only), the refusal's, or that of the first of the handler's calls to fail: a filter's or the round trip's own, else RUNTIME_EXCEPTION; after a failed call there is no success |
| SessionTheorems.OneTerminal | context/contentwriter_client.go:66-128 | at most one Meta or Cancel is attempted by handler, watcher and receiver together, and the stream is closed only after that |
| SessionTheorems.MetaIsFaithful | context/contentwriter_client.go:202-248 | any Meta on the wire has the exact length and SHA-1 of all that was transmitted for record 1, and for record 0 if its body was at EOF when SendMeta began |
| SessionTheorems.Acknowledged | context/contentwriter_client.go:215-246 | an acknowledgement implies a Meta, no Cancel, and a closed stream |
| SessionTheorems.ArchiveBeforeReport | recorderproxy/response_handler.go:143-178 | a success outcome that is not from the cache implies an acknowledged Meta, no Cancel ever, and size and digest equal to those of the bytes transmitted and of record 1 in Meta |
| SessionTheorems.CompletedReportsArchive | context/browsercontroller_client.go:95-131 | the size in a Completed frame that reports a success is the number of record-1 bytes on the other wire |
| SessionTheorems.CachedSession | recorderproxy/recorder_filter.go:141-145 | a session answered from the cache puts no record-1 frame, no Meta and no Notify on the wires, and its logged size is the prolog's length |
| Responses.CompletedSaysCached | context/browsercontroller_client.go:281-288 | the flag in a Completed frame is true only of a session answered from the cache, right in every success, and always what the session's flag was when finish sent it |
| Responses.CachedIff | recorderproxy/recorder_filter.go:135-145 | a session is answered from the cache iff the response that arrived in the schedule says so, and until one has arrived and is recorded nothing but the request reaches the content writer |
| Responses.SuccessIsResponse | recorderproxy/response_handler.go:66-68 | without a controller cancel, a success has the status code of the response that arrived and no error, and its Completed that log and the response's cache flag |
| Responses.StatusFollows | recorderproxy/request_handler.go:82-82 | while the loop listens and the controller has not cancelled, the log's status is 0, then -1, then the response's, without an error |
| Notices.OneNoticeARead | context/browsercontroller_client.go:456-493 | the controller gets exactly one Data for each read of a recorded response that yields bytes, as long as there is no outcome and its stream is up, and never more; AllData comes before an error that is handed over, and before Meta |
| Notices.PayloadsCarry | recorderproxy/response_handler.go:130-142 | no payload frame is empty |
| Notices.ArchivedIff | context/contentwriter_client.go:226-246 | a session is archived iff the archive answers its Meta frame in the schedule, and then no call of the handler has failed |
| Sizes.OnlyArchivedIsSized | recorderproxy/response_handler.go:143-202 | in every outcome and Completed frame, of an error too, a size or digest is filled in only if the response is archived, or, the size alone, if it is from the cache |
| Ends.OnlyAtTheEnd | recorderproxy/response_handler.go:123-178 | Meta is sent, and a success reported, only of a response that has been read to its end in the schedule, and the request counts as drained only if its body has |
| Ends.WriteErrorIsSaid | recorderproxy/recorderproxy.go:111-116 | what the interceptor says on done of its write to the client is what became of it |
| ControllerProtocol.Kept | context/browsercontroller_client.go:65-374 | every step of every thread keeps the invariant of locks, wire, winner and client error |
| WriterProtocol.Kept | context/contentwriter_client.go:39-248 | every step of every thread keeps the invariant of `c.m`, terminals, both records and Meta |
| Reporting.Kept | context/browsercontroller_client.go:255-272 | every step keeps that a log to be saved describes what was archived |
| Growth.Always | context/browsercontroller_client.go:142-166 | wire and received messages only grow over any continuation |
| Finish.FinishesIff | context/browsercontroller_client.go:281-298 | from the loop's last branch on, finish gets `b.m`, closes its stream, drains msgChan and reaches cancel() under all long enough schedules that are fair to threads and lock, and in which the controller sends no further cancel and ends its stream after finish has closed, and not before, iff no controller cancel is in the receiver's hands or unread, and, while `b.m` is awaited, no report holds it or can still come and no registration can wait for ever |
| Finish.FinishCompletes | context/browsercontroller_client.go:95-155 | the well-founded measure: every fair round lowers it until `b.m` is taken, the stream closed, the controller's end received and cancel() reached; the controller may go on sending replies |
| Finish.FinishFails | context/browsercontroller_client.go:95-155 | without the condition there is such a schedule, as long as one likes, on which cancel() is never reached |
| Finish.EndedFinishesIff | context/browsercontroller_client.go:170-203 | the same over all lock-fair schedules, whatever the controller does: iff the condition holds and its stream has ended already |
| Finish.SettledFinishesIff | context/browsercontroller_client.go:95-155 | once there is an outcome, or the response is being closed, finish completes in all such schedules iff no controller cancel is in the receiver's hands or unread |
| Finish.RegistrationBlocksFinish | context/browsercontroller_client.go:383-429 | while RegisterNewRequest waits under `b.m` and the receiver is acting on a cancel, a loop that has taken its last branch never gets `b.m`, under any schedule |
| Finish.SilenceBlocksFinish | context/browsercontroller_client.go:383-429 | while RegisterNewRequest waits under `b.m` with no reply on its way, and the controller says nothing, a loop that has taken its last branch never gets `b.m` and never closes the stream |
| Finish.HeardIff | context/browsercontroller_client.go:233-240 | a handler that offers a message on completeChan or done goes on in some continuation iff the loop still listens, and otherwise never |
| Interceptor.ReturnsIff | context/browsercontroller_client.go:233-253 | from each of the interceptor's waits it comes to its end, in all such schedules in which the watcher gets turns too and the client stays, iff: at the send on done the loop still listens, the client is there, no controller cancel is pending, and the content writer is unopened or claimed or a failed write will cancel it; at the wait for the content writer it is unopened, claimed or the client gone, and finish ends; at the others, finish ends |
| Interceptor.UnreadWaitsForever | context/browsercontroller_client.go:242-247 | with the stream open and unclaimed, the client there and no controller cancel pending or to come, the wait for the content writer does not end until the client leaves |
| Progress.DoomedNeverFinishes | context/browsercontroller_client.go:202-222 | with a controller cancel in the receiver's hands or unread when the loop takes its last branch, or later, cancel() is never reached, under any schedule |
| Progress.ReportingHandlerBlocksFinish | context/browsercontroller_client.go:261-270 | a sender that holds `b.m` when the loop takes its last branch blocks finish for ever |
| Progress.LateSenderWaitsForever | context/browsercontroller_client.go:233-240 | a handler that sends on completeChan or done after the loop's last branch never leaves that call, and inside the send never moves |
| Closing.ErrorsAreNotArchived | recorderproxy/request_handler.go:34-44 | if the client is told an error, no Meta reaches the content writer, and its stream, if it was opened, is cancelled and dead before the error response is written |
| Closing.WriteErrorCancels | context/browsercontroller_client.go:233-240 | after a failed write to the client the content writer is cancelled and its stream dead before the handler waits for it |
| Closing.WaitMeansSettled | context/browsercontroller_client.go:242-253 | when the interceptor returns after waiting, finish has ended and the content writer's stream has had its one terminal attempt and is dead |
| Closing.Kept | recorderproxy/response_handler.go:196-202 | every step keeps that cancelled paths mark and claim the content writer, also for cached responses |
| Witnesses.CompletedAlone | context/browsercontroller_client.go:113-130 | a run whose only frame is Completed |
| Witnesses.SuccessReported | recorderproxy/response_handler.go:130-178 | a run that is archived and reported as a success |
| Witnesses.CachedReported | recorderproxy/response_handler.go:196-202 | a run that is answered from the cache and reported so, with the prolog's size |
| Witnesses.CachedTooLate | context/browsercontroller_client.go:281-288 | a run answered from the cache whose Completed says otherwise |
| Witnesses.RobotsReported | context/browsercontroller_client.go:430-436 | a run refused for robots.txt, with -9998 in header and Completed |
| Witnesses.CloseReported | context/browsercontroller_client.go:426-429 | a run refused by an orderly end, with -5011 in header and Completed |
| Witnesses.ToldEarly | context/browsercontroller_client.go:314-317 | a run in which the client is told an error that was decided before |
| Witnesses.RequestNotDescribed | recorderproxy/request_handler.go:121-127 | a run whose Meta gives the request size 0 although a byte of it was transmitted |
| Witnesses.RequestRejected | testutil/servicemocks.go:310-324 | the checking peer can only answer that run with a size mismatch |
| Witnesses.ToldAnotherError | context/browsercontroller_client.go:206-220 | a run in which the controller's cancel wins over the error the client is told |
| Witnesses.ToldAfterCompleted | context/browsercontroller_client.go:324-334 | a run without a controller cancel in which Completed has reported -5011 before the client is told -5 |
| Witnesses.StatusAndErrorDisagree | recorderproxy/response_handler.go:68-69 | a run whose Completed has status 200 and error -5011 |
| Witnesses.ReportsMix | context/browsercontroller_client.go:336-340 | a run in which the handler hands over status -5011 with its own error |
| Witnesses.ReceiverDeadlock | context/browsercontroller_client.go:218-222 | a run after which no continuation ends finish |
| Witnesses.HandlerDeadlock | context/browsercontroller_client.go:338-343 | a run after which neither the reporting handler nor the loop ever moves |
| Witnesses.RegistrationDeadlock | context/browsercontroller_client.go:383-429 | a run after which registration, finish and receiver wait for each other for ever |
| Witnesses.SilentDeadlock | context/browsercontroller_client.go:414-419 | a run after which registration and finish stay where they are as long as the controller says nothing |
| Witnesses.InterceptorHangs | context/browsercontroller_client.go:233-253 | a run, archived with success, after which the interceptor never returns |
| Witnesses.InterceptorWaitsForWriter | recorderproxy/recorder_filter.go:135-139 | a run whose controller stream broke before the response, after which the interceptor stays at its wait for the content writer until the client leaves |
| Witnesses.UnreadResponseHangs | context/browsercontroller_client.go:242-247 | the same without any error, after a response that nobody reads to its end, as long as the controller does not cancel |
| Witnesses.AbortedYetArchived | context/contentwriter_client.go:95-99 | a run that is archived and acknowledged although its outcome is the controller's cancel |
| Witnesses.ErrorAfterHeader | recorderproxy/request_handler.go:34-44 | a run with an error response whose request header is on the content writer's wire |
| Witnesses.PayloadAfterCancel | context/contentwriter_client.go:179-192 | a run with a payload frame after the Cancel frame |
| Opening.FirstFrame | context/contentwriter_client.go:132-165 | in every run the first frame to the content writer is the request's header or a Cancel, and any frame other than Cancel comes with that header |
| Traces.NothingWrittenIff | recorderproxy/request_handler.go:34-44 | when a request fails, nothing at all is written to the content writer, in any continuation, iff it was not opened or its stream had died with nothing on it |
| Beginning.BeginsWithNewIff | context/browsercontroller_client.go:383-416 | with nothing sent to the controller yet, every continuation begins with New iff the stream is dead, registration is about to send under `b.m`, or the loop has ended |
| AfterCancel.LastData | context/contentwriter_client.go:167-200 | once the session is marked as cancelled, exactly those data frames can still follow whose sender had passed its check of `canceled`: at most two, and they can |
| AfterCancel.DataFollowsIff | context/contentwriter_client.go:167-200 | in any state with an open content writer another data frame can follow, after a Cancel or not, iff the stream is up and a thread has passed its check or can still pass it |
| Aborting.AbortKeepsOutIff | context/contentwriter_client.go:95-99 | a controller cancel of an accepted request, before SendMeta's check, keeps the response out of the archive in every continuation iff the content writer was open, or finish already held `b.m` |
| Cancels.KeepsOutIff | context/contentwriter_client.go:95-128 | at whatever point the handler is when the receiver begins to act on a controller cancel, the response is kept out of the archive in every continuation iff the condition for that point holds: during registration, the loop has stopped listening or no acceptance can come; before SendMeta's check, the content writer is open or finish holds `b.m`; inside, its claim or its send must fail |
| Aborting.CancelledIsNotArchived | context/contentwriter_client.go:205-213 | a session marked as cancelled before SendMeta's check is never acknowledged |
| Describing.RequestDescribedIff | recorderproxy/request_handler.go:121-127 | every Meta frame of every run gives record 0's exact size and digest iff the request body was at EOF, and nothing of it lost, when the frame was sent |
| Describing.PeerFaultIff | testutil/servicemocks.go:310-324 | the checking peer finds fault with a Meta frame iff the request body was not drained when it was sent |
| Describing.VerdictIff | testutil/servicemocks.go:266-355 | the peer's verdict on a run is a mismatch iff a Meta was sent in that run with the request body not drained |
| Snapshots.CompletedAgreesIff | context/browsercontroller_client.go:113-130 | when finish has `b.m` in a session without an outcome, at each of its writes, status and error of its Completed agree in every continuation iff what it has written is still in the log and the handler can write no status code any more, or the stream is dead |
| Copies.ReceiverAgreesIff | context/browsercontroller_client.go:206-220 | from the receiver's first write of a controller cancel on, status and error of the copy it makes agree, whatever happens before, iff what it has written is still in the log and the handler can write neither a status code nor an error of its own any more |
| Copies.HandlerAgreesIff | context/browsercontroller_client.go:332-344 | from the handler's first write of its error on, under `b.m`, the copy it hands over agrees in every continuation iff what it has written is still in the log and the receiver can no longer come to write a cancel, or the error is that of a cancel |
| Peer.Write | testutil/servicemocks.go:266-355 | the server's verdict is the right one: it stops at the first frame it has reason to stop at, and otherwise the end of the stream decides |
| Peer.CheckMeta | testutil/servicemocks.go:310-346 | a Meta frame passes iff each record's size and digest equal the recount, in whatever order the records are visited |
| Composition.PeerAgrees | testutil/servicemocks.go:303-324 | on every run the peer never panics, and finds fault at most with record 0, and only if its body was not drained |
| Composition.PeerAccepts | testutil/servicemocks.go:266-355 | with the request drained, the peer accepts every stream that ends in order, never reporting a mismatch or missing metadata, and answers with the response's digest |
| Composition.TallyIsSent | testutil/servicemocks.go:303-309 | what the peer counts for a record is what was sent for it |
| Composition.Kept | recorderproxy/response_handler.go:71-79 | every step keeps that each record is started by one header before its payload and before Meta |
| Proxy.Accounting | context/recordcontext.go:38-43 | closedSess never exceeds sess and the difference is exactly the number of sessions created and not yet finished |
| Proxy.CountedOnce | context/browsercontroller_client.go:131-132 | a session that has been counted as closed stays so; the counter grows by the newly finished sessions and nothing else |
| Proxy.NoOverlap | recorderproxy/recorderproxy.go:104-119 | sessions of a connection never overlap: the slot is free when a request arrives and holds the session until its own finish |
| Proxy.ClearsOwnSlot | context/browsercontroller_client.go:98-138 | finish only ever clears the slot of its own session |
| Proxy.ReturnsAtOnceIff | recorderproxy/recorderproxy.go:113-118 | an interceptor that is about to say that the response is completed returns without waiting iff finish has cleared its session's slot |
| Proxy.EverySessionIsARun | recorderproxy/context_init_filter.go:70-76 | each session among many is a run of a single session, so all session theorems apply |
| Proxy.ReadInOrder | context/recordcontext.go:41-43 | read in the code's order, the difference is the number of sessions open at the second reading, less those created in between |
| Proxy.Hidden | context/recordcontext.go:41-43 | read in the code's order, the difference is the number of old sessions still open less the number of new ones that have closed already |
| Proxy.CloseIsRightIff | recorderproxy/recorderproxy.go:196-216 | when Close stops waiting, at zero or below, no session that it found is still open iff the difference is, up to its sign, the number of later sessions that have closed, and no session at all is open iff these are all the later ones; at zero, iff none was created in between |
| Proxy.ClosedReadFirst | recorderproxy/recorderproxy.go:196-216 | in the opposite order, a difference of zero would always mean that no session was open |
| Proxy.SessReadFirst | context/recordcontext.go:41-43 | a run in which the code's order gives zero while a session is open throughout |
| ContentWriter.CwcSession.SendProtocolHeader | context/contentwriter_client.go:132-165 | nothing if cancelled, else one header frame; keeps the one-terminal invariant |
| ContentWriter.CwcSession.SendPayload | context/contentwriter_client.go:167-200 | nothing if cancelled, else one payload frame; keeps the one-terminal invariant |
| ContentWriter.CwcSession.SendMeta | context/contentwriter_client.go:202-248 | a reply iff Meta was sent first and answered; exactly one of reply and error unless cancelled or done |
| ContentWriter.CwcSession.CancelContentWriter | context/contentwriter_client.go:95-130 | marks the session, sends Cancel only if no terminal frame was claimed, closes |
| ContentWriter.CwcSession.WatchDisconnect | context/contentwriter_client.go:66-88 | the watcher's Cancel, which leaves `canceled` alone |
| Refinement.MetaIsSteps | context/contentwriter_client.go:211-246 | SendMeta as an object, and what innerRead does with its answer, equal the session's steps from the check of `canceled` on |
| ContentWriter.CancelIsSteps | context/contentwriter_client.go:95-130 | the same for CancelContentWriter |
| ContentWriter.WatchIsSteps | context/contentwriter_client.go:66-88 | the same for the watcher |
| Refinement.ReadIsSteps | recorderproxy/response_handler.go:117-142 | one innerRead, cached or not, with or without bytes, whatever it yields, as the session's steps: notify, count, hash, offer |
| Refinement.EofIsSteps | recorderproxy/response_handler.go:143-178 | the read that ends a recorded response as the session's steps: last bytes, AllData, Meta, and the report of the archive's answer |
| Refinement.CachedEofIsSteps | recorderproxy/response_handler.go:196-202 | the read that ends a response from the cache as the session's steps: size, report, cancel |
| Refinement.NotifyIsSteps | context/browsercontroller_client.go:456-493 | NotifyDataReceived as the session's steps |
| Refinement.NotifyAllIsSteps | context/browsercontroller_client.go:460-493 | NotifyAllDataReceived as the session's steps |
| Refinement.SaveIsSteps | context/browsercontroller_client.go:255-272 | SaveCrawlLog, lock, copy and rendezvous with the loop, as the session's steps |
| Refinement.ResponseErrorIsSteps | context/browsercontroller_client.go:346-374 | SendResponseError, lock, edit, copy and rendezvous, as the session's steps |
| Refinement.RequestErrorIsSteps | context/browsercontroller_client.go:303-344 | SendRequestError as the session's steps |
| Refinement.HandleErrorIsSteps | recorderproxy/request_handler.go:36-44 | handleRequestError as the session's steps: the report, then the cancel |
| Refinement.FinishIsSteps | context/browsercontroller_client.go:95-155 | finish as the session's steps, from the loop's last branch to cancel(), with msgChan closed |
| Refinement.WrapRequestIsSteps | recorderproxy/request_handler.go:65-94 | WrapRequestBody as the session's steps |
| Refinement.RequestReadIsSteps | recorderproxy/request_handler.go:102-129 | one Read of the request body as the session's steps |
| Refinement.FilterIsSteps | recorderproxy/recorder_filter.go:129-169 | filterResponse with WrapResponseBody as the session's steps |
| BrowserController.BccSession.Receive | context/browsercontroller_client.go:156-163 | the first message is kept, later ones are dropped |
| BrowserController.BccSession.SendRequestError | context/browsercontroller_client.go:303-344 | without interruption, the client's code is the outcome's iff an error came first, or nothing had and the notification was sent; the whole new state |
| BrowserController.BccSession.SaveCrawlLog | context/browsercontroller_client.go:255-272 | hands over the log as a success iff there is no outcome; the whole new state |
| BrowserController.BccSession.SendResponseError | context/browsercontroller_client.go:346-374 | the log takes the error, and is handed over, iff there is no outcome; the whole new state |
| BrowserController.BccSession.Finish | context/browsercontroller_client.go:95-155 | Completed carries the outcome's log, or the cancelled one, and the session's cache flag, and stream and context are closed; nothing with the slot clear |
| Bodies.WriteCrc | recorderproxy/response_handler.go:183-194 | all bytes are hashed, however short the writes |
| Bodies.NextTakes | recorderproxy/response_handler.go:117-128 | whatever the room, a Read takes its bytes off the front of those to come |
| Bodies.RecordedOffered | context/contentwriter_client.go:179-192 | offering bytes keeps that what is hashed is what was transmitted, or marks the loss for good |
| Bodies.RecordedKept | context/contentwriter_client.go:110-128 | terminal frames of any thread leave a record as it is |
| RequestBody.WrappedRequestBody.WrapRequestBody | recorderproxy/request_handler.go:65-94 | the prolog is counted, hashed and sent; failure iff that send fails |
| RequestBody.WrappedRequestBody.Read | recorderproxy/request_handler.go:102-129 | passes the body through up to the first EOF and then EOF for ever; at EOF record 0 has the exact size and digest |
| ResponseBody.WrappedResponseBody.WrapResponseBody | recorderproxy/response_handler.go:50-82 | the prolog is counted and hashed, and sent unless the response is from the cache |
| ResponseBody.WrappedResponseBody.InnerRead | recorderproxy/response_handler.go:117-181 | yields the original up to the first EOF; between cancels both streams, the log and the outcome are exactly those of the session's steps; a healthy recording stays healthy until Meta is on the wire |
| ResponseBody.WrappedResponseBody.Describe | recorderproxy/response_handler.go:143-178 | Meta describes prolog and body exactly; a reply is saved with that size and digest, an error is reported, and nothing otherwise |
| ResponseBody.WrappedResponseBody.HandleCachedContent | recorderproxy/response_handler.go:196-202 | the log's size is the prolog's length, the success is saved, nothing of the response reaches the wires |
| ResponseBody.WrappedResponseBody.DrainOriginal | recorderproxy/response_handler.go:97-110 | the drain loop ends, loses and repeats nothing, and stops at the first error with the recording as healthy as before |
| ResponseBody.WrappedResponseBody.Read | recorderproxy/response_handler.go:90-115 | the client gets the original up to EOF, or a prefix of the script that is the script at EOF, and only after all of the original is recorded; health is kept from Read to Read, and a failed drain is resumed |
| ResponseBody.ReadToEof | recorderproxy/response_handler.go:90-178 | reading to EOF, going on after errors: the client is given the original or the script, and without cancels and failed sends prolog and whole body are transmitted and Meta describes them |
| ResponseBody.HealthyMeansSent | recorderproxy/response_handler.go:97-142 | before EOF, after a failed drain too, a healthy recording has transmitted the prolog and every byte read, and the rest is still to come |
| ResponseBody.ArchivedIsGiven | recorderproxy/response_handler.go:90-178 | at EOF, with Meta on the wire, record 1 transmitted is prolog and body, Meta describes it, and the client was given the body |
| RecorderFilter.IsFromCache | recorderproxy/recorder_filter.go:171-184 | true iff the hit text is a slice of some X-Cache header |
| RecorderFilter.ContainsIff | recorderproxy/recorder_filter.go:171-184 | containing a text is having it as a slice |
| RecorderFilter.FilterResponse | recorderproxy/recorder_filter.go:129-169 | the wrapper is valid, failure iff the header's send fails, and the promised length is the script's |
| RecorderFilter.HandleRequestError | recorderproxy/request_handler.go:36-44 | the error is reported, the content writer cancelled and its stream dead, no Meta is added, and the client is told the outcome exactly when SendRequestError says so |
| Utf8.DecodeEncode | logger/payload_formatter.go:83-86 | the encoding of a scalar value decodes to it, whatever follows |
| Utf8.EncodeDecode | logger/payload_formatter.go:83-86 | what is decoded is the encoding of the result |
| Utf8.InvalidIff | logger/payload_formatter.go:87-89 | the decoder reports an invalid octet iff no scalar value's encoding starts there |
| Formatter.FormatTerminalSafe | logger/payload_formatter.go:55-81 | the loop computes the dump, and for the pieces of the payload, scalar values and stray octets, its lines are those that `Pieces.DumpMeans` describes |
| Formatter.FormatPayload | logger/payload_formatter.go:26-53 | the length is clipped; trace mode gives the dump, else the short form, each as described piece by piece |
| Formatter.FormatShort | logger/payload_formatter.go:33-51 | what is shown of the first cutLength pieces, an ellipsis iff there are more, and the payload's size in decimal |
| Pieces.SegmentsUnique | logger/payload_formatter.go:58-73 | a payload is made of scalar values and octets at which none starts in just one way |
| Pieces.DumpMeans | logger/payload_formatter.go:55-98 | each line holds runesPerLine pieces, the last what is left: in a column of 5*runesPerLine-1 their numbers in upper-case hexadecimal of at least four digits, padded or cut; a space; and each graphic rune but U+FFFD as its encoding and everything else as the octet BF |
| Pieces.ShortFormMeans | logger/payload_formatter.go:33-51 | the same octets for the first cutLength pieces, then, with an ellipsis iff cut, the size in decimal |
| Pieces.OnlyGraphic | logger/payload_formatter.go:83-98 | for arbitrary payloads, every ASCII octet beside the columns of the dump and before the size of the short form is graphic |
| HexDump.WidthsPartition | logger/payload_formatter.go:58-73 | the widths of the runes add up to the payload |
| HexDump.Geometry | logger/payload_formatter.go:55-81 | for arbitrary bytes: ceil(runes / runesPerLine) lines, each a column of exactly 5*runesPerLine-1, a space and its values, without a newline |
| HexDump.ModesAgree | logger/payload_formatter.go:26-81 | the uncut short form is the concatenated value columns of the dump; the ellipsis appears iff runes exceed the limit |
| HexDump.RoundTrip | logger/payload_formatter.go:55-98 | for BMP scalars other than U+FFFD, reading the 5-character cells recovers the code points and the payload, for every runesPerLine |
| HexDump.RoundTripIff | logger/payload_formatter.go:83-98 | for every sequence of scalar values and every runesPerLine, reading the 5-character cells of the dump recovers it iff it has no U+FFFD and nothing above U+FFFF |
| HexDump.ReplacementCharacterIsAmbiguous | logger/payload_formatter.go:87-89 | the dump of U+FFFD alone is the dump of the octet EF alone |
| Host.SplitIff | recorderproxy/payload.go:130-142 | SplitHostPort yields exactly the address that a string denotes |
| Host.JoinSplit | recorderproxy/payload.go:142-142 | splitting undoes joining |
| Host.CleanHostAscii | recorderproxy/payload.go:126-143 | on ASCII input cleanHost has no space or slash, keeps host and port, brackets the host of an address iff it has a colon, changes nothing in a host without brackets, and is idempotent |
| Host.CleanHostIs | recorderproxy/payload.go:126-143 | on ASCII input the result is the input up to its first space or slash, except that brackets around a host without a colon are dropped |
| Host.CleanHostConverts | recorderproxy/payload.go:130-158 | a host that is not ASCII is converted, alone or in its address, with brackets iff the converted one has a colon; if conversion fails the input stays as it was cut |
| Host.IsASCII | recorderproxy/payload.go:161-168 | true iff every byte is below 0x80 |
| Host.RemoveZoneMeans | recorderproxy/payload.go:172-185 | acts iff a bracketed host has a marker, takes away exactly the text from the last one to the last bracket, and is idempotent iff there was at most one |
| Host.PrologHostClean | recorderproxy/payload.go:71-86 | the Host line has no space or slash, and no zone if the host named at most one |
| Host.PrologHostIs | recorderproxy/payload.go:76-87 | the Host line is the header's host, or the URL's iff nothing is left of the header, without the text of its last zone |

## Left out

- gRPC, TLS, TCP, the outer proxy library, CONNECT handling and `NewConnectReq`: libraries that are not part of this model; only the assumptions above are kept.
- Tracing, logging, metrics, flags, command line, Squid message matching: no effect on protocol state.
- Times, FetchTimeMs, URLs, content types, identifiers and the other crawl log fields: the log is status, error, size and digest.
- `HttpStatusCode` and the texts of errors: the status is 503 whatever the error; the model keeps the codes.
- IDNA conversion of names that are not ASCII: a parameter of `Host.CleanHost`.
- The errors of the prolog writers: they write to a buffer, which does not fail.
- Concurrent creation of a session's streams, torn reads, and overflow of the 64-bit counters.
- Panics: a missing response, a handler that looks up its record context after `finish` has cleared it (recorderproxy/request_handler.go:39), and the mock's logging of very short payloads end the goroutine in the code; in the model the handler goes on.
- The wrapped connection (recorderproxy/recorderproxy.go:218-239) and the sleep of `Close`: closing twice is one compare-and-swap and has no effect on sessions.
- Proxy.OpenStep: counters, slots and sessions are values here, because the step relation interleaves all connections; update in place is not captured, and drawing the number and setting the slot are one step.
- The fault injection of the mocks other than the fake error in `Write`, and the mock controller: the controller's replies are arbitrary.
- ContentWriter.CwcSession.SendMeta: the methods of this class and of `BccSession` are proved for callers that are not interrupted, as are the lemmas of `Refinement.dfy` about them; interleavings are covered by the step relation in `Session.dfy`, which keeps the fields as values.
- ResponseBody.WrappedResponseBody.InnerRead: other threads cancel the content writer only between reads here; cancels at any point are covered by the step relation.
- BrowserController.BccSession.Finish: takes msgChan as closed by then; the drain and the rendezvous on the channels are in `Session.LoopStep`, and `Refinement.FinishIsSteps` says the same.
- Formatter.FormatTerminalSafe: asks for a positive runesPerLine, because the code divides by it; `Formatter.FormatPayload` asks for a length that is not negative, because the code slices with it.
- Starvation: `Finish.FinishesIff` and `Interceptor.ReturnsIff` are about schedules in which, while finish waits, the handler takes `b.m` and the controller sends replies only finitely often; that the lock of the run-time system ensures the former is not modelled.
- Interceptor.ReturnsIff: asks that the client does not leave from then on; it applies anew to the state in which the client has left.
