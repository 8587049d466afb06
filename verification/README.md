# LocalSend, modelled and verified in Dafny

LocalSend moves files between devices on a local network. This project models
the parts of it that are hardest to get right, and proves what they promise for
every input, every interleaving and every reachable state. `dafny verify
dfyconfig.toml` checks everything.

How the model is built:

- **Protocols are state machines.** A step is one block that holds a lock, one
  message, or one request future dropped at an `await`, lock waits and sends
  included. A step that is not possible in a state leaves it unchanged, so every
  sequence of steps is a run and a theorem over runs covers every interleaving.
- **What a step requires and does is stated twice**: in the function that
  computes it, and in theorems that lead every session, upload, file, message
  and counter of a run back to the steps that caused it, with the conditions
  written out.
- **State that the program updates in place is a class** (`V2State`, `Tracker`,
  `Server`, `Store`, `Bridge`). Its methods are proved to do exactly what the
  pure function of the corresponding step does; the theorems are about those
  functions.
- **Loops stay loops** (chunking, the sender and receiver loops of WebRTC, both
  PIN loops, the file writer, the body forwarder, file name clean-up, ranking),
  proved against a function or an independent description of the result.
- Session ids, tokens, peer ids and request ids are fresh and never reused;
  SHA-256 and the IPv6 printer and parser are parameters; messages are
  structured values.

The modules:

| file | content |
|---|---|
| `Session.dfy` | the upload-session slot and the blocks that hold its mutex |
| `UploadProtocol.dfy`, `UploadInvariants.dfy`, `UploadTheorems.dfy` | the v2 upload protocol with its guards, deferred clean-up, cancels and retries |
| `UploadOrigins.dfy` | which requests, decisions and tokens every session, upload, cancel and event of a run goes back to |
| `UploadProgress.dfy`, `UploadRetries.dfy`, `UploadEnding.dfy` | which sessions can still finish or be reported as ended, and when a file is sent again |
| `SavePipeline.dfy` | body forwarder and file writer around a bounded channel |
| `ReceiveTracker.dfy`, `ReceiveComposition.dfy` | the command-line receive session, alone and composed with server and pipelines |
| `ReceiveRetries.dfy`, `ReceiveEnding.dfy`, `ReceiveRuns.dfy` | what late results do to the receive session, when it can end on its own, and runs in which it is given up early or stays forever |
| `ReceiveOrigins.dfy` | which decisions, uploads, results and reports the sessions and counters of a joint run go back to |
| `WebRtcFraming.dfy`, `PinHandshake.dfy` | file framing and the PIN challenge between two peers |
| `Signaling.dfy` | room membership of the signaling server |
| `FileNames.dfy`, `RelativePaths.dfy` | file names and relative paths from peers |
| `DeviceStore.dfy` | the device store and its channel ranking |
| `RemoteFs.dfy` | permits and responders of remote file system requests |
| `ScopedHost.dfy`, `IpFilter.dfy` | the scoped-host codec and the address filter |
| `Wrappers.dfy`, `Sums.dfy`, `Text.dfy` | options, sums over maps, bytes and strings |

Properties that turned out to hold only under a condition, each with the exact
condition and a run or an input that fails it:

- A pending slot can be freed exactly if its request was not dropped inside
  `PendingSessionGuard::clear` (`PendingSlotFreeableIffNotLeaked`,
  `LeakIsReachable`).
- An active session can come to its regular end exactly if none of its requests
  was dropped inside `UploadGuard::finish` (`SessionCanFinishIff`,
  `LossIsReachable`).
- A per-file result is keyed by file and not by attempt. It removes the entry of
  another request exactly if a retry of its file is shown, which needs a
  checksum mismatch (`StaleResultIff`, `StaleFailureEndsSession`).
- Without a checksum mismatch, and unless the user cancels, a receive session is
  given up with a result still to come exactly by accepting another request
  (`NoMismatchDropIff`, `OtherRequestEndsSession`).
- A receive session can end without the user and without another accepted
  request exactly if its request was not given up before it became active, the
  application did not end it on the server, and the request that ended it there
  was not dropped while it sent `SessionEnd` (`ReceiveEndsIff`,
  `CanBeReportedIff`, `AbandonedSessionStays`, `UnreportedSessionStays`).
- The WebRTC receiver stops cleanly exactly if the last file sent fits its
  declared size; an empty list makes it fail (`FramingRoundTrip`). It
  acknowledges a file with that file's own result exactly if no earlier file was
  too long (`OwnResultIff`, `CutFileShiftsResults`).
- The two sides of a PIN challenge agree unless a receiver verifies the empty
  PIN and the user closes the prompt at once (`BothProceedIffPasses`,
  `VerifierProceedsAlone`). A receiver that verifies the empty PIN, or allows no
  tries, leaves a message unread (`NothingUnreadIff`).
- The signaling map holds an empty room exactly for the groups whose last
  connection to an empty room was refused (`EmptyRoomIff`,
  `EmptyRoomIsReachable`).
- A valid parent and a valid name make a valid path except in two cases
  (`ChildIsValidIff`).
- The bridge refuses no waiting request exactly if the core has no more permits
  than the bridge has room (`RefusesNobodyIff`, `WaitingRequestRefused`).

## Model

| member | source | states |
|---|---|---|
| `Session.AcceptedFiles` | packages/core/src/http/server/v2.rs:303-316 | the session holds exactly the offered files that were accepted, with their metadata and tokens, pending and without attempts |
| `Session.ClaimDecreasesWork` | packages/core/src/http/server/v2.rs:373-390 | an admitted upload uses up exactly one unit of the session's remaining work |
| `Session.FinalizeDecreasesWork` | packages/core/src/http/server/v2.rs:644-663 | recording any outcome on a file in progress uses up work, retries included |
| `Session.V2State.ClaimSlot` | packages/core/src/http/server/v2.rs:245-259 | the slot is claimed exactly if it is free |
| `Session.V2State.Activate` | packages/core/src/http/server/v2.rs:331-338 | the slot is overwritten without looking at it |
| `Session.V2State.ClearPendingSession` | packages/core/src/http/server/v2.rs:586-591 | any pending slot is freed, an active one stays |
| `Session.V2State.ClaimUpload` | packages/core/src/http/server/v2.rs:373-390 | admitted exactly if session, sender, file, token and status agree; then the file is in progress with one more attempt |
| `Session.V2State.FinalizeFile` | packages/core/src/http/server/v2.rs:644-671 | the outcome is recorded on its own file in progress, and the slot is freed exactly if all files are settled |
| `Session.V2State.CancelPending` | packages/core/src/http/server/v2.rs:458-476 | the token of a pending request fires exactly for its sender, with its id or none |
| `Session.V2State.CancelActive` | packages/core/src/http/server/v2.rs:483-494 | only the sender of the active session ends it |
| `Session.V2State.CancelV2Session` | packages/core/src/http/server/mod.rs:214-226 | the application ends exactly the session it names |
| `UploadInvariants.StepKeepsInv` | packages/core/src/http/server/v2.rs:217-683 | every step of every handler, clean-up task and cancel keeps the protocol invariant |
| `UploadTheorems.PendingSlotHasOneOwner` | packages/core/src/http/server/v2.rs:245-339 | a pending slot belongs to exactly one prepare-upload request, and no other request owns anything |
| `UploadTheorems.SlotChangesOnlyByItsOwner` | packages/core/src/http/server/v2.rs:540-591 | no step frees or replaces another request's session, although clearing and accepting check no id |
| `UploadTheorems.LeakBlocksSlotForever` | packages/core/src/http/server/v2.rs:561-564 | after a drop inside `clear` the slot stays pending in every continuation |
| `UploadTheorems.PendingSlotFreeableIffNotLeaked` | packages/core/src/http/server/v2.rs:561-584 | a pending slot can still be freed exactly if its request was not dropped inside `clear` |
| `UploadTheorems.LostOutcomeKeepsSessionOpen` | packages/core/src/http/server/v2.rs:614-632 | after a drop inside `finish` the file stays in progress and the session never reports that all files are done |
| `UploadProgress.SessionCanFinishIff` | packages/core/src/http/server/v2.rs:597-683 | from every reachable state, an active session can still report that all files are done exactly if none of its requests was dropped inside `finish` |
| `UploadProgress.LossIsReachable` | packages/core/src/http/server/v2.rs:614-617 | a run in which any outcome of any file is lost while its session is active |
| `UploadProgress.LeakIsReachable` | packages/core/src/http/server/v2.rs:561-564 | a run in which any declined request leaks the slot |
| `UploadRetries.StepKeepsRetries` | packages/core/src/http/server/v2.rs:373-393 | every step keeps the account of retries: only requests that ended in a mismatch are superseded, announced again or followed by a file that can be claimed |
| `UploadRetries.RetriedOnlyAfterMismatch` | packages/core/src/http/server/v2.rs:637-663 | over every run, a file is sent again only after all earlier requests for it ended in a checksum mismatch |
| `UploadEnding.StepKeepsEnding` | packages/core/src/http/server/v2.rs:482-515 | every step keeps that an accepted session is active until something ended it, and that an end not caused by the application is reported, about to be, or had its request dropped while it was reported |
| `UploadEnding.CanBeReportedIff` | packages/core/src/http/server/v2.rs:567-683 | an announced session is or can still be reported as ended exactly if its request was not given up before it became active, the application did not end it, and the request that ended it was not dropped while it sent the report |
| `UploadEnding.CancelReportIsLost` | packages/core/src/http/server/v2.rs:496-504 | a run in which any accepted session is cancelled by its sender and the application is never told |
| `UploadEnding.FinishReportIsLost` | packages/core/src/http/server/v2.rs:673-682 | a run in which the only file of a session is saved, the slot is freed, and the application is never told |
| `UploadTheorems.EventLogWellFormed` | packages/core/src/http/server/v2.rs:261-683 | over every run: requests precede uploads, a session ends at most once, nothing follows its regular end, and an aborted request has no uploads and no end |
| `UploadTheorems.InProgressIffOneOutstanding` | packages/core/src/http/server/v2.rs:384-393 | no file ever has two outstanding requests; in the active session it has one exactly while it is in progress |
| `UploadTheorems.FinalizeTouchesOwnFileOnly` | packages/core/src/http/server/v2.rs:644-671 | an outcome changes only the file of its attempt, and a late one leaves every newer session unchanged |
| `UploadTheorems.RetryIffMismatch` | packages/core/src/http/server/v2.rs:637-671 | a file can be sent again exactly if its checksum did not match and fewer than three requests were ever admitted for it; the session ends exactly if not and all others are settled |
| `UploadTheorems.ActiveSessionHasWork` | packages/core/src/http/server/common/session.rs:42-46 | an active session is never complete, a pending file has fewer than three attempts, and work remains |
| `UploadTheorems.WorkOnlyDecreases` | packages/core/src/http/server/v2.rs:373-390 | every change to a session that stays active uses up work |
| `UploadTheorems.UploadsPerSessionBounded` | packages/core/src/http/server/v2.rs:637-663 | a session admits at most three uploads per accepted file over its whole life |
| `UploadOrigins.AcceptingDecision` | packages/core/src/http/server/v2.rs:292-329 | a decision for some ids leads to a session with exactly the offered files among them, fresh, with their metadata and tokens, or to clearing the slot exactly if there is none |
| `UploadOrigins.DecliningDecision` | packages/core/src/http/server/v2.rs:292-299 | a refusal leads to clearing the slot, and changes nothing else |
| `UploadOrigins.DecidedOnce` | packages/core/src/http/server/v2.rs:276-290 | no request takes a second decision |
| `UploadOrigins.SessionComesFromDecision` | packages/core/src/http/server/v2.rs:303-338 | over every run, the active session goes back to one request and one later decision on it: it belongs to the address that asked and holds exactly the offered files among the accepted ids, each with its metadata and token |
| `UploadOrigins.AcceptedComesFromDecision` | packages/core/src/http/server/v2.rs:303-338 | every session that was ever active held exactly the offered files among the ids of its decision, at least one |
| `UploadOrigins.AdmittedIff` | packages/core/src/http/server/v2.rs:373-390 | in every reachable state a new upload request is admitted exactly if session, sender, file, token and pending status agree; then that file alone is in progress with one more attempt, and otherwise nothing changes |
| `UploadOrigins.UploadComesFromSender` | packages/core/src/http/server/v2.rs:373-393 | over every run, each upload was requested after the decision by the address that opened its session, for a file that was offered and accepted, with the token issued for that file |
| `UploadOrigins.CancelledIff` | packages/core/src/http/server/v2.rs:458-476 | over every run, the token of a request fires exactly if a cancel from its own address, with its id or none, reached it while it was pending |
| `UploadOrigins.CancelComesFromSender` | packages/core/src/http/server/v2.rs:483-494 | over every run, a session ended by a cancel was cancelled by its id from the address that opened it |
| `UploadOrigins.CheckEffect` | packages/core/src/http/server/v2.rs:478-515 | a cancel that reached no pending request ends the active session exactly if it names it from its address, and is passed on otherwise |
| `UploadOrigins.ReportEffect` | packages/core/src/http/server/v2.rs:496-515 | the first is reported as the end of the session, the second forwarded as it came |
| `UploadOrigins.ApplicationEffect` | packages/core/src/http/server/mod.rs:214-226 | the application ends exactly the active session it names |
| `UploadOrigins.ForwardedComesFromPeer` | packages/core/src/http/server/v2.rs:505-515 | a forwarded cancel carries the address and the id of a cancel that came in and reached no pending request of that address |
| `UploadOrigins.QuestionComesFromSender` | packages/core/src/http/server/v2.rs:264-276 | the files the application is asked about are those the sender offered |
| `UploadOrigins.AnnouncedUploadComesFromSender` | packages/core/src/http/server/v2.rs:411-420 | an upload the application is told about was requested by the sender for an accepted file with its token |
| `UploadOrigins.AbortedIff` | packages/core/src/http/server/v2.rs:567-584 | over every run, the application is told, or about to be told, that a request was aborted exactly if it was dropped before its session was active or saw its sender's cancel |
| `SavePipeline.OutcomeIsExact` | packages/core/src/http/server/common/save.rs:164-246 | for every frame split and interleaving, a save that did not fail left a file equal to the whole body, of the declared size, and succeeded exactly if any checksum matches |
| `SavePipeline.FileNeverExceedsSize` | packages/core/src/http/server/common/save.rs:284-319 | at every moment the file is a prefix of the body of at most the declared size, and no larger progress is reported |
| `SavePipeline.AnswerIsOutcome` | packages/core/src/http/server/common/save.rs:239-246 | the application is told Ok exactly if the request reports success |
| `SavePipeline.FaultFreeOutcome` | packages/core/src/http/server/common/save.rs:164-246 | without I/O faults the outcome is determined by body, size and checksum alone, not by timing |
| `SavePipeline.DifferingDigestMismatches` | packages/core/src/http/server/common/save.rs:225-233 | for every hash function and every non-empty body a run in which a checksum of the right length that differs in one position is a mismatch |
| `SavePipeline.ProgressReachesSize` | packages/core/src/http/server/common/save.rs:284-319 | the progress values sent never decrease nor run ahead of the file, and the last one of a save that did not fail is the size |
| `SavePipeline.StepsUseUpWork` | packages/core/src/http/server/common/save.rs:164-319 | no run of forwarder and writer goes on forever |
| `SavePipeline.NoDeadlock` | packages/core/src/http/server/common/save.rs:252-271 | forwarder and writer never wait for each other: an unanswered upload always has a step to take |
| `SavePipeline.CanBeAnswered` | packages/core/src/http/server/common/save.rs:164-246 | from every state an unanswered upload can still be answered, within as many steps as work is left |
| `SavePipeline.WriteFileFromReceiver` | packages/core/src/http/server/common/save.rs:284-319 | succeeds exactly if opening, all writes and the flush do and the chunks add up to the expected size; then the file is their concatenation, and it is a prefix within the size in any case |
| `SavePipeline.ForwardBody` | packages/core/src/http/server/common/save.rs:164-193 | forwards and hashes exactly the data bytes, and reports an error exactly if a frame was one or the receiver was gone before the last chunk |
| `ReceiveTracker.Tracker.HandleFileUpload` | cli/src/app/receive.rs:241-294 | an upload of the tracked session is shown and gets a target, any other gets none |
| `ReceiveTracker.Tracker.ReceiveFileResult` | cli/src/app/receive.rs:296-334 | a result of the tracked session is counted once and its entry removed |
| `ReceiveTracker.Tracker.HandleSessionEnd` | cli/src/app/receive.rs:204-217 | the session is marked as ended and dropped once nothing is in flight |
| `ReceiveTracker.Tracker.FinishReceiveIfDone` | cli/src/app/receive.rs:338-346 | the session is dropped exactly if it ended and nothing is in flight |
| `ReceiveComposition.WorldStepKeeps` | cli/src/app/receive.rs:115-334 | every step of server, pipelines, channels and application keeps the joint invariant |
| `ReceiveComposition.AtMostOneOk` | packages/core/src/http/server/common/save.rs:239-246 | every (session, file) yields at most one Ok result, however often it is retried and whatever overtakes what |
| `ReceiveComposition.CountedFileIsSaved` | cli/src/app/receive.rs:309-318 | a file counted as received is not in progress any more and was saved in full: whole body, declared size, matching checksum |
| `ReceiveComposition.DoneNeverExceedsTotal` | cli/src/app/receive.rs:81-88 | the bytes shown as done never exceed the announced total, nor the finished files the number of files |
| `ReceiveRetries.StepKeepsRetryInv` | cli/src/app/receive.rs:115-334 | every joint step keeps what entries, events, pipelines and results say about retries |
| `ReceiveRetries.StaleResultIff` | cli/src/app/receive.rs:296-334 | in every reachable world, a result removes the entry of another request exactly if the last consumed upload of its file is another one and still shown; then it is a failure after a checksum mismatch, never an Ok |
| `ReceiveRetries.EarlyDropCauses` | cli/src/app/receive.rs:338-346 | unless the user cancels, a receive session is given up with a result still to come only after a checksum mismatch of that file, or because another request is accepted after the server dropped the session |
| `ReceiveRetries.AcceptingOtherDropsEarly` | cli/src/app/receive.rs:150-158 | accepting another request gives the tracked session up with everything that is still to come |
| `ReceiveRetries.NoMismatchDropIff` | cli/src/app/receive.rs:296-346 | without a checksum mismatch and unless the user cancels, a session is given up with a result still to come exactly by accepting another request |
| `ReceiveRetries.NoMismatchNoLoss` | cli/src/app/receive.rs:296-346 | a session without a checksum mismatch never loses an entry to a stale result, and is never given up early unless the user cancels or another request is accepted |
| `ReceiveEnding.StepKeepsOwn` | cli/src/app/receive.rs:115-334 | every joint step keeps that entries wait for results still to come, that a session knows of its end exactly if the report was consumed, and that every request is answered once |
| `ReceiveEnding.ReceiveEndsIff` | cli/src/app/receive.rs:204-228 | in every reachable world, a receive session can end without the user and without another accepted request exactly if its session continues on the server, where a lost report, an abandoned request and an end by the application do not |
| `ReceiveEnding.EndsWithoutUser` | cli/src/app/receive.rs:115-232 | such a session can end whatever the application does with each other request, fixed in advance |
| `ReceiveRuns.StaleFailureEndsSession` | cli/src/app/receive.rs:296-346 | for every hash function a joint run in which the late failure of the first attempt gives the session up while the retry is being received |
| `ReceiveRuns.OtherRequestEndsSession` | cli/src/app/receive.rs:150-158 | for every hash function a joint run without a mismatch in which accepting another request gives the session up while its upload is being received |
| `ReceiveRuns.AbandonedSessionStays` | cli/src/app/receive.rs:218-228 | a joint run after which the session of a request dropped after its acceptance stays in every continuation without the user and without another accepted request |
| `ReceiveRuns.UnreportedSessionStays` | packages/core/src/http/server/v2.rs:496-504 | a joint run after which the slot is free and the receive session stays in every such continuation, because the report of its end was lost |
| `ReceiveOrigins.StepKeepsOrigin` | cli/src/app/receive.rs:115-334 | every joint step keeps that requests are decided once and as a whole, that the server accepts what was decided, and that the reason of an end was reported |
| `ReceiveOrigins.StepDecides` | cli/src/app/receive.rs:131-159 | a message is answered with no ids, a paired or confirmed request with all of them, a declined one with a refusal, and nothing else is decided |
| `ReceiveOrigins.AcceptedIsDecided` | packages/core/src/http/server/v2.rs:303-338 | in every reachable world, a session holds exactly the offered files among the ids the application decided on, which are all of them; a request answered with no ids never becomes a session |
| `ReceiveOrigins.ResultsAreCounted` | cli/src/app/receive.rs:296-334 | the finished and the failed files of a receive session are exactly the successful and the failed results delivered to it |
| `ReceiveOrigins.EndReasonIff` | cli/src/app/receive.rs:204-217 | a receive session has ended for a reason exactly if the server reported that reason for it |
| `ReceiveOrigins.PipeComesFromUpload` | packages/core/src/http/server/v2.rs:395-400 | a pipeline reads the body of the upload that was shown, and expects the checksum its sender offered exactly if checksums are verified |
| `ReceiveOrigins.CountedFileIsUploaded` | cli/src/app/receive.rs:309-318 | a file counted as received holds the bytes of an upload of it, as many as offered; if checksums are verified its digest agrees with the one offered |
| `ReceiveOrigins.ProgressIsShown` | cli/src/app/receive.rs:262-275 | a progress value is shown for the files of its own upload and for no other |
| `ReceiveOrigins.AllDoneIsTotal` | cli/src/app/receive.rs:81-88 | once every file is counted, the bytes shown as done are all bytes announced |
| `ReceiveOrigins.PendingIff` | cli/src/app/receive.rs:193-228 | the question shown to the user is taken away exactly when it is answered, replaced, or that very request is aborted |
| `WebRtcFraming.RechunkKeepsBytes` | packages/core/src/webrtc/webrtc.rs:1293-1321 | chunking keeps the bytes and fills every chunk but the last |
| `WebRtcFraming.ChunkCount` | packages/core/src/webrtc/webrtc.rs:1293-1321 | chunking takes the least number of chunks |
| `WebRtcFraming.ChunkingIsUnique` | packages/core/src/webrtc/webrtc.rs:1293-1321 | a list of full chunks and a shorter rest is the only chunking of its bytes |
| `WebRtcFraming.ProcessInChunks` | packages/core/src/webrtc/webrtc.rs:1293-1321 | whatever the incoming parts, the chunks sent depend on their concatenation alone |
| `WebRtcFraming.ReceiveStringFromChunks` | packages/core/src/webrtc/webrtc.rs:1343-1354 | returns the bytes up to the first text or the end of the channel and leaves the rest unread |
| `WebRtcFraming.StringRoundTrip` | packages/core/src/webrtc/webrtc.rs:1325-1354 | every string of any length survives sending in chunks, and what follows stays unread |
| `WebRtcFraming.SendFiles` | packages/core/src/webrtc/webrtc.rs:501-557 | the messages of the files with a token in order and a delimiter; the ids of the others are reported in order |
| `WebRtcFraming.SentInOrder` | packages/core/src/webrtc/webrtc.rs:501-557 | the files sent are those with a token, each once, in the order of the queue |
| `WebRtcFraming.SkippedInOrder` | packages/core/src/webrtc/webrtc.rs:501-557 | the ids reported are those of the other files, in the same order |
| `WebRtcFraming.ReceiveFiles` | packages/core/src/webrtc/webrtc.rs:883-1015 | the loop refines the message-by-message receiver, for every message sequence |
| `WebRtcFraming.FramingRoundTrip` | packages/core/src/webrtc/webrtc.rs:883-1015 | for every list of files: which files arrive with which bytes, which are acknowledged, when there are errors, and that the loop stops cleanly exactly if the last file fits |
| `WebRtcFraming.FittingFilesArrive` | packages/core/src/webrtc/webrtc.rs:501-557 | files that fit arrive byte for byte under the same ids in order, all are acknowledged, and the receiver stops |
| `WebRtcFraming.OversizeSplit` | packages/core/src/webrtc/webrtc.rs:981-1004 | a file over its declared size is cut at the last chunk border that fits |
| `WebRtcFraming.KeptIffFits` | packages/core/src/webrtc/webrtc.rs:981-1004 | what is kept of a file is a prefix within its size, the whole file exactly if it fits |
| `WebRtcFraming.NothingUnasked` | packages/core/src/webrtc/webrtc.rs:924-1004 | whatever a peer sends, no file exceeds its declared size and none arrives without a token |
| `WebRtcFraming.FilesComeFromHeaders` | packages/core/src/webrtc/webrtc.rs:884-1010 | whatever a peer sends, the files given to the application are, in order, exactly those of the headers before the delimiter that name an offered file with the token issued for it; each holds the bytes of the binaries that follow its own header, up to the next header or the first one that is too much |
| `WebRtcFraming.HeaderOutcome` | packages/core/src/webrtc/webrtc.rs:924-975 | a header with a wrong token, an unknown id or no declared size opens nothing and is reported as that, once; any other opens an empty file |
| `WebRtcFraming.BinaryOutcome` | packages/core/src/webrtc/webrtc.rs:977-1010 | a binary without a file or beyond its size is reported once, and the latter closes the file |
| `WebRtcFraming.DeclaredIsFirst` | packages/core/src/webrtc/webrtc.rs:951-963 | the declared size is that of the first offer with the id |
| `WebRtcFraming.OwnResultIff` | packages/core/src/webrtc/webrtc.rs:887-909 | whatever a peer sends, an acknowledgement carries the result of its own file exactly if no earlier file was too long |
| `WebRtcFraming.TruthfulIff` | packages/core/src/webrtc/webrtc.rs:891-909 | whatever the application reports before it closes its channel, an acknowledgement tells the truth about its file exactly if no earlier file was too long |
| `WebRtcFraming.CutFileShiftsResults` | packages/core/src/webrtc/webrtc.rs:891-909 | after a file that is too long, the next one is acknowledged with the result of the one before it |
| `PinHandshake.FirstMatch` | packages/core/src/webrtc/webrtc.rs:1213-1216 | the position of the first right guess |
| `PinHandshake.StepKeeps` | packages/core/src/webrtc/webrtc.rs:1132-1248 | every send and receive of either side keeps the two loops in a common phase |
| `PinHandshake.BothProceedIffPasses` | packages/core/src/webrtc/webrtc.rs:298-363 | under every interleaving and in both roles, the verifier proceeds exactly if the PIN is empty or guessed within the allowed tries, and the prover with it, except where a receiver decides without a guess and the user closes the prompt at once |
| `PinHandshake.VerifierProceedsAlone` | packages/core/src/webrtc/webrtc.rs:1213-1216 | a schedule in which a receiver that verifies the empty PIN proceeds alone |
| `PinHandshake.BothFailAlike` | packages/core/src/webrtc/webrtc.rs:736-818 | if the verifier does not proceed, both end in too many attempts, or the challenge was abandoned because the prompt was closed |
| `PinHandshake.ReadsExactly` | packages/core/src/webrtc/webrtc.rs:1208-1248 | the guesses read are those up to the first right one, never more than allowed, independent of timing |
| `PinHandshake.NothingUnreadIff` | packages/core/src/webrtc/webrtc.rs:1208-1248 | no message stays unread, except where a receiver verifies the empty PIN or allows no tries: then the first guess does, or the decision if there is no guess |
| `PinHandshake.Lockstep` | packages/core/src/webrtc/webrtc.rs:1132-1248 | at most one message is in flight (two if the first guess is ignored), and the counter never passes the allowed tries |
| `PinHandshake.StepsUseUpWork` | packages/core/src/webrtc/webrtc.rs:1132-1248 | every step that does anything uses up work |
| `PinHandshake.SomeSideCanMove` | packages/core/src/webrtc/webrtc.rs:1132-1248 | while a side is not done, some side can move |
| `PinHandshake.CanFinish` | packages/core/src/webrtc/webrtc.rs:1132-1248 | from every reachable state both sides can come to an end |
| `PinHandshake.VerifyPin` | packages/core/src/webrtc/webrtc.rs:1196-1248 | outcome, guesses read and number and kind of the replies sent, for every sequence of incoming guesses |
| `PinHandshake.HandlePin` | packages/core/src/webrtc/webrtc.rs:1132-1187 | the outcome is decided by the first reply that asks for no further PIN |
| `Signaling.StepKeeps` | server/src/controller/ws_controller.rs:97-369 | every lock-held block keeps membership, views and limits |
| `Signaling.MembershipIsExact` | server/src/controller/ws_controller.rs:97-164 | for every connected peer, snapshot, joins, updates and leaves addressed to it add up to its room without itself, with everybody's current info |
| `Signaling.IntroducedExactlyOnce` | server/src/controller/ws_controller.rs:125-163 | of two peers in one room exactly one found the other in its snapshot and the other was told by exactly one join |
| `Signaling.RoomsAreBounded` | server/src/controller/ws_controller.rs:111-138 | no room exceeds the connection limit, no count the request limit, and nobody is in two rooms |
| `Signaling.EmptyRoomIff` | server/src/controller/ws_controller.rs:108-123 | over every run, the map holds an empty room exactly for the groups where a connection was refused with nobody in the room and none was admitted since |
| `Signaling.EmptyRoomIsReachable` | server/src/controller/ws_controller.rs:111-123 | with any limits that let a peer in, a run that leaves an empty room behind |
| `Signaling.PeerComesFromConnection` | server/src/controller/ws_controller.rs:108-163 | over every run, a connected peer came in while its room and its group were below their limits, and its first message is its own info with the room it found |
| `Signaling.InfoIsLatest` | server/src/controller/ws_controller.rs:275-306 | over every run, the room holds the info each connected peer gave last |
| `Signaling.CountsAreExact` | server/src/controller/ws_controller.rs:358-369 | over every run, the count of a group is the number of its requests since the last reset, up to the limit |
| `Signaling.RelayReachesTarget` | server/src/controller/ws_controller.rs:313-356 | an offer or answer grows the inbox of a target in the sender's room by exactly one message; every other inbox stays as it is |
| `Signaling.RelaysAreExact` | server/src/controller/ws_controller.rs:313-356 | over every run, a peer gets exactly the offers and answers that peers of its room addressed to it, in order, with the info their senders connected with |
| `Signaling.Server.Send` | server/src/controller/ws_controller.rs:152-156 | the loop appends the message for exactly the listed peers |
| `Signaling.Server.ConnectPeer` | server/src/controller/ws_controller.rs:97-164 | the in-place join block, refusals included |
| `Signaling.Server.DisconnectPeer` | server/src/controller/ws_controller.rs:249-272 | the in-place leave block |
| `Signaling.Server.UpdatePeer` | server/src/controller/ws_controller.rs:275-306 | the in-place update block |
| `Signaling.Server.RelayTo` | server/src/controller/ws_controller.rs:313-356 | an offer or answer reaches exactly a target in the same room, with the info the sender connected with |
| `Signaling.Server.ProtectDdosRequestCount` | server/src/controller/ws_controller.rs:358-369 | a request counts exactly if its group is below the limit |
| `FileNames.SanitizeName` | packages/core/src/util/filename.rs:112-145 | the loops compute the sanitizing function, for any replacement and placeholder |
| `FileNames.CollapseTrailingRun` | packages/core/src/util/filename.rs:148-154 | the loop replaces the trailing run of dots and spaces once |
| `FileNames.TruncateBytes` | packages/core/src/util/filename.rs:207-217 | walking back to a character boundary gives the longest prefix within the limit |
| `FileNames.TruncateIsLongestPrefix` | packages/core/src/util/filename.rs:207-217 | the cut is a prefix within the limit and no longer prefix is |
| `FileNames.CollapsedIsLegal` | packages/core/src/util/filename.rs:148-154 | collapsing keeps names legal and no longer, ends no run, and uncovers no reserved stem |
| `FileNames.RenamedIsLegal` | packages/core/src/util/filename.rs:123-129 | replacing a reserved stem leaves no reserved stem and no trailing run |
| `FileNames.TruncatedIsLegal` | packages/core/src/util/filename.rs:131-138 | the cut never uncovers a reserved stem and never empties a name |
| `FileNames.SanitizedIsValid` | packages/core/src/util/filename.rs:112-175 | every Unicode string becomes a valid name under every rule set |
| `FileNames.ValidIffUnchanged` | packages/core/src/util/filename.rs:156-175 | a name is valid exactly if sanitizing leaves it alone, and sanitizing twice changes nothing more |
| `FileNames.IllegalIff` | packages/core/src/util/filename.rs:67-76 | which characters are illegal under which rules |
| `FileNames.ReservedIff` | packages/core/src/util/filename.rs:14-17 | a name is reserved exactly if the part before its first dot is a device or a numbered port, in any case of letters |
| `FileNames.SanitizedForm` | packages/core/src/util/filename.rs:112-154 | for every name, rule set, replacement and placeholder: illegal characters are replaced one by one, then the trailing run, then a device before the first dot, then the longest prefix that fits is kept; all else stays |
| `FileNames.LegalStaysInPlace` | packages/core/src/util/filename.rs:112-120 | with one replacement character every legal character keeps its place |
| `FileNames.DeviceIsReplaced` | packages/core/src/util/filename.rs:123-129 | of a device name all that follows the device is kept |
| `FileNames.LastUsableIsLastSegment` | packages/core/src/util/filename.rs:183-187 | searching backwards finds the last segment of the split path that is neither empty nor relative |
| `FileNames.PathBecomesName` | packages/core/src/util/filename.rs:183-190 | a path becomes a valid name without separators and stays as it is exactly if it is one already |
| `RelativePaths.PathsAreComponentLists` | packages/core/src/http/firebox.rs:298-315 | a path is valid exactly if it is the joined form of a valid component list |
| `RelativePaths.ComponentListsArePaths` | packages/core/src/http/firebox.rs:298-315 | every valid component list joins to a valid path that splits back into it |
| `RelativePaths.ValidPathIff` | packages/core/src/http/firebox.rs:298-320 | validity told character by character: length, backslashes, control characters, drives, and no part between slashes that is empty, a dot or two dots |
| `RelativePaths.ValidNameIff` | packages/core/src/http/firebox.rs:272-284 | a name is valid exactly if it is short enough, has no separator and no control character, and is not empty, a dot or two dots |
| `RelativePaths.ResolvesBelowRoot` | packages/core/src/http/firebox.rs:298-320 | walking any part of a valid path from a root never leaves the root and ends where its components say |
| `RelativePaths.ChildOfParent` | packages/core/src/http/server/firebox.rs:586-596 | a valid path is the child of its parent, which is valid, by its last name |
| `RelativePaths.ChildIsValidIff` | packages/core/src/http/server/firebox.rs:590-596 | a valid parent and a valid name make a valid path except if it is over 4096 bytes or looks like a drive at the root; parent and name can be recovered |
| `RelativePaths.EntryChecksAgree` | packages/core/src/http/firebox.rs:334-352 | checking an entry on its own agrees with checking it against the parent its path names |
| `DeviceStore.Store.Upsert` | packages/core/src/discovery/store.rs:196-243 | the in-place merge, the event reported and the device returned |
| `DeviceStore.StoreAgreesWithHistory` | packages/core/src/discovery/store.rs:196-243 | devices in first-seen order, each with its last info, the last channel per host and the last 100 confirmations of the full history |
| `DeviceStore.FirstSeenAreDistinct` | packages/core/src/discovery/store.rs:202-206 | fingerprints are distinct and are exactly those ever confirmed |
| `DeviceStore.ChannelsAreLastPerHost` | packages/core/src/discovery/store.rs:207-213 | the channel map is exactly the last confirmed channel of each host, all available |
| `DeviceStore.LogsAreNewest` | packages/core/src/discovery/store.rs:214-222 | the log is the newest part of the full log, which starts with the discovery |
| `DeviceStore.NewestIsSuffix` | packages/core/src/discovery/store.rs:214-222 | the log is cut to its last hundred entries |
| `DeviceStore.DiscoveredExactlyOnce` | packages/core/src/discovery/store.rs:224-243 | every confirmed device is reported as discovered exactly once |
| `DeviceStore.InsertRanked` | packages/core/src/discovery/store.rs:97-107 | inserting keeps the order and loses no channel |
| `DeviceStore.GetRankedChannels` | packages/core/src/discovery/store.rs:97-107 | the ranking is a permutation of the channels in descending order, whatever order the map is iterated in |
| `DeviceStore.LastConfirmedMeaning` | packages/core/src/discovery/store.rs:111-113 | the position of the last log entry of a channel, none if there is no entry |
| `DeviceStore.CapNeverInverts` | packages/core/src/discovery/store.rs:214-222 | a channel ranked strictly below another by the capped log is ranked strictly below by the full history too |
| `DeviceStore.TiesAreDropped` | packages/core/src/discovery/store.rs:97-113 | two channels tie exactly if they are in one class and both were dropped from the log |
| `DeviceStore.BestChannel` | packages/core/src/discovery/store.rs:93-107 | the best channel is available if any is, then IPv6 if any is, then the one confirmed last |
| `DeviceStore.LatestIsBestIff` | packages/core/src/discovery/store.rs:93-107 | the best channel is the one just confirmed unless that one is IPv4 and an IPv6 channel is known |
| `RemoteFs.StepKeeps` | packages/core/src/http/server/firebox.rs:153-182 | every step conserves permits and keeps events and responders distinct |
| `RemoteFs.RespondersWithinPermits` | packages/core/src/http/server/firebox.rs:153-182 | permits are conserved, and open responders never outnumber active requests, nor those the permits |
| `RemoteFs.EndReleases` | packages/core/src/http/server/firebox.rs:153-182 | a request gives its permit back exactly when it ends |
| `RemoteFs.NoPermitIsLost` | packages/core/src/http/server/firebox.rs:153-182 | from every reachable state all permits can come back, whatever happened to the responders |
| `RemoteFs.ResponderWasShown` | packages/localsend_isolates/rust/src/api/server.rs:815-820 | over every run, each responder the bridge keeps belongs to an event that was shown |
| `RemoteFs.AnsweredOnce` | packages/localsend_isolates/rust/src/api/server.rs:1184-1208 | an answered request, and one that could not be shown, never has a responder again |
| `RemoteFs.WaitingRequestIsShown` | packages/localsend_isolates/rust/src/api/server.rs:804-814 | with no more permits than room, an event whose handler still waits is never refused |
| `RemoteFs.WaitingRequestRefused` | packages/localsend_isolates/rust/src/api/server.rs:804-814 | with more permits than room, a run in which a waiting request is refused |
| `RemoteFs.RefusesNobodyIff` | packages/localsend_isolates/rust/src/api/server.rs:804-814 | no waiting request is refused in any run exactly if the permits do not exceed the bound |
| `RemoteFs.DefaultRefusesNobody` | packages/core/src/http/server/firebox.rs:38-124 | with the default limit on both sides no waiting request is refused |
| `RemoteFs.Bridge.PruneClosed` | packages/localsend_isolates/rust/src/api/server.rs:1319-1325 | exactly the responders whose handlers ended are removed, and counted |
| `RemoteFs.Bridge.HandleEvent` | packages/localsend_isolates/rust/src/api/server.rs:804-820 | the in-place form of the bridge step, with the kinds of the responders kept |
| `RemoteFs.Bridge.Take` | packages/localsend_isolates/rust/src/api/server.rs:1184-1208 | a responder is taken exactly if it is there and of the expected kind |
| `ScopedHost.ParsePrinted` | packages/core/src/http/client/scoped_host.rs:28-38 | every 32-bit scope survives printing and parsing |
| `ScopedHost.ParseU32Iff` | packages/core/src/http/client/scoped_host.rs:28-31 | a zone is read as a number exactly if it spells a 32-bit number, with an optional plus sign and leading zeros; zone names are not |
| `ScopedHost.EncodeIff` | packages/core/src/http/client/scoped_host.rs:23-39 | a host is encoded exactly if it is an address that is not IPv4-mapped with such a zone, and what the name looks like |
| `ScopedHost.DecodeIff` | packages/core/src/http/client/scoped_host.rs:43-51 | a name is decoded exactly if it has that form |
| `ScopedHost.DecodeReversesEncode` | packages/core/src/http/client/scoped_host.rs:23-51 | whatever can be encoded decodes to the address and scope it stands for |
| `ScopedHost.EncodeIsInjective` | packages/core/src/http/client/scoped_host.rs:23-39 | two hosts with the same encoding stand for the same address and scope |
| `ScopedHost.EveryScopedAddressRoundTrips` | packages/core/src/http/client/scoped_host.rs:23-51 | every address that is not IPv4-mapped can be encoded with every scope and comes back |
| `IpFilter.MatchesIffDenotes` | packages/core/src/util/interface.rs:49-66 | a pattern accepts exactly the addresses it becomes when every `*` is replaced by a non-empty dot-free string |
| `IpFilter.MatchesIffScans` | packages/core/src/util/interface.rs:49-66 | the recursive matcher agrees with one that reads a character at a time |
| `IpFilter.UsedIff` | packages/core/src/util/interface.rs:21-46 | an interface is used exactly if a given whitelist names it and no blacklist does |

## Left out

- Sockets, TLS, HTTP parsing, multicast, timers and certificates: libraries outside the program.
- JSON, base64, zlib and UUID generation: messages are structured values and ids are fresh.
- PIN checks and status codes of the HTTP handlers, and the rate limits other than the signaling request count: they would only add easy members.
- Download sessions of `web.rs`: keyed by client address with replacement, a different protocol.
- Integer widths: sums of u64 sizes are unbounded; the saturating attempt counter is modelled, and the u8 PIN counter cannot overflow because it stays within the allowed tries (`PinHandshake.Lockstep`).
- Event channels are unbounded, so a sender is never held up by a full channel; that a request is dropped at one of its sends, and the event lost, is a step of its own. `SessionEnd` is therefore sent at most once, not exactly once.
- `CancelReceived` only forwards a foreign cancel, so the event-order theorem does not restrict it.
- Descriptor and stream targets of uploads, write buffering, file truncation and time stamps: a failing flush stands for all of them.
- Progress values may arrive in any order and any number of times, which includes the lossy channel of the program.
- WebRtcFraming.OwnResultIff: assumes that the application reports its results in the order of the files it was given, one per file.
- Where the user closes a WebRTC file stream early, or a data channel breaks in the middle of a transfer.
- The text of user-facing messages, speed and time displays, and the user interfaces.
- Delivery on the wire in the signaling server: messages are sent after the lock is released, so `Signaling` speaks of the order in which they were decided under the lock.
- FileNames.SanitizedIsValid: for the default replacement and placeholder only; with arbitrary strings the result need not be valid.
- ScopedHost.DecodeReversesEncode: assumes that printed IPv6 addresses parse back and consist of hex digits, colons and dots, as sections 4 and 5 of RFC 5952 describe.
- DeviceStore.GetRankedChannels: which hosts are IPv6 addresses is a parameter, and the library sort is an insertion sort.
- PinHandshake.VerifyPin: reads a fixed list of guesses; how guesses depend on replies is covered by the two-party theorems.
- Root ids, cursors, limits and error codes of the remote file system: they would only add easy members.
