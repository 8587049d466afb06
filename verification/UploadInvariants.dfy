/** What every step of the upload protocol keeps. */
module UploadInvariants {
  import opened Wrappers
  import opened Session
  import opened UploadProtocol

  type Prepares = map<SessionId, PrepareHandler>
  type Uploads = map<nat, UploadHandler>
  type Cancels = map<nat, CancelPc>
  type FileKey = (SessionId, FileId)

  /** The handler still has the slot it claimed. */
  predicate Owns(pc: PreparePc) {
    GuardArmed(pc) || pc.Clearing? || pc.Deferred? || pc.Leaked?
  }

  /** The request was admitted for its file and its outcome is not recorded yet. */
  predicate Outstanding(pc: UploadPc) {
    pc.Claimed? || pc.Receiving? || pc.Finishing? || pc.Dropped? || pc.Lost?
  }

  predicate StillReceiving(pc: UploadPc) {
    pc.Claimed? || pc.Receiving?
  }

  /** The request saved its file and did not record it yet. */
  predicate SavedBy(pc: UploadPc) {
    (pc.Finishing? && pc.result.Success?) || (pc.Lost? && pc.lost.Success?)
  }

  predicate IsFor(handler: UploadHandler, sid: SessionId, fid: FileId) {
    handler.sid == sid && handler.fid == fid
  }

  predicate HasOutstanding(uploads: Uploads, owner: map<FileKey, nat>, sid: SessionId, fid: FileId) {
    && (sid, fid) in owner
    && owner[(sid, fid)] in uploads
    && Outstanding(uploads[owner[(sid, fid)]].pc)
  }

  /** A pending slot and a handler that owns it imply each other. */
  ghost predicate SlotOwned(slot: Slot, prepares: Prepares) {
    && (slot.PendingSession? ==> slot.sid in prepares && Owns(prepares[slot.sid].pc))
    && (forall sid :: sid in prepares && Owns(prepares[sid].pc) ==> slot == PendingSession(sid, prepares[sid].ip))
  }

  /** Only offered files are accepted, all of them fresh. */
  ghost predicate PreparesSound(prepares: Prepares, accepted: map<SessionId, set<FileId>>) {
    && (forall sid :: sid in accepted ==>
          sid in prepares && prepares[sid].pc.Ended? && accepted[sid] <= prepares[sid].offered.Keys)
    && (forall sid :: sid in prepares && prepares[sid].pc.Accepting? ==> AcceptingSound(prepares[sid]))
  }

  predicate AcceptingSound(handler: PrepareHandler)
    requires handler.pc.Accepting?
  {
    && handler.pc.files != map[]
    && forall fid :: fid in handler.pc.files ==>
         && fid in handler.offered
         && handler.pc.files[fid].dto == handler.offered[fid]
         && handler.pc.files[fid].status.Pending?
         && handler.pc.files[fid].attempts == 0
  }

  /** An upload is announced only after its session's request was. */
  ghost predicate Announced(prepares: Prepares, accepted: map<SessionId, set<FileId>>, events: seq<Event>) {
    forall sid :: sid in prepares && (prepares[sid].pc.Deciding? || prepares[sid].pc.Accepting? || sid in accepted) ==>
      PrepareUpload(sid, prepares[sid].offered) in events
  }

  predicate FileInBounds(file: SessionFile) {
    && file.attempts <= MAX_UPLOAD_ATTEMPTS
    && (file.status.Pending? ==> file.attempts < MAX_UPLOAD_ATTEMPTS)
    && (file.status.InProgress? ==> file.attempts >= 1)
  }

  /** The active session is unfinished and its files are those it was accepted with. */
  ghost predicate ActiveSound(slot: Slot, accepted: map<SessionId, set<FileId>>, ends: map<SessionId, EndMark>) {
    slot.ActiveSession? ==>
      var session := slot.session;
      && session.sid in accepted
      && accepted[session.sid] == session.files.Keys
      && session.sid !in ends
      && !session.IsComplete()
      && (forall fid :: fid in session.files ==> FileInBounds(session.files[fid]))
  }

  predicate OffersFile(prepares: Prepares, sid: SessionId, fid: FileId, dto: FileDto) {
    sid in prepares && fid in prepares[sid].offered && prepares[sid].offered[fid] == dto
  }

  /** Sessions and uploads keep the metadata the sender offered. */
  ghost predicate DtosSound(slot: Slot, uploads: Uploads, prepares: Prepares) {
    && (slot.ActiveSession? ==>
          forall fid :: fid in slot.session.files ==>
            OffersFile(prepares, slot.session.sid, fid, slot.session.files[fid].dto))
    && (forall u :: u in uploads ==> OffersFile(prepares, uploads[u].sid, uploads[u].fid, uploads[u].dto))
  }

  ghost predicate UploadsSound(uploads: Uploads, owner: map<FileKey, nat>, accepted: map<SessionId, set<FileId>>) {
    && (forall u :: u in uploads ==>
          && uploads[u].sid in accepted
          && uploads[u].fid in accepted[uploads[u].sid]
          && (Outstanding(uploads[u].pc) ==>
                (uploads[u].sid, uploads[u].fid) in owner && owner[(uploads[u].sid, uploads[u].fid)] == u))
    && (forall key :: key in owner ==> owner[key] in uploads && IsFor(uploads[owner[key]], key.0, key.1))
  }

  /** In the active session a file is in progress exactly while a request is outstanding for it. */
  ghost predicate ProgressOwned(slot: Slot, uploads: Uploads, owner: map<FileKey, nat>) {
    slot.ActiveSession? ==>
      forall fid :: fid in slot.session.files ==>
        (slot.session.files[fid].status.InProgress? <==> HasOutstanding(uploads, owner, slot.session.sid, fid))
  }

  /** Where a request that ended its session can stand. */
  predicate EndedSession(pc: UploadPc) {
    pc.Closing? || pc.Unreported? || pc.Done?
  }

  predicate CancelledSession(pc: CancelPc) {
    pc.Notifying? || pc.Unnotified? || pc.Notified?
  }

  /** What took a session out of the slot is on record, once. */
  ghost predicate EndsSound(ends: map<SessionId, EndMark>, accepted: map<SessionId, set<FileId>>,
                            uploads: Uploads, cancels: Cancels) {
    && (forall sid :: sid in ends ==>
          && sid in accepted
          && (ends[sid].ByUpload? ==>
                ends[sid].request in uploads
                && EndedSession(uploads[ends[sid].request].pc))
          && (ends[sid].ByCancel? ==>
                ends[sid].handler in cancels
                && CancelledSession(cancels[ends[sid].handler])))
    && (forall u :: u in uploads && uploads[u].pc.Closing? ==>
          uploads[u].sid in ends && ends[uploads[u].sid] == ByUpload(u))
    && (forall c :: c in cancels && cancels[c].Notifying? ==>
          cancels[c].id in ends && ends[cancels[c].id] == ByCancel(c))
  }

  /** A session that finished has no request left that could still announce or record anything. */
  ghost predicate FinishedQuiet(ends: map<SessionId, EndMark>, uploads: Uploads) {
    forall u :: u in uploads && uploads[u].sid in ends && ends[uploads[u].sid].ByUpload? ==>
      !Outstanding(uploads[u].pc)
  }

  /** A file is saved by one request at most. */
  ghost predicate SuccessSound(uploads: Uploads, succeeded: map<FileKey, nat>) {
    && (forall key :: key in succeeded ==>
          && succeeded[key] in uploads
          && IsFor(uploads[succeeded[key]], key.0, key.1)
          && !StillReceiving(uploads[succeeded[key]].pc))
    && (forall u :: u in uploads && (uploads[u].sid, uploads[u].fid) in succeeded && Outstanding(uploads[u].pc) ==>
          SavedBy(uploads[u].pc))
    && (forall u :: u in uploads && SavedBy(uploads[u].pc) ==> (uploads[u].sid, uploads[u].fid) in succeeded)
  }

  /** In the active session only saved files are finished, and no saved file can be claimed again. */
  ghost predicate FinishedSaved(slot: Slot, succeeded: map<FileKey, nat>) {
    slot.ActiveSession? ==>
      forall fid :: fid in slot.session.files ==>
        var status := slot.session.files[fid].status;
        && ((slot.session.sid, fid) in succeeded ==> status.Finished? || status.InProgress?)
        && (status.Finished? ==> (slot.session.sid, fid) in succeeded)
  }

  /** The requests ever admitted for a file. */
  function AttemptsOf(uploads: Uploads, sid: SessionId, fid: FileId): set<nat> {
    set u | u in uploads && IsFor(uploads[u], sid, fid)
  }

  ghost predicate AttemptsBounded(slot: Slot, uploads: Uploads) {
    && (forall sid, fid :: |AttemptsOf(uploads, sid, fid)| <= MAX_UPLOAD_ATTEMPTS)
    && (slot.ActiveSession? ==>
          forall fid :: fid in slot.session.files ==>
            |AttemptsOf(uploads, slot.session.sid, fid)| == slot.session.files[fid].attempts)
  }

  /** Which event may follow which, for the same session. */
  predicate MayPrecede(first: Event, second: Event) {
    first.sid == second.sid && !first.CancelReceived? && !second.CancelReceived? ==>
      && !second.PrepareUpload?
      && !(first.SessionEnd? && second.SessionEnd?)
      && !(first.SessionEnd? && first.reason.AllFilesDone?)
      && !first.PrepareUploadAborted?
      && (second.PrepareUploadAborted? ==> first.PrepareUpload?)
  }

  ghost predicate LogOrdered(events: seq<Event>) {
    forall i, j :: 0 <= i < j < |events| ==> MayPrecede(events[i], events[j])
  }

  ghost predicate LogPrepares(events: seq<Event>, prepares: Prepares, accepted: map<SessionId, set<FileId>>) {
    forall i :: 0 <= i < |events| ==> PrepareEventSound(events[i], prepares, accepted)
  }

  predicate PrepareEventSound(event: Event, prepares: Prepares, accepted: map<SessionId, set<FileId>>) {
    && (event.PrepareUpload? ==>
          && event.sid in prepares
          && !prepares[event.sid].pc.Announcing?
          && prepares[event.sid].offered == event.offered)
    && (event.PrepareUploadAborted? ==>
          event.sid in prepares && prepares[event.sid].pc.Ended? && event.sid !in accepted)
  }

  ghost predicate LogUploads(events: seq<Event>, uploads: Uploads) {
    && (forall i :: 0 <= i < |events| ==> UploadEventSound(events[i], uploads))
    && (forall i, j :: 0 <= i < j < |events| ==> SupersededBy(events[i], events[j], uploads))
  }

  predicate UploadEventSound(event: Event, uploads: Uploads) {
    event.FileUpload? ==>
      event.request in uploads && IsFor(uploads[event.request], event.sid, event.fid)
      && !uploads[event.request].pc.Claimed?
  }

  /** Once a newer request for a file was announced, the older one stopped receiving. */
  predicate SupersededBy(first: Event, second: Event, uploads: Uploads) {
    first.FileUpload? && second.FileUpload? && first.sid == second.sid && first.fid == second.fid ==>
      first.request in uploads && !StillReceiving(uploads[first.request].pc)
  }

  ghost predicate LogEnds(events: seq<Event>, ends: map<SessionId, EndMark>, uploads: Uploads, cancels: Cancels) {
    forall i :: 0 <= i < |events| ==> EndEventSound(events[i], ends, uploads, cancels)
  }

  predicate EndEventSound(event: Event, ends: map<SessionId, EndMark>, uploads: Uploads, cancels: Cancels) {
    event.SessionEnd? ==>
      && event.sid in ends
      && (event.reason.AllFilesDone? ==>
            && ends[event.sid].ByUpload? && ends[event.sid].request in uploads
            && uploads[ends[event.sid].request].pc.Done?)
      && (event.reason.CancelledBySender? ==>
            && ends[event.sid].ByCancel? && ends[event.sid].handler in cancels
            && cancels[ends[event.sid].handler].Notified?)
  }

  ghost predicate SessionsSound(s: State) {
    && PreparesSound(s.prepares, s.accepted)
    && UploadsSound(s.uploads, s.owner, s.accepted)
    && EndsSound(s.ends, s.accepted, s.uploads, s.cancels)
  }

  ghost predicate LogsSound(s: State) {
    && LogOrdered(s.events)
    && LogPrepares(s.events, s.prepares, s.accepted)
    && LogUploads(s.events, s.uploads)
    && LogEnds(s.events, s.ends, s.uploads, s.cancels)
  }

  ghost predicate Inv(s: State) {
    && SlotOwned(s.slot, s.prepares)
    && SessionsSound(s)
    && Announced(s.prepares, s.accepted, s.events)
    && ActiveSound(s.slot, s.accepted, s.ends)
    && DtosSound(s.slot, s.uploads, s.prepares)
    && ProgressOwned(s.slot, s.uploads, s.owner)
    && FinishedQuiet(s.ends, s.uploads)
    && SuccessSound(s.uploads, s.succeeded)
    && FinishedSaved(s.slot, s.succeeded)
    && AttemptsBounded(s.slot, s.uploads)
    && LogsSound(s)
  }

  lemma InitialInv()
    ensures Inv(INITIAL)
  {
    forall sid, fid ensures |AttemptsOf(INITIAL.uploads, sid, fid)| <= MAX_UPLOAD_ATTEMPTS {
      assert AttemptsOf(INITIAL.uploads, sid, fid) == {};
    }
  }

  // Prepare-upload handlers

  lemma MoveKeepsSlotOwned(s: State, sid: SessionId, pc: PreparePc, slot: Slot)
    requires SlotOwned(s.slot, s.prepares) && sid in s.prepares
    requires Owns(pc) ==> Owns(s.prepares[sid].pc)
    requires if Owns(pc) == Owns(s.prepares[sid].pc) then slot == s.slot else !slot.PendingSession?
    ensures SlotOwned(slot, WithPrepare(s, sid, pc).prepares)
  {
  }

  lemma MoveKeepsPrepares(s: State, sid: SessionId, pc: PreparePc)
    requires PreparesSound(s.prepares, s.accepted) && sid in s.prepares && !s.prepares[sid].pc.Ended?
    requires pc.Accepting? ==> AcceptingSound(s.prepares[sid].(pc := pc))
    ensures PreparesSound(WithPrepare(s, sid, pc).prepares, s.accepted)
  {
  }

  lemma MoveKeepsDtos(s: State, sid: SessionId, pc: PreparePc)
    requires DtosSound(s.slot, s.uploads, s.prepares) && sid in s.prepares
    ensures DtosSound(s.slot, s.uploads, WithPrepare(s, sid, pc).prepares)
  {
  }

  lemma MoveKeepsLog(s: State, sid: SessionId, pc: PreparePc)
    requires LogPrepares(s.events, s.prepares, s.accepted) && sid in s.prepares
    requires !s.prepares[sid].pc.Ended? && !pc.Announcing?
    ensures LogPrepares(s.events, WithPrepare(s, sid, pc).prepares, s.accepted)
  {
  }

  /** Any move of a handler that does not announce anything, with the slot freed when it is given up. */
  lemma KeepsMove(s: State, sid: SessionId, pc: PreparePc, slot: Slot)
    requires Inv(s) && sid in s.prepares
    requires !s.prepares[sid].pc.Ended? && !pc.Announcing? && !pc.Deciding?
    requires Owns(pc) ==> Owns(s.prepares[sid].pc)
    requires if Owns(pc) == Owns(s.prepares[sid].pc) then slot == s.slot else slot.NoSession?
    requires pc.Accepting? ==> s.prepares[sid].pc.Deciding? && AcceptingSound(s.prepares[sid].(pc := pc))
    ensures Inv(WithPrepare(s, sid, pc).(slot := slot))
  {
    MoveKeepsSlotOwned(s, sid, pc, slot);
    MoveKeepsPrepares(s, sid, pc);
    MoveKeepsDtos(s, sid, pc);
    MoveKeepsLog(s, sid, pc);
  }

  lemma ClaimKeepsPrepares(s: State, sid: SessionId, ip: PeerIp, offered: map<FileId, FileDto>)
    requires SlotOwned(s.slot, s.prepares) && PreparesSound(s.prepares, s.accepted)
    requires Announced(s.prepares, s.accepted, s.events)
    requires sid !in s.prepares && s.slot.NoSession?
    ensures var t := DoClaimSlot(s, sid, ip, offered);
      && SlotOwned(t.slot, t.prepares)
      && PreparesSound(t.prepares, t.accepted)
      && Announced(t.prepares, t.accepted, t.events)
  {
  }

  lemma ClaimKeepsRecords(s: State, sid: SessionId, ip: PeerIp, offered: map<FileId, FileDto>)
    requires DtosSound(s.slot, s.uploads, s.prepares) && LogPrepares(s.events, s.prepares, s.accepted)
    requires sid !in s.prepares
    ensures var t := DoClaimSlot(s, sid, ip, offered);
      DtosSound(t.slot, t.uploads, t.prepares) && LogPrepares(t.events, t.prepares, t.accepted)
  {
  }

  lemma KeepsClaimSlot(s: State, sid: SessionId, ip: PeerIp, offered: map<FileId, FileDto>)
    requires Inv(s) && sid !in s.prepares && s.slot.NoSession?
    ensures Inv(DoClaimSlot(s, sid, ip, offered))
  {
    ClaimKeepsPrepares(s, sid, ip, offered);
    ClaimKeepsRecords(s, sid, ip, offered);
  }

  /** An event may be appended when it is sound and allowed after everything before it. */
  lemma AppendKeepsLogs(s: State, event: Event)
    requires LogsSound(s)
    requires forall i :: 0 <= i < |s.events| ==> MayPrecede(s.events[i], event)
    requires PrepareEventSound(event, s.prepares, s.accepted)
    requires UploadEventSound(event, s.uploads)
    requires EndEventSound(event, s.ends, s.uploads, s.cancels)
    requires forall i :: 0 <= i < |s.events| ==> SupersededBy(s.events[i], event, s.uploads)
    ensures LogsSound(Send(s, event))
  {
  }

  lemma AnnouncingIsSilent(s: State, sid: SessionId, i: nat)
    requires LogsSound(s) && SessionsSound(s) && PrepareAt(s, sid, Announcing) && i < |s.events|
    ensures s.events[i].CancelReceived? || s.events[i].sid != sid
  {
    assert PrepareEventSound(s.events[i], s.prepares, s.accepted);
    assert UploadEventSound(s.events[i], s.uploads);
    assert EndEventSound(s.events[i], s.ends, s.uploads, s.cancels);
  }

  lemma ReportingOnlyAnnounced(s: State, sid: SessionId, i: nat)
    requires LogsSound(s) && SessionsSound(s) && PrepareAt(s, sid, Reporting) && i < |s.events|
    ensures s.events[i].CancelReceived? || s.events[i].PrepareUpload? || s.events[i].sid != sid
  {
    assert PrepareEventSound(s.events[i], s.prepares, s.accepted);
    assert UploadEventSound(s.events[i], s.uploads);
    assert EndEventSound(s.events[i], s.ends, s.uploads, s.cancels);
  }

  lemma KeepsAnnouncePrepare(s: State, sid: SessionId)
    requires Inv(s) && PrepareAt(s, sid, Announcing)
    ensures Inv(Send(WithPrepare(s, sid, Deciding), PrepareUpload(sid, s.prepares[sid].offered)))
  {
    hide SlotOwned, PreparesSound, UploadsSound, EndsSound, ActiveSound, DtosSound, ProgressOwned, FinishedQuiet;
    hide SuccessSound, FinishedSaved, AttemptsBounded, LogOrdered, LogPrepares, LogUploads, LogEnds;
    var event := PrepareUpload(sid, s.prepares[sid].offered);
    var t := WithPrepare(s, sid, Deciding);
    MoveKeepsSlotOwned(s, sid, Deciding, s.slot);
    MoveKeepsPrepares(s, sid, Deciding);
    MoveKeepsDtos(s, sid, Deciding);
    MoveKeepsLog(s, sid, Deciding);
    forall i | 0 <= i < |s.events| ensures MayPrecede(s.events[i], event) {
      AnnouncingIsSilent(s, sid, i);
    }
    AppendKeepsLogs(t, event);
  }

  lemma KeepsReportAborted(s: State, sid: SessionId)
    requires Inv(s) && PrepareAt(s, sid, Reporting)
    ensures Inv(Send(WithPrepare(s, sid, Ended), PrepareUploadAborted(sid)))
  {
    var t := WithPrepare(s, sid, Ended);
    KeepsMove(s, sid, Ended, s.slot);
    forall i | 0 <= i < |s.events| ensures MayPrecede(s.events[i], PrepareUploadAborted(sid)) {
      ReportingOnlyAnnounced(s, sid, i);
    }
    AppendKeepsLogs(t, PrepareUploadAborted(sid));
  }

  /** A session that was never active has no uploads. */
  lemma ActivateKeepsOwners(s: State, sid: SessionId)
    requires UploadsSound(s.uploads, s.owner, s.accepted) && SuccessSound(s.uploads, s.succeeded)
    requires sid in s.prepares && s.prepares[sid].pc.Accepting? && AcceptingSound(s.prepares[sid]) && sid !in s.accepted
    ensures var t := DoActivate(s, sid);
      && UploadsSound(t.uploads, t.owner, t.accepted)
      && ProgressOwned(t.slot, t.uploads, t.owner)
      && FinishedSaved(t.slot, t.succeeded)
  {
  }

  lemma ActivateKeepsAttempts(s: State, sid: SessionId)
    requires UploadsSound(s.uploads, s.owner, s.accepted) && AttemptsBounded(s.slot, s.uploads)
    requires sid in s.prepares && s.prepares[sid].pc.Accepting? && AcceptingSound(s.prepares[sid]) && sid !in s.accepted
    ensures var t := DoActivate(s, sid); AttemptsBounded(t.slot, t.uploads)
  {
    forall fid ensures AttemptsOf(s.uploads, sid, fid) == {} {}
  }

  lemma ActivateKeepsUploads(s: State, sid: SessionId)
    requires SessionsSound(s) && AttemptsBounded(s.slot, s.uploads) && SuccessSound(s.uploads, s.succeeded)
    requires sid in s.prepares && s.prepares[sid].pc.Accepting?
    ensures var t := DoActivate(s, sid);
      && UploadsSound(t.uploads, t.owner, t.accepted)
      && ProgressOwned(t.slot, t.uploads, t.owner)
      && FinishedSaved(t.slot, t.succeeded)
      && AttemptsBounded(t.slot, t.uploads)
  {
    hide EndsSound;
    assert sid !in s.accepted && AcceptingSound(s.prepares[sid]);
    hide PreparesSound, UploadsSound, ProgressOwned, FinishedSaved, AttemptsBounded, AcceptingSound;
    ActivateKeepsOwners(s, sid);
    ActivateKeepsAttempts(s, sid);
  }

  lemma ActivateKeepsPrepares(s: State, sid: SessionId)
    requires SessionsSound(s) && SlotOwned(s.slot, s.prepares) && LogPrepares(s.events, s.prepares, s.accepted)
    requires sid in s.prepares && s.prepares[sid].pc.Accepting?
    ensures var t := DoActivate(s, sid);
      && SlotOwned(t.slot, t.prepares)
      && PreparesSound(t.prepares, t.accepted)
      && LogPrepares(t.events, t.prepares, t.accepted)
  {
    var t := DoActivate(s, sid);
    MoveKeepsSlotOwned(s, sid, Ended, t.slot);
    MoveKeepsPrepares(s, sid, Ended);
    MoveKeepsLog(s, sid, Ended);
  }

  lemma ActivateKeepsActive(s: State, sid: SessionId)
    requires SessionsSound(s) && DtosSound(s.slot, s.uploads, s.prepares)
    requires sid in s.prepares && s.prepares[sid].pc.Accepting?
    ensures var t := DoActivate(s, sid);
      && ActiveSound(t.slot, t.accepted, t.ends)
      && EndsSound(t.ends, t.accepted, t.uploads, t.cancels)
      && DtosSound(t.slot, t.uploads, t.prepares)
  {
    var t := DoActivate(s, sid);
    assert AcceptingSound(s.prepares[sid]);
    var fid :| fid in s.prepares[sid].pc.files;
    assert !t.slot.session.files[fid].status.Finished?;
    MoveKeepsDtos(s, sid, Ended);
  }

  lemma KeepsActivate(s: State, sid: SessionId)
    requires Inv(s) && sid in s.prepares && s.prepares[sid].pc.Accepting?
    ensures Inv(DoActivate(s, sid))
  {
    ActivateKeepsUploads(s, sid);
    ActivateKeepsPrepares(s, sid);
    ActivateKeepsActive(s, sid);
  }

  // Upload handlers

  lemma UploadMoveKeepsUploads(s: State, u: nat, pc: UploadPc)
    requires UploadsSound(s.uploads, s.owner, s.accepted) && u in s.uploads
    requires Outstanding(pc) ==> Outstanding(s.uploads[u].pc)
    ensures UploadsSound(WithUpload(s, u, pc).uploads, s.owner, s.accepted)
  {
  }

  lemma UploadMoveKeepsProgress(s: State, u: nat, pc: UploadPc)
    requires ProgressOwned(s.slot, s.uploads, s.owner) && u in s.uploads
    requires Outstanding(pc) <==> Outstanding(s.uploads[u].pc)
    ensures ProgressOwned(s.slot, WithUpload(s, u, pc).uploads, s.owner)
  {
  }

  lemma UploadMoveKeepsEnds(s: State, u: nat, pc: UploadPc)
    requires EndsSound(s.ends, s.accepted, s.uploads, s.cancels) && u in s.uploads
    requires EndedSession(s.uploads[u].pc) ==> EndedSession(pc)
    requires pc.Closing? ==> s.uploads[u].pc.Closing?
    ensures EndsSound(s.ends, s.accepted, WithUpload(s, u, pc).uploads, s.cancels)
  {
  }

  lemma UploadMoveKeepsSuccess(s: State, u: nat, pc: UploadPc)
    requires SuccessSound(s.uploads, s.succeeded) && u in s.uploads
    requires StillReceiving(pc) ==> StillReceiving(s.uploads[u].pc)
    requires Outstanding(pc) ==> Outstanding(s.uploads[u].pc)
    requires Outstanding(pc) ==> (SavedBy(pc) <==> SavedBy(s.uploads[u].pc))
    ensures SuccessSound(WithUpload(s, u, pc).uploads, s.succeeded)
  {
  }

  lemma UploadMoveKeepsAttempts(s: State, u: nat, pc: UploadPc)
    requires AttemptsBounded(s.slot, s.uploads) && u in s.uploads
    ensures AttemptsBounded(s.slot, WithUpload(s, u, pc).uploads)
  {
    forall sid, fid ensures AttemptsOf(WithUpload(s, u, pc).uploads, sid, fid) == AttemptsOf(s.uploads, sid, fid) {}
  }

  lemma UploadMoveKeepsLogs(s: State, u: nat, pc: UploadPc)
    requires LogsSound(s) && u in s.uploads
    requires StillReceiving(pc) ==> StillReceiving(s.uploads[u].pc)
    requires !pc.Claimed? && !s.uploads[u].pc.Done?
    ensures LogsSound(WithUpload(s, u, pc))
  {
  }

  lemma UploadMoveKeepsQuiet(s: State, u: nat, pc: UploadPc)
    requires FinishedQuiet(s.ends, s.uploads) && u in s.uploads
    requires Outstanding(pc) ==> Outstanding(s.uploads[u].pc)
    ensures FinishedQuiet(s.ends, WithUpload(s, u, pc).uploads)
  {
  }

  lemma UploadMoveKeepsDtos(s: State, u: nat, pc: UploadPc)
    requires DtosSound(s.slot, s.uploads, s.prepares) && u in s.uploads
    ensures DtosSound(s.slot, WithUpload(s, u, pc).uploads, s.prepares)
  {
  }

  /** Any move of a request that records nothing and announces nothing. */
  lemma KeepsUploadMove(s: State, u: nat, pc: UploadPc)
    requires Inv(s) && u in s.uploads
    requires Outstanding(pc) && Outstanding(s.uploads[u].pc) && !pc.Claimed?
    requires StillReceiving(pc) ==> StillReceiving(s.uploads[u].pc)
    requires SavedBy(pc) <==> SavedBy(s.uploads[u].pc)
    ensures Inv(WithUpload(s, u, pc))
  {
    hide ActiveSound, DtosSound, ProgressOwned, FinishedQuiet, SuccessSound, FinishedSaved, AttemptsBounded;
    hide SlotOwned, UploadsSound, EndsSound, LogsSound, PreparesSound, Announced;
    UploadMoveKeepsUploads(s, u, pc);
    UploadMoveKeepsProgress(s, u, pc);
    UploadMoveKeepsEnds(s, u, pc);
    UploadMoveKeepsSuccess(s, u, pc);
    UploadMoveKeepsAttempts(s, u, pc);
    UploadMoveKeepsLogs(s, u, pc);
    UploadMoveKeepsDtos(s, u, pc);
    UploadMoveKeepsQuiet(s, u, pc);
  }

  /** A file saved for the first time was not saved by any earlier request. */
  lemma SavingKeepsRecords(s: State, u: nat)
    requires SuccessSound(s.uploads, s.succeeded) && UploadsSound(s.uploads, s.owner, s.accepted)
    requires UploadAt(s, u, Receiving) && (s.uploads[u].sid, s.uploads[u].fid) !in s.succeeded
    ensures var t := DoFinishUpload(s, u, Success); SuccessSound(t.uploads, t.succeeded)
  {
    assert Outstanding(s.uploads[u].pc);
  }

  lemma SavingKeepsFinished(s: State, u: nat)
    requires UploadsSound(s.uploads, s.owner, s.accepted)
    requires FinishedSaved(s.slot, s.succeeded) && ProgressOwned(s.slot, s.uploads, s.owner)
    requires UploadAt(s, u, Receiving)
    ensures var t := DoFinishUpload(s, u, Success); FinishedSaved(t.slot, t.succeeded)
  {
    assert Outstanding(s.uploads[u].pc) && s.owner[(s.uploads[u].sid, s.uploads[u].fid)] == u;
  }

  lemma SavingKeepsSuccess(s: State, u: nat)
    requires SuccessSound(s.uploads, s.succeeded) && UploadsSound(s.uploads, s.owner, s.accepted)
    requires FinishedSaved(s.slot, s.succeeded) && ProgressOwned(s.slot, s.uploads, s.owner)
    requires UploadAt(s, u, Receiving)
    ensures (s.uploads[u].sid, s.uploads[u].fid) !in s.succeeded
    ensures var t := DoFinishUpload(s, u, Success);
      SuccessSound(t.uploads, t.succeeded) && FinishedSaved(t.slot, t.succeeded)
  {
    assert Outstanding(s.uploads[u].pc) && !SavedBy(s.uploads[u].pc);
    assert (s.uploads[u].sid, s.uploads[u].fid) !in s.succeeded;
    hide SuccessSound, UploadsSound, FinishedSaved, ProgressOwned;
    SavingKeepsRecords(s, u);
    SavingKeepsFinished(s, u);
  }

  lemma KeepsSaving(s: State, u: nat)
    requires Inv(s) && UploadAt(s, u, Receiving)
    ensures Inv(DoFinishUpload(s, u, Success))
  {
    hide ActiveSound, DtosSound, ProgressOwned, FinishedQuiet, SuccessSound, FinishedSaved, AttemptsBounded;
    hide SlotOwned, UploadsSound, EndsSound, LogOrdered, LogPrepares, LogUploads, LogEnds, PreparesSound, Announced;
    var pc := Finishing(Success);
    SavingKeepsSuccess(s, u);
    UploadMoveKeepsUploads(s, u, pc);
    UploadMoveKeepsProgress(s, u, pc);
    UploadMoveKeepsEnds(s, u, pc);
    UploadMoveKeepsAttempts(s, u, pc);
    UploadMoveKeepsLogs(s, u, pc);
    UploadMoveKeepsDtos(s, u, pc);
    UploadMoveKeepsQuiet(s, u, pc);
  }

  lemma KeepsFinishUpload(s: State, u: nat, result: SaveResult)
    requires Inv(s)
    requires UploadAt(s, u, Receiving) || (UploadAt(s, u, Claimed) && result.SaveFailed?)
    ensures Inv(DoFinishUpload(s, u, result))
  {
    hide Inv;
    if result.Success? {
      KeepsSaving(s, u);
    } else {
      KeepsUploadMove(s, u, Finishing(result));
    }
  }

  /** A request that is about to announce its upload is the latest one for its file. */
  lemma ClaimedMayAnnounce(s: State, u: nat, i: nat)
    requires LogsSound(s) && SessionsSound(s) && FinishedQuiet(s.ends, s.uploads)
    requires UploadAt(s, u, Claimed) && i < |s.events|
    ensures var event := FileUpload(s.uploads[u].sid, s.uploads[u].fid, u);
      MayPrecede(s.events[i], event) && SupersededBy(s.events[i], event, s.uploads)
  {
    assert Outstanding(s.uploads[u].pc);
    assert PrepareEventSound(s.events[i], s.prepares, s.accepted);
    assert UploadEventSound(s.events[i], s.uploads);
    assert EndEventSound(s.events[i], s.ends, s.uploads, s.cancels);
  }

  lemma KeepsAnnounceUpload(s: State, u: nat)
    requires Inv(s) && UploadAt(s, u, Claimed)
    ensures Inv(Send(WithUpload(s, u, Receiving), FileUpload(s.uploads[u].sid, s.uploads[u].fid, u)))
  {
    hide SlotOwned, PreparesSound, UploadsSound, EndsSound, ActiveSound, DtosSound, ProgressOwned, FinishedQuiet;
    hide SuccessSound, FinishedSaved, AttemptsBounded, LogOrdered, LogPrepares, LogUploads, LogEnds;
    var event := FileUpload(s.uploads[u].sid, s.uploads[u].fid, u);
    var t := WithUpload(s, u, Receiving);
    KeepsUploadMove(s, u, Receiving);
    AnnounceKeepsLogs(s, u);
  }

  lemma AnnounceKeepsLogs(s: State, u: nat)
    requires LogsSound(s) && SessionsSound(s) && FinishedQuiet(s.ends, s.uploads)
    requires UploadAt(s, u, Claimed)
    ensures LogsSound(Send(WithUpload(s, u, Receiving), FileUpload(s.uploads[u].sid, s.uploads[u].fid, u)))
  {
    var event := FileUpload(s.uploads[u].sid, s.uploads[u].fid, u);
    var t := WithUpload(s, u, Receiving);
    UploadMoveKeepsLogs(s, u, Receiving);
    forall i | 0 <= i < |s.events|
      ensures MayPrecede(s.events[i], event) && SupersededBy(s.events[i], event, t.uploads)
    {
      ClaimedMayAnnounce(s, u, i);
      assert UploadEventSound(s.events[i], s.uploads);
    }
    AppendKeepsLogs(t, event);
  }

  lemma ClosingMayReport(s: State, u: nat, i: nat)
    requires LogsSound(s) && SessionsSound(s) && ClosingAt(s, u) && i < |s.events|
    ensures MayPrecede(s.events[i], SessionEnd(s.uploads[u].sid, AllFilesDone))
  {
    assert PrepareEventSound(s.events[i], s.prepares, s.accepted);
    assert EndEventSound(s.events[i], s.ends, s.uploads, s.cancels);
  }

  /** The reporter of an ended session stops, with or without a report. */
  lemma KeepsReporterMove(s: State, u: nat, pc: UploadPc)
    requires Inv(s) && ClosingAt(s, u) && (pc.Unreported? || pc.Done?)
    ensures Inv(WithUpload(s, u, pc))
  {
    hide ActiveSound, DtosSound, ProgressOwned, FinishedQuiet, SuccessSound, FinishedSaved, AttemptsBounded;
    hide SlotOwned, UploadsSound, EndsSound, LogsSound, PreparesSound, Announced;
    UploadMoveKeepsUploads(s, u, pc);
    UploadMoveKeepsProgress(s, u, pc);
    UploadMoveKeepsEnds(s, u, pc);
    UploadMoveKeepsSuccess(s, u, pc);
    UploadMoveKeepsAttempts(s, u, pc);
    UploadMoveKeepsLogs(s, u, pc);
    UploadMoveKeepsDtos(s, u, pc);
    UploadMoveKeepsQuiet(s, u, pc);
  }

  lemma KeepsReportFinished(s: State, u: nat)
    requires Inv(s) && ClosingAt(s, u)
    ensures Inv(Send(WithUpload(s, u, Done), SessionEnd(s.uploads[u].sid, AllFilesDone)))
  {
    var t := WithUpload(s, u, Done);
    KeepsReporterMove(s, u, Done);
    forall i | 0 <= i < |s.events| ensures MayPrecede(s.events[i], SessionEnd(s.uploads[u].sid, AllFilesDone)) {
      ClosingMayReport(s, u, i);
    }
    AppendKeepsLogs(t, SessionEnd(s.uploads[u].sid, AllFilesDone));
  }

  // Claiming a file

  lemma ClaimUploadKeepsOwners(s: State, u: nat, sid: SessionId, fid: FileId, token: Token, ip: PeerIp)
    requires UploadsSound(s.uploads, s.owner, s.accepted) && sid in s.accepted && fid in s.accepted[sid]
    requires u !in s.uploads && UploadAdmitted(s.slot, sid, fid, token, ip)
    requires !HasOutstanding(s.uploads, s.owner, sid, fid)
    ensures var t := DoClaimUpload(s, u, sid, fid); UploadsSound(t.uploads, t.owner, t.accepted)
  {
  }

  lemma ClaimUploadKeepsProgress(s: State, u: nat, sid: SessionId, fid: FileId, token: Token, ip: PeerIp)
    requires UploadsSound(s.uploads, s.owner, s.accepted) && ProgressOwned(s.slot, s.uploads, s.owner)
    requires u !in s.uploads && UploadAdmitted(s.slot, sid, fid, token, ip)
    ensures var t := DoClaimUpload(s, u, sid, fid); ProgressOwned(t.slot, t.uploads, t.owner)
  {
  }

  lemma ClaimUploadKeepsUploads(s: State, u: nat, sid: SessionId, fid: FileId, token: Token, ip: PeerIp)
    requires UploadsSound(s.uploads, s.owner, s.accepted) && ActiveSound(s.slot, s.accepted, s.ends)
    requires ProgressOwned(s.slot, s.uploads, s.owner)
    requires u !in s.uploads && UploadAdmitted(s.slot, sid, fid, token, ip)
    ensures var t := DoClaimUpload(s, u, sid, fid);
      UploadsSound(t.uploads, t.owner, t.accepted) && ProgressOwned(t.slot, t.uploads, t.owner)
  {
    assert !HasOutstanding(s.uploads, s.owner, sid, fid);
    hide UploadsSound, ProgressOwned, HasOutstanding;
    ClaimUploadKeepsOwners(s, u, sid, fid, token, ip);
    ClaimUploadKeepsProgress(s, u, sid, fid, token, ip);
  }

  lemma ClaimUploadKeepsActive(s: State, u: nat, sid: SessionId, fid: FileId, token: Token, ip: PeerIp)
    requires ActiveSound(s.slot, s.accepted, s.ends) && DtosSound(s.slot, s.uploads, s.prepares)
    requires u !in s.uploads && UploadAdmitted(s.slot, sid, fid, token, ip)
    ensures var t := DoClaimUpload(s, u, sid, fid);
      ActiveSound(t.slot, t.accepted, t.ends) && DtosSound(t.slot, t.uploads, t.prepares)
  {
    var t := DoClaimUpload(s, u, sid, fid);
    assert FileInBounds(s.slot.session.files[fid]);
    assert t.slot.session.files[fid].status.InProgress?;
  }

  lemma ClaimUploadKeepsSuccess(s: State, u: nat, sid: SessionId, fid: FileId, token: Token, ip: PeerIp)
    requires SuccessSound(s.uploads, s.succeeded) && FinishedSaved(s.slot, s.succeeded)
    requires u !in s.uploads && UploadAdmitted(s.slot, sid, fid, token, ip)
    ensures var t := DoClaimUpload(s, u, sid, fid);
      SuccessSound(t.uploads, t.succeeded) && FinishedSaved(t.slot, t.succeeded)
  {
    assert (sid, fid) !in s.succeeded;
  }

  lemma NewAttempt(uploads: Uploads, u: nat, handler: UploadHandler, sid: SessionId, fid: FileId)
    requires u !in uploads
    ensures |AttemptsOf(uploads[u := handler], sid, fid)| ==
            |AttemptsOf(uploads, sid, fid)| + (if IsFor(handler, sid, fid) then 1 else 0)
  {
    var before, after := AttemptsOf(uploads, sid, fid), AttemptsOf(uploads[u := handler], sid, fid);
    assert after == if IsFor(handler, sid, fid) then before + {u} else before;
  }

  lemma ClaimUploadKeepsAttempts(s: State, u: nat, sid: SessionId, fid: FileId, token: Token, ip: PeerIp)
    requires AttemptsBounded(s.slot, s.uploads) && ActiveSound(s.slot, s.accepted, s.ends)
    requires u !in s.uploads && UploadAdmitted(s.slot, sid, fid, token, ip)
    ensures var t := DoClaimUpload(s, u, sid, fid); AttemptsBounded(t.slot, t.uploads)
  {
    var t := DoClaimUpload(s, u, sid, fid);
    var handler := t.uploads[u];
    assert FileInBounds(s.slot.session.files[fid]);
    forall sid', fid' ensures |AttemptsOf(t.uploads, sid', fid')| ==
        |AttemptsOf(s.uploads, sid', fid')| + (if sid' == sid && fid' == fid then 1 else 0)
    {
      NewAttempt(s.uploads, u, handler, sid', fid');
    }
  }

  lemma ClaimUploadKeepsEnds(s: State, u: nat, sid: SessionId, fid: FileId, token: Token, ip: PeerIp)
    requires SessionsSound(s) && ActiveSound(s.slot, s.accepted, s.ends) && FinishedQuiet(s.ends, s.uploads)
    requires u !in s.uploads && UploadAdmitted(s.slot, sid, fid, token, ip)
    ensures var t := DoClaimUpload(s, u, sid, fid);
      EndsSound(t.ends, t.accepted, t.uploads, t.cancels) && FinishedQuiet(t.ends, t.uploads)
  {
  }

  lemma ClaimUploadKeepsLogs(s: State, u: nat, sid: SessionId, fid: FileId, token: Token, ip: PeerIp)
    requires LogsSound(s) && u !in s.uploads && UploadAdmitted(s.slot, sid, fid, token, ip)
    ensures LogsSound(DoClaimUpload(s, u, sid, fid))
  {
  }

  lemma KeepsClaimUpload(s: State, u: nat, sid: SessionId, fid: FileId, token: Token, ip: PeerIp)
    requires Inv(s) && u !in s.uploads && UploadAdmitted(s.slot, sid, fid, token, ip)
    ensures Inv(DoClaimUpload(s, u, sid, fid))
  {
    ClaimUploadKeepsUploads(s, u, sid, fid, token, ip);
    ClaimUploadKeepsActive(s, u, sid, fid, token, ip);
    ClaimUploadKeepsSuccess(s, u, sid, fid, token, ip);
    ClaimUploadKeepsAttempts(s, u, sid, fid, token, ip);
    ClaimUploadKeepsEnds(s, u, sid, fid, token, ip);
    ClaimUploadKeepsLogs(s, u, sid, fid, token, ip);
  }

  // Recording an outcome

  /** The file a request is about to finalize is still in progress, in its own session. */
  lemma FinalizerOwnsFile(s: State, u: nat)
    requires UploadsSound(s.uploads, s.owner, s.accepted) && ProgressOwned(s.slot, s.uploads, s.owner)
    requires ActiveSound(s.slot, s.accepted, s.ends)
    requires u in s.uploads && Outstanding(s.uploads[u].pc) && s.slot.IsActive(s.uploads[u].sid)
    ensures s.uploads[u].fid in s.slot.session.files
    ensures s.slot.session.files[s.uploads[u].fid].status.InProgress?
    ensures s.owner[(s.uploads[u].sid, s.uploads[u].fid)] == u
  {
    assert HasOutstanding(s.uploads, s.owner, s.uploads[u].sid, s.uploads[u].fid);
  }

  lemma FinalizeKeepsProgress(s: State, u: nat)
    requires UploadsSound(s.uploads, s.owner, s.accepted) && ProgressOwned(s.slot, s.uploads, s.owner)
    requires ActiveSound(s.slot, s.accepted, s.ends) && Finalizing(s, u)
    ensures var t := DoFinalize(s, u); ProgressOwned(t.slot, t.uploads, t.owner)
  {
    hide ActiveSound, EndsSession;
    if s.slot.IsActive(s.uploads[u].sid) {
      FinalizerOwnsFile(s, u);
    }
  }

  lemma FinalizeKeepsActive(s: State, u: nat)
    requires UploadsSound(s.uploads, s.owner, s.accepted) && ProgressOwned(s.slot, s.uploads, s.owner)
    requires ActiveSound(s.slot, s.accepted, s.ends) && Finalizing(s, u)
    ensures var t := DoFinalize(s, u); ActiveSound(t.slot, t.accepted, t.ends)
  {
    if s.slot.IsActive(s.uploads[u].sid) {
      FinalizerOwnsFile(s, u);
    }
  }

  lemma FinalizeKeepsDtos(s: State, u: nat)
    requires DtosSound(s.slot, s.uploads, s.prepares) && Finalizing(s, u)
    ensures var t := DoFinalize(s, u); DtosSound(t.slot, t.uploads, t.prepares)
  {
  }

  /** When a request completes the session, no other request of it is outstanding. */
  lemma CompletionIsQuiet(s: State, u: nat, v: nat)
    requires UploadsSound(s.uploads, s.owner, s.accepted) && ProgressOwned(s.slot, s.uploads, s.owner)
    requires ActiveSound(s.slot, s.accepted, s.ends) && Finalizing(s, u)
    requires EndsSession(s.slot, s.uploads[u].sid, s.uploads[u].fid, PendingOutcome(s.uploads[u].pc))
    requires v in s.uploads && v != u && s.uploads[v].sid == s.uploads[u].sid
    ensures !Outstanding(s.uploads[v].pc)
  {
    FinalizerOwnsFile(s, u);
    var other := s.uploads[v].fid;
    assert other in s.slot.session.files;
    if other != s.uploads[u].fid {
      var settled := Settled(s.slot, s.uploads[u].fid, PendingOutcome(s.uploads[u].pc)).session;
      assert settled.files[other] == s.slot.session.files[other];
      assert !HasOutstanding(s.uploads, s.owner, s.uploads[v].sid, other);
    }
  }

  lemma FinalizeKeepsEnds(s: State, u: nat)
    requires EndsSound(s.ends, s.accepted, s.uploads, s.cancels)
    requires ActiveSound(s.slot, s.accepted, s.ends) && Finalizing(s, u)
    ensures var t := DoFinalize(s, u); EndsSound(t.ends, t.accepted, t.uploads, t.cancels)
  {
  }

  lemma FinalizeKeepsSessions(s: State, u: nat)
    requires SlotOwned(s.slot, s.prepares) && SessionsSound(s) && ProgressOwned(s.slot, s.uploads, s.owner)
    requires ActiveSound(s.slot, s.accepted, s.ends) && Finalizing(s, u)
    ensures SlotOwned(DoFinalize(s, u).slot, s.prepares) && SessionsSound(DoFinalize(s, u))
  {
    UploadMoveKeepsUploads(s, u, DoFinalize(s, u).uploads[u].pc);
    FinalizeKeepsEnds(s, u);
  }

  lemma FinalizeKeepsQuiet(s: State, u: nat)
    requires SessionsSound(s) && ProgressOwned(s.slot, s.uploads, s.owner) && FinishedQuiet(s.ends, s.uploads)
    requires ActiveSound(s.slot, s.accepted, s.ends) && Finalizing(s, u)
    ensures var t := DoFinalize(s, u); FinishedQuiet(t.ends, t.uploads)
  {
    var t := DoFinalize(s, u);
    forall v | v in t.uploads && t.uploads[v].sid in t.ends && t.ends[t.uploads[v].sid].ByUpload?
      ensures !Outstanding(t.uploads[v].pc)
    {
      if v != u && t.ends != s.ends && t.uploads[v].sid == s.uploads[u].sid {
        CompletionIsQuiet(s, u, v);
      }
    }
  }

  lemma FinalizeKeepsSaved(s: State, u: nat)
    requires UploadsSound(s.uploads, s.owner, s.accepted) && ProgressOwned(s.slot, s.uploads, s.owner)
    requires ActiveSound(s.slot, s.accepted, s.ends) && Finalizing(s, u)
    requires SuccessSound(s.uploads, s.succeeded) && FinishedSaved(s.slot, s.succeeded)
    ensures var t := DoFinalize(s, u); FinishedSaved(t.slot, t.succeeded)
  {
    hide ActiveSound, EndsSession;
    if s.slot.IsActive(s.uploads[u].sid) {
      FinalizerOwnsFile(s, u);
      assert Outstanding(s.uploads[u].pc);
    }
  }

  lemma FinalizeKeepsAttempts(s: State, u: nat)
    requires AttemptsBounded(s.slot, s.uploads) && Finalizing(s, u)
    ensures var t := DoFinalize(s, u); AttemptsBounded(t.slot, t.uploads)
  {
    var t := DoFinalize(s, u);
    UploadMoveKeepsAttempts(s, u, t.uploads[u].pc);
  }

  lemma FinalizeKeepsLogs(s: State, u: nat)
    requires LogsSound(s) && ActiveSound(s.slot, s.accepted, s.ends) && Finalizing(s, u)
    ensures LogsSound(DoFinalize(s, u))
  {
    var t := DoFinalize(s, u);
    UploadMoveKeepsLogs(s, u, t.uploads[u].pc);
  }

  lemma FinalizeKeepsSlot(s: State, u: nat)
    requires SessionsSound(s) && ProgressOwned(s.slot, s.uploads, s.owner)
    requires ActiveSound(s.slot, s.accepted, s.ends) && DtosSound(s.slot, s.uploads, s.prepares)
    requires SuccessSound(s.uploads, s.succeeded) && FinishedSaved(s.slot, s.succeeded)
    requires AttemptsBounded(s.slot, s.uploads) && Finalizing(s, u)
    ensures var t := DoFinalize(s, u);
      && ProgressOwned(t.slot, t.uploads, t.owner)
      && ActiveSound(t.slot, t.accepted, t.ends)
      && DtosSound(t.slot, t.uploads, t.prepares)
      && FinishedSaved(t.slot, t.succeeded)
      && AttemptsBounded(t.slot, t.uploads)
  {
    FinalizeKeepsProgress(s, u);
    FinalizeKeepsActive(s, u);
    FinalizeKeepsDtos(s, u);
    FinalizeKeepsSaved(s, u);
    FinalizeKeepsAttempts(s, u);
  }

  lemma KeepsFinalize(s: State, u: nat)
    requires Inv(s) && Finalizing(s, u)
    ensures Inv(DoFinalize(s, u))
  {
    hide ActiveSound, DtosSound, ProgressOwned, FinishedQuiet, SuccessSound, FinishedSaved, AttemptsBounded;
    hide SlotOwned, SessionsSound, Announced, LogsSound, EndsSession, AfterFinalize;
    UploadMoveKeepsSuccess(s, u, DoFinalize(s, u).uploads[u].pc);
    FinalizeKeepsSessions(s, u);
    FinalizeKeepsSlot(s, u);
    FinalizeKeepsQuiet(s, u);
    FinalizeKeepsLogs(s, u);
  }

  // Cancelling

  lemma NewCancelKeepsEnds(s: State, c: nat, pc: CancelPc)
    requires EndsSound(s.ends, s.accepted, s.uploads, s.cancels) && LogEnds(s.events, s.ends, s.uploads, s.cancels)
    requires c in s.cancels ==>
      s.cancels[c].CheckingActive? || s.cancels[c].Forwarding? || (s.cancels[c].Notifying? && CancelledSession(pc))
    requires !pc.Notifying?
    ensures var cancels := s.cancels[c := pc];
      EndsSound(s.ends, s.accepted, s.uploads, cancels) && LogEnds(s.events, s.ends, s.uploads, cancels)
  {
  }

  lemma KeepsCancelMove(s: State, c: nat, pc: CancelPc, cancelled: set<SessionId>)
    requires Inv(s) && !pc.Notifying?
    requires c in s.cancels ==> s.cancels[c].CheckingActive? || (s.cancels[c].Notifying? && CancelledSession(pc))
    ensures Inv(s.(cancelled := cancelled, cancels := s.cancels[c := pc]))
  {
    NewCancelKeepsEnds(s, c, pc);
  }

  lemma KeepsBeginCancel(s: State, c: nat, ip: PeerIp, id: Option<SessionId>)
    requires Inv(s) && c !in s.cancels
    ensures Inv(DoBeginCancel(s, c, ip, id))
  {
    hide Inv;
    var t := DoBeginCancel(s, c, ip, id);
    KeepsCancelMove(s, c, t.cancels[c], t.cancelled);
    assert t == s.(cancelled := t.cancelled, cancels := s.cancels[c := t.cancels[c]]);
  }

  /** The active session leaves the slot for a reason other than completion. */
  lemma EndingKeepsEnds(s: State, sid: SessionId, mark: EndMark, cancels: Cancels)
    requires SessionsSound(s) && ActiveSound(s.slot, s.accepted, s.ends) && FinishedQuiet(s.ends, s.uploads)
    requires LogEnds(s.events, s.ends, s.uploads, s.cancels) && s.slot.IsActive(sid)
    requires RecordsCancel(s, sid, mark, cancels)
    ensures var ends := s.ends[sid := mark];
      && EndsSound(ends, s.accepted, s.uploads, cancels)
      && FinishedQuiet(ends, s.uploads)
      && LogEnds(s.events, ends, s.uploads, cancels)
  {
    EndingKeepsMarks(s, sid, mark, cancels);
    EndingKeepsLog(s, sid, mark, cancels);
    hide EndsSound, LogEnds, PreparesSound, UploadsSound;
  }

  predicate RecordsCancel(s: State, sid: SessionId, mark: EndMark, cancels: Cancels) {
    && !mark.ByUpload?
    && (mark.ByApplication? ==> cancels == s.cancels)
    && (mark.ByCancel? ==>
          && mark.handler in s.cancels
          && s.cancels[mark.handler].CheckingActive?
          && cancels == s.cancels[mark.handler := Notifying(sid)])
  }

  lemma EndingKeepsMarks(s: State, sid: SessionId, mark: EndMark, cancels: Cancels)
    requires EndsSound(s.ends, s.accepted, s.uploads, s.cancels) && sid in s.accepted && sid !in s.ends
    requires RecordsCancel(s, sid, mark, cancels)
    ensures EndsSound(s.ends[sid := mark], s.accepted, s.uploads, cancels)
  {
  }

  lemma EndingKeepsLog(s: State, sid: SessionId, mark: EndMark, cancels: Cancels)
    requires LogEnds(s.events, s.ends, s.uploads, s.cancels) && sid !in s.ends
    requires RecordsCancel(s, sid, mark, cancels)
    ensures LogEnds(s.events, s.ends[sid := mark], s.uploads, cancels)
  {
  }

  lemma KeepsCancelActive(s: State, c: nat)
    requires Inv(s) && c in s.cancels && s.cancels[c].CheckingActive?
    ensures Inv(DoCancelActive(s, c))
  {
    var pc := s.cancels[c];
    if CancelsActive(s.slot, pc.ip, pc.id) {
      EndingKeepsEnds(s, pc.id, ByCancel(c), s.cancels[c := Notifying(pc.id)]);
    } else {
      KeepsCancelMove(s, c, Forwarding(pc.ip, pc.id), s.cancelled);
    }
  }

  lemma KeepsCancelByApplication(s: State, sid: SessionId)
    requires Inv(s) && s.slot.IsActive(sid)
    ensures Inv(s.(slot := NoSession, ends := s.ends[sid := ByApplication]))
  {
    EndingKeepsEnds(s, sid, ByApplication, s.cancels);
  }

  lemma NotifyingMayReport(s: State, c: nat, i: nat)
    requires LogsSound(s) && SessionsSound(s) && c in s.cancels && s.cancels[c].Notifying? && i < |s.events|
    ensures MayPrecede(s.events[i], SessionEnd(s.cancels[c].id, CancelledBySender))
  {
    assert PrepareEventSound(s.events[i], s.prepares, s.accepted);
    assert EndEventSound(s.events[i], s.ends, s.uploads, s.cancels);
  }

  lemma KeepsReportCancelled(s: State, c: nat)
    requires Inv(s) && c in s.cancels && s.cancels[c].Notifying?
    ensures Inv(Send(s.(cancels := s.cancels[c := Notified]), SessionEnd(s.cancels[c].id, CancelledBySender)))
  {
    NewCancelKeepsEnds(s, c, Notified);
    forall i | 0 <= i < |s.events| ensures MayPrecede(s.events[i], SessionEnd(s.cancels[c].id, CancelledBySender)) {
      NotifyingMayReport(s, c, i);
    }
    AppendKeepsLogs(s.(cancels := s.cancels[c := Notified]), SessionEnd(s.cancels[c].id, CancelledBySender));
  }

  lemma KeepsForward(s: State, c: nat)
    requires Inv(s) && c in s.cancels && s.cancels[c].Forwarding?
    ensures Inv(Send(s.(cancels := s.cancels[c := Notified]), CancelReceived(s.cancels[c].id, s.cancels[c].ip)))
  {
    NewCancelKeepsEnds(s, c, Notified);
    AppendKeepsLogs(s.(cancels := s.cancels[c := Notified]), CancelReceived(s.cancels[c].id, s.cancels[c].ip));
  }

  // Frames

  lemma PrepareLeavesUploads(s: State, sid: SessionId, step: PrepareStep)
    ensures ApplyPrepare(s, sid, step).uploads == s.uploads
  {
  }

  lemma UploadLeavesPrepares(s: State, u: nat, step: UploadStep)
    ensures ApplyUpload(s, u, step).prepares == s.prepares
  {
  }

  // Every step

  lemma OwnerHasSlot(s: State, sid: SessionId)
    requires Inv(s) && sid in s.prepares && Owns(s.prepares[sid].pc)
    ensures s.slot == PendingSession(sid, s.prepares[sid].ip)
  {
  }

  lemma KeepsGuardStep(s: State, sid: SessionId, step: PrepareStep)
    requires Inv(s)
    requires step.ObserveCancel? || step.DropPrepare? || step.DropInClear? || step.DeferredClear? || step.ClearSlot?
    ensures Inv(ApplyPrepare(s, sid, step))
  {
    hide Inv;
    if {
      case step.ObserveCancel? && PrepareAt(s, sid, Deciding) => KeepsMove(s, sid, Deferred, s.slot);
      case step.DropPrepare? && sid in s.prepares && GuardArmed(s.prepares[sid].pc) =>
        KeepsMove(s, sid, Deferred, s.slot);
      case step.DropInClear? && PrepareAt(s, sid, Clearing) => KeepsMove(s, sid, Leaked, s.slot);
      case step.DeferredClear? && PrepareAt(s, sid, Deferred) =>
        OwnerHasSlot(s, sid);
        KeepsMove(s, sid, Reporting, AfterClear(s.slot));
      case step.ClearSlot? && PrepareAt(s, sid, Clearing) =>
        OwnerHasSlot(s, sid);
        KeepsMove(s, sid, Ended, AfterClear(s.slot));
      case ApplyPrepare(s, sid, step) == s =>
    }
  }

  lemma KeepsPrepareStep(s: State, sid: SessionId, step: PrepareStep)
    requires Inv(s)
    ensures Inv(ApplyPrepare(s, sid, step))
  {
    match step {
      case ClaimSlot(ip, offered) =>
        if sid !in s.prepares && s.slot.NoSession? { KeepsClaimSlot(s, sid, ip, offered); }
      case AnnouncePrepare =>
        if PrepareAt(s, sid, Announcing) { KeepsAnnouncePrepare(s, sid); }
      case Decide(decision, tokens) =>
        if PrepareAt(s, sid, Deciding) && s.prepares[sid].offered.Keys <= tokens.Keys {
          KeepsMove(s, sid, AfterDecision(s.prepares[sid], decision, tokens), s.slot);
        }
      case Activate =>
        if sid in s.prepares && s.prepares[sid].pc.Accepting? { KeepsActivate(s, sid); }
      case ReportAborted =>
        if PrepareAt(s, sid, Reporting) { KeepsReportAborted(s, sid); }
      case _ => KeepsGuardStep(s, sid, step);
    }
  }

  lemma KeepsUploadStep(s: State, u: nat, step: UploadStep)
    requires Inv(s)
    ensures Inv(ApplyUpload(s, u, step))
  {
    hide Inv;
    match step {
      case ClaimUpload(sid, fid, token, ip) =>
        if u !in s.uploads && UploadAdmitted(s.slot, sid, fid, token, ip) {
          KeepsClaimUpload(s, u, sid, fid, token, ip);
        }
      case AnnounceUpload =>
        if UploadAt(s, u, Claimed) { KeepsAnnounceUpload(s, u); }
      case FinishUpload(result) =>
        if UploadAt(s, u, Receiving) || (UploadAt(s, u, Claimed) && result.SaveFailed?) {
          KeepsFinishUpload(s, u, result);
        }
      case DropUpload =>
        if UploadAt(s, u, Claimed) || UploadAt(s, u, Receiving) { KeepsUploadMove(s, u, Dropped); }
      case DropInFinish =>
        if u in s.uploads && s.uploads[u].pc.Finishing? { KeepsUploadMove(s, u, Lost(s.uploads[u].pc.result)); }
      case Finalize =>
        if Finalizing(s, u) { KeepsFinalize(s, u); }
      case DropInReport =>
        if UploadAt(s, u, Closing(false)) { KeepsReporterMove(s, u, Unreported); }
      case ReportFinished =>
        if ClosingAt(s, u) { KeepsReportFinished(s, u); }
    }
  }

  lemma KeepsCancelStep(s: State, c: nat, step: CancelStep)
    requires Inv(s)
    ensures Inv(ApplyCancel(s, c, step))
  {
    hide Inv;
    match step {
      case BeginCancel(ip, id) =>
        if c !in s.cancels { KeepsBeginCancel(s, c, ip, id); }
      case CancelActiveSession =>
        if c in s.cancels && s.cancels[c].CheckingActive? { KeepsCancelActive(s, c); }
      case ReportCancel =>
        if c in s.cancels && s.cancels[c].Notifying? { KeepsReportCancelled(s, c); }
        if c in s.cancels && s.cancels[c].Forwarding? { KeepsForward(s, c); }
      case DropInNotify =>
        if c in s.cancels && s.cancels[c].Notifying? { KeepsCancelMove(s, c, Unnotified, s.cancelled); }
    }
  }

  /** No step of any handler, task or application breaks the invariant. */
  lemma StepKeepsInv(s: State, step: Step)
    requires Inv(s)
    ensures Inv(Apply(s, step))
  {
    hide Inv;
    match step {
      case Prepare(sid, prepare) => KeepsPrepareStep(s, sid, prepare);
      case Upload(u, upload) => KeepsUploadStep(s, u, upload);
      case Cancel(c, cancel) => KeepsCancelStep(s, c, cancel);
      case CancelByApplication(sid) => if s.slot.IsActive(sid) { KeepsCancelByApplication(s, sid); }
    }
  }

  lemma {:induction false} RunKeepsInv(s: State, run: seq<Step>)
    requires Inv(s)
    ensures Inv(RunFrom(s, run))
    decreases |run|
  {
    if run != [] {
      RunKeepsInv(s, run[..|run| - 1]);
      StepKeepsInv(RunFrom(s, run[..|run| - 1]), run[|run| - 1]);
    }
  }

  /** The invariant holds in every reachable state. */
  lemma ReachableInv(run: seq<Step>)
    ensures Inv(After(run))
  {
    InitialInv();
    RunKeepsInv(INITIAL, run);
  }
}
