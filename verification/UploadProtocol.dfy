/**
 * The v2 upload protocol as a state machine. One step is one block that holds
 * the session mutex, one event sent to the application, or one request future
 * dropped at an await. Every sequence of steps is a run: a step that is not
 * possible in a state leaves it unchanged.
 */
module UploadProtocol {
  import opened Wrappers
  import opened Session

  datatype EndReason = AllFilesDone | CancelledBySender

  datatype Event =
    | PrepareUpload(sid: SessionId, offered: map<FileId, FileDto>)
    | FileUpload(sid: SessionId, fid: FileId, request: nat)
    | SessionEnd(sid: SessionId, reason: EndReason)
    | PrepareUploadAborted(sid: SessionId)
    | CancelReceived(sid: SessionId, ip: PeerIp)

  datatype Decision = Accept(ids: set<FileId>) | Decline

  /** Where a prepare-upload handler, or the clean-up task of its guard, stands. */
  datatype PreparePc =
    | Announcing                                   // slot claimed, guard armed
    | Deciding                                     // waiting for the application
    | Accepting(files: map<FileId, SessionFile>)   // waiting for the lock, guard armed
    | Clearing                                     // inside guard.clear(), guard disarmed
    | Deferred                                     // handler dropped, clean-up task waiting for the lock
    | Reporting                                    // clean-up done, PrepareUploadAborted not sent yet
    | Leaked                                       // dropped inside guard.clear()
    | Ended

  datatype PrepareHandler = PrepareHandler(ip: PeerIp, offered: map<FileId, FileDto>, pc: PreparePc)

  /** Where an upload handler, or the clean-up task of its guard, stands. */
  datatype UploadPc =
    | Claimed                        // file marked in progress, guard armed
    | Receiving                      // FileUpload sent, waiting for target and body
    | Finishing(result: SaveResult)  // inside guard.finish(), guard disarmed
    | Dropped                        // handler dropped, clean-up task waiting for the lock
    | Closing(deferred: bool)        // ended the session, in a request or a clean-up task, SessionEnd not sent yet
    | Unreported                     // request dropped while sending SessionEnd
    | Lost(lost: SaveResult)         // dropped inside guard.finish()
    | Done

  datatype UploadHandler = UploadHandler(sid: SessionId, fid: FileId, dto: FileDto, pc: UploadPc)

  /** Where a cancel handler stands between its two lock-held blocks and its event. */
  datatype CancelPc =
    | CheckingActive(ip: PeerIp, id: SessionId)
    | Notifying(id: SessionId)
    | Unnotified                     // dropped while sending SessionEnd
    | Forwarding(ip: PeerIp, id: SessionId)
    | Notified

  datatype EndMark = ByUpload(request: nat) | ByCancel(handler: nat) | ByApplication

  /**
   * `slot` and `cancelled` are the shared state, `events` is the channel to the
   * application in send order. The last four fields are history: the file set
   * of every session that became active, the latest request admitted for a
   * file, what took a session out of the slot, and which request saved a file.
   */
  datatype State = State(
    slot: Slot,
    cancelled: set<SessionId>,
    prepares: map<SessionId, PrepareHandler>,
    uploads: map<nat, UploadHandler>,
    cancels: map<nat, CancelPc>,
    events: seq<Event>,
    accepted: map<SessionId, set<FileId>>,
    owner: map<(SessionId, FileId), nat>,
    ends: map<SessionId, EndMark>,
    succeeded: map<(SessionId, FileId), nat>)

  const INITIAL: State := State(NoSession, {}, map[], map[], map[], [], map[], map[], map[], map[])

  /** Steps of prepare-upload handlers and of the clean-up tasks of their guards. */
  datatype PrepareStep =
    | ClaimSlot(ip: PeerIp, offered: map<FileId, FileDto>)
    | AnnouncePrepare
    | Decide(decision: Decision, tokens: map<FileId, Token>)
    | Activate
    | ClearSlot
    | ObserveCancel
    | DropPrepare
    | DropInClear
    | DeferredClear
    | ReportAborted

  /** Steps of upload handlers and of the clean-up tasks of their guards. */
  datatype UploadStep =
    | ClaimUpload(sid: SessionId, fid: FileId, token: Token, ip: PeerIp)
    | AnnounceUpload
    | FinishUpload(result: SaveResult)
    | DropUpload
    | DropInFinish
    | DropInReport
    | Finalize
    | ReportFinished

  /** Steps of cancel handlers. */
  datatype CancelStep =
    | BeginCancel(ip: PeerIp, id: Option<SessionId>)
    | CancelActiveSession
    | ReportCancel
    | DropInNotify

  datatype Step =
    | Prepare(sid: SessionId, prepare: PrepareStep)
    | Upload(u: nat, upload: UploadStep)
    | Cancel(c: nat, cancel: CancelStep)
    | CancelByApplication(id: SessionId)

  function WithPrepare(s: State, sid: SessionId, pc: PreparePc): State
    requires sid in s.prepares
  {
    s.(prepares := s.prepares[sid := s.prepares[sid].(pc := pc)])
  }

  function WithUpload(s: State, u: nat, pc: UploadPc): State
    requires u in s.uploads
  {
    s.(uploads := s.uploads[u := s.uploads[u].(pc := pc)])
  }

  /** The guard of a prepare-upload request is armed from the claim until clear() or disarm(). */
  predicate GuardArmed(pc: PreparePc) {
    pc.Announcing? || pc.Deciding? || pc.Accepting?
  }

  /** What the handler does with the application's decision (v2.rs:292-329). */
  function AfterDecision(handler: PrepareHandler, decision: Decision, tokens: map<FileId, Token>): PreparePc
    requires handler.offered.Keys <= tokens.Keys
  {
    match decision
    case Decline => Clearing
    case Accept(ids) =>
      var files := AcceptedFiles(handler.offered, ids, tokens);
      if files == map[] then Clearing else Accepting(files)
  }

  predicate PrepareAt(s: State, sid: SessionId, pc: PreparePc) {
    sid in s.prepares && s.prepares[sid].pc == pc
  }

  predicate UploadAt(s: State, u: nat, pc: UploadPc) {
    u in s.uploads && s.uploads[u].pc == pc
  }

  predicate ClosingAt(s: State, u: nat) {
    u in s.uploads && s.uploads[u].pc.Closing?
  }

  /** The outcome a finishing handler or a clean-up task is about to record. */
  predicate Finalizing(s: State, u: nat) {
    u in s.uploads && (s.uploads[u].pc.Finishing? || s.uploads[u].pc.Dropped?)
  }

  function PendingOutcome(pc: UploadPc): SaveResult {
    if pc.Finishing? then pc.result else SaveFailed
  }

  function DoClaimSlot(s: State, sid: SessionId, ip: PeerIp, offered: map<FileId, FileDto>): State {
    s.(slot := PendingSession(sid, ip),
       prepares := s.prepares[sid := PrepareHandler(ip, offered, Announcing)])
  }

  function DoActivate(s: State, sid: SessionId): State
    requires sid in s.prepares && s.prepares[sid].pc.Accepting?
  {
    var handler := s.prepares[sid];
    WithPrepare(s, sid, Ended).(
      slot := ActiveSession(UploadSession(sid, handler.ip, handler.pc.files)),
      accepted := s.accepted[sid := handler.pc.files.Keys])
  }

  function DoClaimUpload(s: State, u: nat, sid: SessionId, fid: FileId): State
    requires s.slot.ActiveSession? && fid in s.slot.session.files
  {
    s.(slot := AfterClaim(s.slot, fid),
       uploads := s.uploads[u := UploadHandler(sid, fid, s.slot.session.files[fid].dto, Claimed)],
       owner := s.owner[(sid, fid) := u])
  }

  function DoFinishUpload(s: State, u: nat, result: SaveResult): State
    requires u in s.uploads
  {
    var handler := s.uploads[u];
    WithUpload(s, u, Finishing(result)).(
      succeeded := if result.Success? then s.succeeded[(handler.sid, handler.fid) := u] else s.succeeded)
  }

  function DoFinalize(s: State, u: nat): State
    requires Finalizing(s, u)
  {
    var handler := s.uploads[u];
    var outcome := PendingOutcome(handler.pc);
    var ended := EndsSession(s.slot, handler.sid, handler.fid, outcome);
    WithUpload(s, u, if ended then Closing(handler.pc.Dropped?) else Done).(
      slot := AfterFinalize(s.slot, handler.sid, handler.fid, outcome),
      ends := if ended then s.ends[handler.sid := ByUpload(u)] else s.ends)
  }

  function DoBeginCancel(s: State, c: nat, ip: PeerIp, id: Option<SessionId>): State {
    var matched := CancelsPending(s.slot, ip, id);
    s.(cancelled := if matched then s.cancelled + {s.slot.sid} else s.cancelled,
       cancels := s.cancels[c := if !matched && id.Some? then CheckingActive(ip, id.value) else Notified])
  }

  function DoCancelActive(s: State, c: nat): State
    requires c in s.cancels && s.cancels[c].CheckingActive?
  {
    var pc := s.cancels[c];
    var ended := CancelsActive(s.slot, pc.ip, pc.id);
    s.(slot := if ended then NoSession else s.slot,
       cancels := s.cancels[c := if ended then Notifying(pc.id) else Forwarding(pc.ip, pc.id)],
       ends := if ended then s.ends[pc.id := ByCancel(c)] else s.ends)
  }

  function Send(s: State, event: Event): State {
    s.(events := s.events + [event])
  }

  function ApplyPrepare(s: State, sid: SessionId, step: PrepareStep): State {
    match step
    case ClaimSlot(ip, offered) =>
      if sid !in s.prepares && offered != map[] && s.slot.NoSession? then DoClaimSlot(s, sid, ip, offered) else s
    case AnnouncePrepare =>
      if PrepareAt(s, sid, Announcing)
      then Send(WithPrepare(s, sid, Deciding), PrepareUpload(sid, s.prepares[sid].offered)) else s
    case Decide(decision, tokens) =>
      if PrepareAt(s, sid, Deciding) && s.prepares[sid].offered.Keys <= tokens.Keys
      then WithPrepare(s, sid, AfterDecision(s.prepares[sid], decision, tokens)) else s
    case Activate =>
      if sid in s.prepares && s.prepares[sid].pc.Accepting? then DoActivate(s, sid) else s
    case ClearSlot =>
      if PrepareAt(s, sid, Clearing) then WithPrepare(s, sid, Ended).(slot := AfterClear(s.slot)) else s
    case ObserveCancel =>
      if PrepareAt(s, sid, Deciding) && sid in s.cancelled then WithPrepare(s, sid, Deferred) else s
    case DropPrepare =>
      if sid in s.prepares && GuardArmed(s.prepares[sid].pc) then WithPrepare(s, sid, Deferred) else s
    case DropInClear =>
      if PrepareAt(s, sid, Clearing) then WithPrepare(s, sid, Leaked) else s
    case DeferredClear =>
      if PrepareAt(s, sid, Deferred) then WithPrepare(s, sid, Reporting).(slot := AfterClear(s.slot)) else s
    case ReportAborted =>
      if PrepareAt(s, sid, Reporting) then Send(WithPrepare(s, sid, Ended), PrepareUploadAborted(sid)) else s
  }

  function ApplyUpload(s: State, u: nat, step: UploadStep): State {
    match step
    case ClaimUpload(sid, fid, token, ip) =>
      if u !in s.uploads && UploadAdmitted(s.slot, sid, fid, token, ip) then DoClaimUpload(s, u, sid, fid) else s
    case AnnounceUpload =>
      if UploadAt(s, u, Claimed)
      then Send(WithUpload(s, u, Receiving), FileUpload(s.uploads[u].sid, s.uploads[u].fid, u)) else s
    case FinishUpload(result) =>
      // A handler that could not announce its upload can only finish as failed.
      if UploadAt(s, u, Receiving) || (UploadAt(s, u, Claimed) && result.SaveFailed?)
      then DoFinishUpload(s, u, result) else s
    case DropUpload =>
      if UploadAt(s, u, Claimed) || UploadAt(s, u, Receiving) then WithUpload(s, u, Dropped) else s
    case DropInFinish =>
      if u in s.uploads && s.uploads[u].pc.Finishing? then WithUpload(s, u, Lost(s.uploads[u].pc.result)) else s
    case Finalize =>
      if Finalizing(s, u) then DoFinalize(s, u) else s
    case DropInReport =>
      // Nobody drops a clean-up task.
      if UploadAt(s, u, Closing(false)) then WithUpload(s, u, Unreported) else s
    case ReportFinished =>
      if ClosingAt(s, u)
      then Send(WithUpload(s, u, Done), SessionEnd(s.uploads[u].sid, AllFilesDone)) else s
  }

  function ApplyCancel(s: State, c: nat, step: CancelStep): State {
    match step
    case BeginCancel(ip, id) =>
      if c !in s.cancels then DoBeginCancel(s, c, ip, id) else s
    case CancelActiveSession =>
      if c in s.cancels && s.cancels[c].CheckingActive? then DoCancelActive(s, c) else s
    case ReportCancel =>
      if c in s.cancels && s.cancels[c].Notifying? then
        Send(s.(cancels := s.cancels[c := Notified]), SessionEnd(s.cancels[c].id, CancelledBySender))
      else if c in s.cancels && s.cancels[c].Forwarding? then
        Send(s.(cancels := s.cancels[c := Notified]), CancelReceived(s.cancels[c].id, s.cancels[c].ip))
      else s
    case DropInNotify =>
      if c in s.cancels && s.cancels[c].Notifying? then s.(cancels := s.cancels[c := Unnotified]) else s
  }

  function Apply(s: State, step: Step): State {
    match step
    case Prepare(sid, prepare) => ApplyPrepare(s, sid, prepare)
    case Upload(u, upload) => ApplyUpload(s, u, upload)
    case Cancel(c, cancel) => ApplyCancel(s, c, cancel)
    case CancelByApplication(sid) =>
      if s.slot.IsActive(sid) then s.(slot := NoSession, ends := s.ends[sid := ByApplication]) else s
  }

  /** The state after running `run` from `s`. */
  function RunFrom(s: State, run: seq<Step>): State
    decreases |run|
  {
    if run == [] then s else Apply(RunFrom(s, run[..|run| - 1]), run[|run| - 1])
  }

  function After(run: seq<Step>): State {
    RunFrom(INITIAL, run)
  }
}
