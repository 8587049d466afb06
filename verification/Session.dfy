/**
 * The single v2 upload-session slot (session.rs) and the blocks of v2.rs and
 * mod.rs that hold its mutex. Each block is a pure function of the slot; the
 * class `V2State` runs the same block in place.
 */
module Session {
  import opened Wrappers
  import opened Sums

  type SessionId = string
  type FileId = string
  type Token = string
  type PeerIp = string

  datatype FileDto = FileDto(size: nat, sha256: Option<string>)

  datatype FileStatus = Pending | InProgress | Finished | Failed

  datatype SaveResult = Success | SaveFailed | HashMismatch

  datatype SessionFile = SessionFile(dto: FileDto, token: Token, status: FileStatus, attempts: nat)

  datatype UploadSession = UploadSession(sid: SessionId, senderIp: PeerIp, files: map<FileId, SessionFile>) {
    /** Whether all files reached a final state. */
    predicate IsComplete() {
      forall fid :: fid in files ==> files[fid].status.Finished? || files[fid].status.Failed?
    }
  }

  datatype Slot =
    | NoSession
    | PendingSession(sid: SessionId, senderIp: PeerIp)
    | ActiveSession(session: UploadSession)
  {
    predicate IsActive(id: SessionId) {
      ActiveSession? && session.sid == id
    }
  }

  const MAX_UPLOAD_ATTEMPTS: nat := 3

  /** `attempts.saturating_add(1)` on a u8. */
  function SaturatingIncrement(attempts: nat): nat {
    if attempts < 255 then attempts + 1 else 255
  }

  /** The files of a session created by accepting `ids` out of the offered files. */
  function AcceptedFiles(offered: map<FileId, FileDto>, ids: set<FileId>, tokens: map<FileId, Token>)
    : (files: map<FileId, SessionFile>)
    requires offered.Keys <= tokens.Keys
    ensures files.Keys == offered.Keys * ids
    ensures forall fid :: fid in files ==> files[fid] == SessionFile(offered[fid], tokens[fid], Pending, 0)
  {
    map fid | fid in offered && fid in ids :: SessionFile(offered[fid], tokens[fid], Pending, 0)
  }

  /** Whether an upload request passes every check made under the lock. */
  predicate UploadAdmitted(slot: Slot, sid: SessionId, fid: FileId, token: Token, ip: PeerIp) {
    && slot.IsActive(sid)
    && slot.session.senderIp == ip
    && fid in slot.session.files
    && slot.session.files[fid].token == token
    && slot.session.files[fid].status.Pending?
  }

  function WithFile(slot: Slot, fid: FileId, file: SessionFile): Slot
    requires slot.ActiveSession?
  {
    ActiveSession(slot.session.(files := slot.session.files[fid := file]))
  }

  /** The slot after an admitted upload request marked its file as in progress. */
  function AfterClaim(slot: Slot, fid: FileId): Slot
    requires slot.ActiveSession? && fid in slot.session.files
  {
    var file := slot.session.files[fid];
    WithFile(slot, fid, file.(status := InProgress, attempts := SaturatingIncrement(file.attempts)))
  }

  /** The sender may send the file. */
  predicate CanBeClaimed(slot: Slot, sid: SessionId, fid: FileId) {
    slot.IsActive(sid) && fid in slot.session.files && slot.session.files[fid].status.Pending?
  }

  /** The status an in-progress file gets from the outcome of its attempt. */
  function FinalStatus(file: SessionFile, result: SaveResult): FileStatus {
    match result
    case Success => Finished
    case HashMismatch => if file.attempts < MAX_UPLOAD_ATTEMPTS then Pending else Failed
    case SaveFailed => Failed
  }

  /** The slot with the outcome of one attempt recorded, before the completeness test. */
  function Settled(slot: Slot, fid: FileId, result: SaveResult): Slot
    requires slot.ActiveSession?
  {
    if fid in slot.session.files && slot.session.files[fid].status.InProgress? then
      var file := slot.session.files[fid];
      WithFile(slot, fid, file.(status := FinalStatus(file, result)))
    else slot
  }

  predicate EndsSession(slot: Slot, sid: SessionId, fid: FileId, result: SaveResult) {
    slot.IsActive(sid) && Settled(slot, fid, result).session.IsComplete()
  }

  function AfterFinalize(slot: Slot, sid: SessionId, fid: FileId, result: SaveResult): Slot {
    if !slot.IsActive(sid) then slot
    else if EndsSession(slot, sid, fid, result) then NoSession
    else Settled(slot, fid, result)
  }

  function AfterClear(slot: Slot): Slot {
    if slot.PendingSession? then NoSession else slot
  }

  predicate CancelsPending(slot: Slot, ip: PeerIp, id: Option<SessionId>) {
    slot.PendingSession? && slot.senderIp == ip && (id.Some? ==> id.value == slot.sid)
  }

  predicate CancelsActive(slot: Slot, ip: PeerIp, id: SessionId) {
    slot.IsActive(id) && slot.session.senderIp == ip
  }

  /** How many more claims and outcomes a file can still take. */
  function Weight(file: SessionFile): nat {
    match file.status
    case Pending => if file.attempts < 3 then 2 * (3 - file.attempts) else 0
    case InProgress => if file.attempts < 3 then 2 * (3 - file.attempts) + 1 else 1
    case Finished => 0
    case Failed => 0
  }

  ghost function RemainingWork(session: UploadSession): nat {
    Sum(map fid | fid in session.files :: Weight(session.files[fid]))
  }

  lemma WorkAfterUpdate(session: UploadSession, fid: FileId, file: SessionFile)
    requires fid in session.files
    ensures RemainingWork(session.(files := session.files[fid := file])) + Weight(session.files[fid])
         == RemainingWork(session) + Weight(file)
  {
    var before: map<FileId, nat> := map f | f in session.files :: Weight(session.files[f]);
    var files := session.files[fid := file];
    var after: map<FileId, nat> := map f | f in files :: Weight(files[f]);
    assert after == before[fid := Weight(file)];
    SumUpdate(before, fid, Weight(file));
  }

  /** Below the attempt limit, every admitted claim uses up one unit of work. */
  lemma ClaimDecreasesWork(slot: Slot, sid: SessionId, fid: FileId, token: Token, ip: PeerIp)
    requires UploadAdmitted(slot, sid, fid, token, ip)
    requires slot.session.files[fid].attempts < MAX_UPLOAD_ATTEMPTS
    ensures RemainingWork(AfterClaim(slot, fid).session) == RemainingWork(slot.session) - 1
  {
    var file := slot.session.files[fid];
    WorkAfterUpdate(slot.session, fid, file.(status := InProgress, attempts := SaturatingIncrement(file.attempts)));
  }

  /** Every outcome recorded on a file in progress uses up work as well. */
  lemma FinalizeDecreasesWork(slot: Slot, fid: FileId, result: SaveResult)
    requires slot.ActiveSession? && fid in slot.session.files
    requires slot.session.files[fid].status.InProgress?
    ensures RemainingWork(Settled(slot, fid, result).session) < RemainingWork(slot.session)
  {
    var file := slot.session.files[fid];
    WorkAfterUpdate(slot.session, fid, file.(status := FinalStatus(file, result)));
  }

  /** The state behind the mutex, updated in place by the blocks that hold it. */
  class V2State {
    var slot: Slot

    /** The sessions whose cancellation token fired. */
    var cancelled: set<SessionId>

    constructor ()
      ensures slot == NoSession && cancelled == {}
    {
      slot := NoSession;
      cancelled := {};
    }

    /** First block of prepare_upload: claims the slot only when it is free. */
    method ClaimSlot(sid: SessionId, ip: PeerIp) returns (claimed: bool)
      modifies this`slot
      ensures claimed <==> old(slot) == NoSession
      ensures slot == if claimed then PendingSession(sid, ip) else old(slot)
    {
      if slot != NoSession {
        return false;
      }
      slot := PendingSession(sid, ip);
      return true;
    }

    /** Last block of prepare_upload: overwrites whatever the slot holds. */
    method Activate(session: UploadSession)
      modifies this`slot
      ensures slot == ActiveSession(session)
    {
      slot := ActiveSession(session);
    }

    /** clear_pending_session: frees any pending slot, without looking at its id. */
    method ClearPendingSession()
      modifies this`slot
      ensures slot == AfterClear(old(slot))
      ensures slot == if old(slot).PendingSession? then NoSession else old(slot)
    {
      match slot {
        case PendingSession(_, _) => slot := NoSession;
        case _ =>
      }
    }

    /** First block of upload. */
    method ClaimUpload(sid: SessionId, fid: FileId, token: Token, ip: PeerIp) returns (dto: Option<FileDto>)
      modifies this`slot
      ensures dto.Some? <==>
        && old(slot).ActiveSession? && old(slot).session.sid == sid && old(slot).session.senderIp == ip
        && fid in old(slot).session.files && old(slot).session.files[fid].token == token
        && old(slot).session.files[fid].status == Pending
      ensures dto.Some? ==>
        var session := old(slot).session;
        var file := session.files[fid];
        && dto.value == file.dto
        && slot == ActiveSession(session.(files := session.files[fid := file.(
             status := InProgress, attempts := if file.attempts < 255 then file.attempts + 1 else 255)]))
      ensures dto.Some? <==> UploadAdmitted(old(slot), sid, fid, token, ip)
      ensures dto.Some? ==> slot == AfterClaim(old(slot), fid)
      ensures dto.None? ==> slot == old(slot)
    {
      if !slot.ActiveSession? {
        return None;
      }
      var session := slot.session;
      if session.sid != sid || session.senderIp != ip {
        return None;
      }
      if fid !in session.files {
        return None;
      }
      var file := session.files[fid];
      if file.token != token || file.status != Pending {
        return None;
      }
      file := file.(status := InProgress);
      file := file.(attempts := SaturatingIncrement(file.attempts));
      slot := ActiveSession(session.(files := session.files[fid := file]));
      return Some(file.dto);
    }

    /** finalize_file: records an outcome and frees the slot once all files are done. */
    method FinalizeFile(sid: SessionId, fid: FileId, result: SaveResult) returns (ended: bool)
      modifies this`slot
      ensures slot == AfterFinalize(old(slot), sid, fid, result)
      ensures ended <==> EndsSession(old(slot), sid, fid, result)
      ensures !old(slot).IsActive(sid) ==> slot == old(slot) && !ended
      ensures old(slot).IsActive(sid) ==>
        var session := old(slot).session;
        var files := if fid in session.files && session.files[fid].status == InProgress
                     then session.files[fid := session.files[fid].(status :=
                       if result == Success then Finished
                       else if result == HashMismatch && session.files[fid].attempts < 3 then Pending
                       else Failed)]
                     else session.files;
        && (ended <==> forall f :: f in files ==> files[f].status == Finished || files[f].status == Failed)
        && slot == if ended then NoSession else ActiveSession(session.(files := files))
    {
      if !slot.ActiveSession? {
        return false;
      }
      var session := slot.session;
      if session.sid != sid {
        return false;
      }
      if fid in session.files {
        var file := session.files[fid];
        if file.status == InProgress {
          match result {
            case Success => file := file.(status := Finished);
            case HashMismatch =>
              if file.attempts < MAX_UPLOAD_ATTEMPTS {
                file := file.(status := Pending);
              } else {
                file := file.(status := Failed);
              }
            case SaveFailed => file := file.(status := Failed);
          }
          session := session.(files := session.files[fid := file]);
        }
      }
      slot := ActiveSession(session);
      if session.IsComplete() {
        slot := NoSession;
        return true;
      }
      return false;
    }

    /** First block of cancel: fires the token of a matching pending request. */
    method CancelPending(ip: PeerIp, id: Option<SessionId>) returns (matched: bool)
      modifies this`cancelled
      ensures matched <==>
        slot.PendingSession? && slot.senderIp == ip && (id == None || id == Some(slot.sid))
      ensures matched <==> CancelsPending(slot, ip, id)
      ensures cancelled == if matched then old(cancelled) + {slot.sid} else old(cancelled)
    {
      if slot.PendingSession? && slot.senderIp == ip && (id.None? || id.value == slot.sid) {
        cancelled := cancelled + {slot.sid};
        return true;
      }
      return false;
    }

    /** Second block of cancel: only the sender of the active session ends it. */
    method CancelActive(ip: PeerIp, id: SessionId) returns (ended: bool)
      modifies this`slot
      ensures ended <==>
        old(slot).ActiveSession? && old(slot).session.sid == id && old(slot).session.senderIp == ip
      ensures ended <==> CancelsActive(old(slot), ip, id)
      ensures slot == if ended then NoSession else old(slot)
    {
      if slot.ActiveSession? && slot.session.sid == id && slot.session.senderIp == ip {
        slot := NoSession;
        return true;
      }
      return false;
    }

    /** ServerHandle::cancel_v2_session. */
    method CancelV2Session(id: SessionId) returns (ended: bool)
      modifies this`slot
      ensures ended <==> old(slot).IsActive(id)
      ensures slot == if ended then NoSession else old(slot)
    {
      if slot.ActiveSession? && slot.session.sid == id {
        slot := NoSession;
        return true;
      }
      return false;
    }
  }
}
