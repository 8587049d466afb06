/**
 * The bookkeeping of a receive session in the command-line application
 * (receive.rs). Server events and per-file results reach it on two channels.
 */
module ReceiveTracker {
  import opened Wrappers
  import opened Sums
  import opened Session
  import opened UploadProtocol

  /**
   * `inProgress` maps a file to the upload request whose progress cell it
   * shows; the cells themselves live in `progress` maps keyed by request.
   */
  datatype Receive = Receive(
    sid: SessionId,
    files: map<FileId, nat>,
    finishedFiles: nat,
    failedFiles: nat,
    finalizedBytes: nat,
    inProgress: map<FileId, nat>,
    ended: Option<EndReason>)

  function Sizes(offered: map<FileId, FileDto>): map<FileId, nat> {
    map fid | fid in offered :: offered[fid].size
  }

  function NewReceive(sid: SessionId, offered: map<FileId, FileDto>): Receive {
    Receive(sid, Sizes(offered), 0, 0, 0, map[], None)
  }

  predicate Tracks(receive: Option<Receive>, sid: SessionId) {
    receive.Some? && receive.value.sid == sid
  }

  /** finish_receive_if_done: the session is dropped once it ended and nothing is in flight. */
  function FinishIfDone(receive: Option<Receive>): Option<Receive> {
    if receive.Some? && receive.value.ended.Some? && receive.value.inProgress == map[] then None else receive
  }

  /** handle_file_upload: shows the upload; an upload of another session gets no target. */
  function OnFileUpload(receive: Option<Receive>, sid: SessionId, fid: FileId, u: nat): Option<Receive> {
    if Tracks(receive, sid) then
      Some(receive.value.(inProgress := receive.value.inProgress[fid := u]))
    else receive
  }

  function SizeOf(files: map<FileId, nat>, fid: FileId): nat {
    if fid in files then files[fid] else 0
  }

  function CountResult(r: Receive, fid: FileId, ok: bool): Receive {
    var rest := r.(inProgress := r.inProgress - {fid});
    if ok then rest.(finishedFiles := r.finishedFiles + 1, finalizedBytes := r.finalizedBytes + SizeOf(r.files, fid))
    else rest.(failedFiles := r.failedFiles + 1)
  }

  /** receive_file_result: a result of another session is ignored. */
  function OnResult(receive: Option<Receive>, sid: SessionId, fid: FileId, ok: bool): Option<Receive> {
    if Tracks(receive, sid) then FinishIfDone(Some(CountResult(receive.value, fid, ok))) else receive
  }

  function OnSessionEnd(receive: Option<Receive>, sid: SessionId, reason: EndReason): Option<Receive> {
    if Tracks(receive, sid) then FinishIfDone(Some(receive.value.(ended := Some(reason)))) else receive
  }

  /** The progress shown per file; a request without a cell shows nothing. */
  function ShownProgress(r: Receive, progress: map<nat, nat>): map<FileId, nat> {
    map fid | fid in r.inProgress :: if r.inProgress[fid] in progress then progress[r.inProgress[fid]] else 0
  }

  ghost function DoneBytes(r: Receive, progress: map<nat, nat>): nat {
    r.finalizedBytes + Sum(ShownProgress(r, progress))
  }

  ghost function TotalBytes(r: Receive): nat {
    Sum(r.files)
  }

  /** The application state these events update in place. */
  class Tracker {
    var receive: Option<Receive>

    constructor ()
      ensures receive == None
    {
      receive := None;
    }

    method HandleFileUpload(sid: SessionId, fid: FileId, u: nat) returns (targetGiven: bool)
      modifies this
      ensures receive == OnFileUpload(old(receive), sid, fid, u)
      ensures targetGiven <==> old(receive).Some? && old(receive).value.sid == sid
      ensures targetGiven ==>
        && receive.Some? && fid in receive.value.inProgress
        && receive.value == old(receive).value.(inProgress := receive.value.inProgress)
        && receive.value.inProgress == old(receive).value.inProgress[fid := u]
      ensures !targetGiven ==> receive == old(receive)
    {
      if receive.None? || receive.value.sid != sid {
        return false;
      }
      receive := Some(receive.value.(inProgress := receive.value.inProgress[fid := u]));
      return true;
    }

    method ReceiveFileResult(sid: SessionId, fid: FileId, ok: bool)
      modifies this
      ensures receive == OnResult(old(receive), sid, fid, ok)
      ensures old(receive).None? || old(receive).value.sid != sid ==> receive == old(receive)
      ensures old(receive).Some? && old(receive).value.sid == sid ==>
        var r := old(receive).value;
        var rest := r.inProgress - {fid};
        && (receive.None? <==> r.ended.Some? && rest == map[])
        && (receive.Some? ==>
              && receive.value.sid == sid && receive.value.files == r.files && receive.value.ended == r.ended
              && receive.value.inProgress == rest
              && receive.value.finishedFiles == r.finishedFiles + (if ok then 1 else 0)
              && receive.value.failedFiles == r.failedFiles + (if ok then 0 else 1)
              && receive.value.finalizedBytes
                 == r.finalizedBytes + (if ok && fid in r.files then r.files[fid] else 0))
    {
      if receive.None? || receive.value.sid != sid {
        return;
      }
      var session := receive.value;
      session := session.(inProgress := session.inProgress - {fid});
      if ok {
        session := session.(finishedFiles := session.finishedFiles + 1);
        if fid in session.files {
          session := session.(finalizedBytes := session.finalizedBytes + session.files[fid]);
        }
      } else {
        session := session.(failedFiles := session.failedFiles + 1);
      }
      receive := Some(session);
      FinishReceiveIfDone();
    }

    method HandleSessionEnd(sid: SessionId, reason: EndReason)
      modifies this
      ensures receive == OnSessionEnd(old(receive), sid, reason)
      ensures old(receive).None? || old(receive).value.sid != sid ==> receive == old(receive)
      ensures old(receive).Some? && old(receive).value.sid == sid ==>
        receive == if old(receive).value.inProgress == map[] then None
                   else Some(old(receive).value.(ended := Some(reason)))
    {
      if receive.None? || receive.value.sid != sid {
        return;
      }
      receive := Some(receive.value.(ended := Some(reason)));
      FinishReceiveIfDone();
    }

    method FinishReceiveIfDone()
      modifies this
      ensures receive == FinishIfDone(old(receive))
    {
      var done := receive.Some? && receive.value.ended.Some? && receive.value.inProgress == map[];
      if !done {
        return;
      }
      receive := None;
    }
  }
}
