/** Which upload sessions can still finish, and runs that reach the two states nothing recovers from. */
module UploadProgress {
  import opened Session
  import opened UploadProtocol
  import opened UploadInvariants
  import opened UploadTheorems

  lemma {:induction false} RunConcat(s: State, a: seq<Step>, b: seq<Step>)
    ensures RunFrom(s, a + b) == RunFrom(RunFrom(s, a), b)
    decreases |b|
  {
    hide Apply;
    if b == [] {
      assert a + b == a;
    } else {
      RunConcat(s, a, b[..|b| - 1]);
      assert (a + b)[..|a + b| - 1] == a + b[..|b| - 1];
    }
  }

  lemma {:induction false} RunOne(s: State, step: Step)
    ensures RunFrom(s, [step]) == Apply(s, step)
  {
    assert [step][..0] == [];
  }

  lemma {:induction false} RunFirst(s: State, step: Step, rest: seq<Step>)
    ensures RunFrom(s, [step] + rest) == RunFrom(Apply(s, step), rest)
  {
    hide Apply, RunFrom;
    RunConcat(s, [step], rest);
    RunOne(s, step);
  }

  // Sessions that can finish

  /** No request of the session was dropped inside finish(). */
  predicate NoneLost(uploads: Uploads, sid: SessionId) {
    forall u :: u in uploads && uploads[u].sid == sid ==> !uploads[u].pc.Lost?
  }

  /** The application is told that all files of the session are done. */
  predicate ReportsDone(s: State, sid: SessionId) {
    SessionEnd(sid, AllFilesDone) in s.events
  }

  lemma {:induction false} FreshRequest(uploads: Uploads) returns (u: nat)
    ensures u !in uploads
  {
    u := LargerThan(uploads.Keys);
  }

  lemma {:induction false} LargerThan(requests: set<nat>) returns (u: nat)
    ensures forall v :: v in requests ==> v < u
    decreases |requests|
  {
    if requests == {} {
      u := 0;
    } else {
      var v :| v in requests;
      var rest := LargerThan(requests - {v});
      u := if v < rest then rest else v + 1;
      assert forall w :: w in requests ==> w == v || w in requests - {v};
    }
  }

  lemma MoveKeepsNoneLost(s: State, u: nat, pc: UploadPc, sid: SessionId)
    requires NoneLost(s.uploads, sid) && u in s.uploads && !pc.Lost?
    ensures NoneLost(WithUpload(s, u, pc).uploads, sid)
  {
  }

  lemma OutcomeUsesUpWork(slot: Slot, sid: SessionId, fid: FileId, outcome: SaveResult)
    requires slot.IsActive(sid) && fid in slot.session.files && slot.session.files[fid].status.InProgress?
    ensures var after := AfterFinalize(slot, sid, fid, outcome);
      && (after.IsActive(sid) <==> !EndsSession(slot, sid, fid, outcome))
      && (after.IsActive(sid) ==> RemainingWork(after.session) < RemainingWork(slot.session))
  {
    hide RemainingWork;
    FinalizeDecreasesWork(slot, fid, outcome);
  }

  lemma OutcomeHasFile(s: State, u: nat)
    requires Inv(s) && Finalizing(s, u) && s.slot.IsActive(s.uploads[u].sid)
    ensures s.uploads[u].fid in s.slot.session.files
    ensures s.slot.session.files[s.uploads[u].fid].status.InProgress?
  {
    OwnersPart(s);
    ActivePart(s);
    hide Inv, UploadsSound, ProgressOwned, ActiveSound;
    FinalizerOwnsFile(s, u);
  }

  lemma ActivePart(s: State)
    requires Inv(s)
    ensures ActiveSound(s.slot, s.accepted, s.ends)
  {
    hide ActiveSound;
  }

  /** What one more outcome does to a session: it ends, or it goes on with less work. */
  lemma FinalizeAdvances(s: State, u: nat)
    requires Inv(s) && Finalizing(s, u) && s.slot.IsActive(s.uploads[u].sid) && NoneLost(s.uploads, s.uploads[u].sid)
    ensures var sid, t := s.uploads[u].sid, DoFinalize(s, u);
      && Apply(s, Upload(u, Finalize)) == t
      && t.uploads[u].sid == sid
      && if t.slot.IsActive(sid)
         then NoneLost(t.uploads, sid) && RemainingWork(t.slot.session) < RemainingWork(s.slot.session)
         else ClosingAt(t, u)
  {
    hide Inv, RemainingWork, NoneLost, AfterFinalize, EndsSession;
    OutcomeHasFile(s, u);
    var handler := s.uploads[u];
    OutcomeUsesUpWork(s.slot, handler.sid, handler.fid, PendingOutcome(handler.pc));
    MoveKeepsNoneLost(s, u, Done, handler.sid);
  }

  lemma ClaimKeepsNoneLost(s: State, u: nat, sid: SessionId, fid: FileId)
    requires s.slot.ActiveSession? && fid in s.slot.session.files && NoneLost(s.uploads, sid)
    ensures NoneLost(DoClaimUpload(s, u, sid, fid).uploads, sid)
  {
  }

  lemma PendingInBounds(s: State, fid: FileId)
    requires Inv(s) && s.slot.ActiveSession? && fid in s.slot.session.files && s.slot.session.files[fid].status.Pending?
    ensures s.slot.session.files[fid].attempts < MAX_UPLOAD_ATTEMPTS
  {
    assert FileInBounds(s.slot.session.files[fid]);
  }

  lemma ClaimAdvances(s: State, u: nat, fid: FileId)
    requires Inv(s) && s.slot.ActiveSession? && u !in s.uploads && NoneLost(s.uploads, s.slot.session.sid)
    requires fid in s.slot.session.files && s.slot.session.files[fid].status.Pending?
    ensures var session := s.slot.session;
      var t := Apply(s, Upload(u, ClaimUpload(session.sid, fid, session.files[fid].token, session.senderIp)));
      && t.slot.IsActive(session.sid) && NoneLost(t.uploads, session.sid)
      && RemainingWork(t.slot.session) < RemainingWork(session)
  {
    hide Inv, RemainingWork, NoneLost;
    var session := s.slot.session;
    PendingInBounds(s, fid);
    ClaimDecreasesWork(s.slot, session.sid, fid, session.files[fid].token, session.senderIp);
    ClaimKeepsNoneLost(s, u, session.sid, fid);
  }

  lemma DropAdvances(s: State, u: nat)
    requires u in s.uploads && StillReceiving(s.uploads[u].pc) && NoneLost(s.uploads, s.uploads[u].sid)
    ensures var sid, t := s.uploads[u].sid, Apply(s, Upload(u, DropUpload));
      t.slot == s.slot && UploadAt(t, u, Dropped) && t.uploads[u].sid == sid && NoneLost(t.uploads, sid)
  {
    hide NoneLost;
    MoveKeepsNoneLost(s, u, Dropped, s.uploads[u].sid);
  }

  /** Without an outstanding request an active session has a file to claim. */
  lemma FileToClaim(s: State) returns (fid: FileId)
    requires Inv(s) && s.slot.ActiveSession?
    requires forall u :: u in s.uploads && s.uploads[u].sid == s.slot.session.sid ==> !Outstanding(s.uploads[u].pc)
    ensures fid in s.slot.session.files && s.slot.session.files[fid].status.Pending?
  {
    var files := s.slot.session.files;
    fid :| fid in files && !files[fid].status.Finished? && !files[fid].status.Failed?;
  }

  lemma ReportedBy(s: State, u: nat)
    requires ClosingAt(s, u)
    ensures ReportsDone(Apply(s, Upload(u, ReportFinished)), s.uploads[u].sid)
  {
    var event := SessionEnd(s.uploads[u].sid, AllFilesDone);
    assert (s.events + [event])[|s.events|] == event;
  }

  lemma {:induction false} FinishAfterOutcome(s: State, u: nat) returns (rest: seq<Step>)
    requires Inv(s) && Finalizing(s, u) && s.slot.IsActive(s.uploads[u].sid) && NoneLost(s.uploads, s.uploads[u].sid)
    ensures ReportsDone(RunFrom(s, rest), s.uploads[u].sid)
    decreases RemainingWork(s.slot.session), 0
  {
    var step := Upload(u, Finalize);
    var t := DoFinalize(s, u);
    hide Inv, Apply, RunFrom, DoFinalize, RemainingWork, NoneLost, ReportsDone;
    StepKeepsInv(s, step);
    FinalizeAdvances(s, u);
    var more: seq<Step>;
    if t.slot.IsActive(s.uploads[u].sid) {
      more := FinishSession(t, s.uploads[u].sid);
    } else {
      more := [Upload(u, ReportFinished)];
      ReportedBy(t, u);
      RunOne(t, Upload(u, ReportFinished));
    }
    RunFirst(s, step, more);
    rest := [step] + more;
  }

  lemma {:induction false} FinishSession(s: State, sid: SessionId) returns (rest: seq<Step>)
    requires Inv(s) && s.slot.IsActive(sid) && NoneLost(s.uploads, sid)
    ensures ReportsDone(RunFrom(s, rest), sid)
    decreases RemainingWork(s.slot.session), 1
  {
    if u :| u in s.uploads && s.uploads[u].sid == sid && Outstanding(s.uploads[u].pc) {
      assert !s.uploads[u].pc.Lost?;
      hide Inv, Apply, RunFrom, RemainingWork, NoneLost, ReportsDone;
      if Finalizing(s, u) {
        rest := FinishAfterOutcome(s, u);
      } else {
        var step := Upload(u, DropUpload);
        StepKeepsInv(s, step);
        DropAdvances(s, u);
        var more := FinishAfterOutcome(Apply(s, step), u);
        RunFirst(s, step, more);
        rest := [step] + more;
      }
    } else {
      var fid := FileToClaim(s);
      var u := FreshRequest(s.uploads);
      hide Inv, Apply, RunFrom, RemainingWork, NoneLost, ReportsDone;
      var step := Upload(u, ClaimUpload(sid, fid, s.slot.session.files[fid].token, s.slot.session.senderIp));
      StepKeepsInv(s, step);
      ClaimAdvances(s, u, fid);
      var more := FinishSession(Apply(s, step), sid);
      RunFirst(s, step, more);
      rest := [step] + more;
    }
  }

  /**
   * An active session can still come to its regular end exactly if none of its
   * requests was dropped inside finish(): a lost outcome is the only way for
   * it to get stuck.
   */
  lemma {:induction false} SessionCanFinishIff(run: seq<Step>, sid: SessionId)
    requires After(run).slot.IsActive(sid)
    ensures (exists rest :: ReportsDone(RunFrom(After(run), rest), sid)) <==> NoneLost(After(run).uploads, sid)
  {
    var s := After(run);
    ReachableInv(run);
    if NoneLost(s.uploads, sid) {
      hide Inv, After, RunFrom;
      var rest := FinishSession(s, sid);
    } else {
      var u :| u in s.uploads && s.uploads[u].sid == sid && s.uploads[u].pc.Lost?;
      hide After, RunFrom;
      forall rest ensures !ReportsDone(RunFrom(s, rest), sid) {
        LostOutcomeKeepsSessionOpen(run, u, rest);
      }
    }
  }

  // Runs into the two states nothing recovers from

  lemma {:induction false} OneMore(run: seq<Step>, step: Step)
    ensures After(run + [step]) == Apply(After(run), step)
  {
    assert (run + [step])[..|run|] == run;
  }

  function BlankTokens(offered: map<FileId, FileDto>): map<FileId, Token> {
    map fid | fid in offered :: ""
  }

  function ClaimRun(sid: SessionId, ip: PeerIp, offered: map<FileId, FileDto>): seq<Step> {
    [] + [Prepare(sid, ClaimSlot(ip, offered))] + [Prepare(sid, AnnouncePrepare)]
  }

  lemma {:induction false} ClaimRunDecides(sid: SessionId, ip: PeerIp, offered: map<FileId, FileDto>)
    requires offered != map[]
    ensures After(ClaimRun(sid, ip, offered)) == INITIAL.(
      slot := PendingSession(sid, ip),
      prepares := map[sid := PrepareHandler(ip, offered, Deciding)],
      events := [PrepareUpload(sid, offered)])
  {
    var claimed := [] + [Prepare(sid, ClaimSlot(ip, offered))];
    OneMore([], Prepare(sid, ClaimSlot(ip, offered)));
    OneMore(claimed, Prepare(sid, AnnouncePrepare));
    assert After(claimed) == DoClaimSlot(INITIAL, sid, ip, offered);
  }

  /** A declined request that is dropped inside clear(). */
  function LeakRun(sid: SessionId, ip: PeerIp, offered: map<FileId, FileDto>): seq<Step> {
    ClaimRun(sid, ip, offered)
    + [Prepare(sid, Decide(Decline, BlankTokens(offered)))]
    + [Prepare(sid, DropInClear)]
  }

  /** Any request can leak the slot. */
  lemma {:induction false} LeakIsReachable(sid: SessionId, ip: PeerIp, offered: map<FileId, FileDto>)
    requires offered != map[]
    ensures PrepareAt(After(LeakRun(sid, ip, offered)), sid, Leaked)
    ensures After(LeakRun(sid, ip, offered)).slot == PendingSession(sid, ip)
  {
    var run := ClaimRun(sid, ip, offered);
    var decide := Prepare(sid, Decide(Decline, BlankTokens(offered)));
    ClaimRunDecides(sid, ip, offered);
    OneMore(run, decide);
    OneMore(run + [decide], Prepare(sid, DropInClear));
    hide After;
  }

  function AcceptRun(sid: SessionId, ip: PeerIp, offered: map<FileId, FileDto>): seq<Step> {
    ClaimRun(sid, ip, offered)
    + [Prepare(sid, Decide(Accept(offered.Keys), BlankTokens(offered)))]
    + [Prepare(sid, Activate)]
  }

  lemma {:induction false} AcceptRunActivates(sid: SessionId, ip: PeerIp, offered: map<FileId, FileDto>)
    requires offered != map[]
    ensures var s := After(AcceptRun(sid, ip, offered));
      && s.slot == ActiveSession(UploadSession(sid, ip, AcceptedFiles(offered, offered.Keys, BlankTokens(offered))))
      && s.uploads == map[] && s.cancels == map[]
  {
    var run := ClaimRun(sid, ip, offered);
    var decide := Prepare(sid, Decide(Accept(offered.Keys), BlankTokens(offered)));
    ClaimRunDecides(sid, ip, offered);
    OneMore(run, decide);
    OneMore(run + [decide], Prepare(sid, Activate));
    hide After;
    var files := AcceptedFiles(offered, offered.Keys, BlankTokens(offered));
    assert files.Keys == offered.Keys && files != map[];
  }

  function UploadRun(sid: SessionId, ip: PeerIp, offered: map<FileId, FileDto>, fid: FileId): seq<Step> {
    AcceptRun(sid, ip, offered) + [Upload(0, ClaimUpload(sid, fid, "", ip))] + [Upload(0, AnnounceUpload)]
  }

  lemma {:induction false} UploadRunReceives(sid: SessionId, ip: PeerIp, offered: map<FileId, FileDto>, fid: FileId)
    requires fid in offered
    ensures var s := After(UploadRun(sid, ip, offered, fid));
      && s.slot.IsActive(sid) && s.slot.session.files.Keys == offered.Keys
      && s.slot.session.files[fid].status.InProgress?
      && UploadAt(s, 0, Receiving) && s.uploads[0].sid == sid && s.uploads[0].fid == fid
  {
    var run := AcceptRun(sid, ip, offered);
    var claimed := run + [Upload(0, ClaimUpload(sid, fid, "", ip))];
    AcceptRunActivates(sid, ip, offered);
    OneMore(run, Upload(0, ClaimUpload(sid, fid, "", ip)));
    OneMore(claimed, Upload(0, AnnounceUpload));
    hide After;
    assert UploadAt(After(claimed), 0, Claimed) && After(claimed).uploads[0].sid == sid;
  }

  /** An upload with the given outcome that is dropped inside finish(). */
  function LossRun(sid: SessionId, ip: PeerIp, offered: map<FileId, FileDto>, fid: FileId, outcome: SaveResult)
    : seq<Step>
  {
    UploadRun(sid, ip, offered, fid) + [Upload(0, FinishUpload(outcome))] + [Upload(0, DropInFinish)]
  }

  /** Any outcome of any file can be lost, and its session is active then. */
  lemma {:induction false} LossIsReachable(sid: SessionId, ip: PeerIp, offered: map<FileId, FileDto>, fid: FileId,
                                          outcome: SaveResult)
    requires fid in offered
    ensures var s := After(LossRun(sid, ip, offered, fid, outcome));
      s.slot.IsActive(sid) && UploadAt(s, 0, Lost(outcome)) && !NoneLost(s.uploads, sid)
  {
    var run := UploadRun(sid, ip, offered, fid);
    var finished := run + [Upload(0, FinishUpload(outcome))];
    UploadRunReceives(sid, ip, offered, fid);
    OneMore(run, Upload(0, FinishUpload(outcome)));
    OneMore(finished, Upload(0, DropInFinish));
    hide After;
    assert UploadAt(After(finished), 0, Finishing(outcome)) && After(finished).uploads[0].sid == sid;
  }
}
