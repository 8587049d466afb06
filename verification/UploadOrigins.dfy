/**
 * Where sessions, uploads, cancels and events of a run come from: each one goes
 * back to the steps of the sender and the one decision of the application that
 * caused it.
 */
module UploadOrigins {
  import opened Wrappers
  import opened Session
  import opened UploadProtocol
  import opened UploadInvariants
  import opened UploadTheorems

  /** What a sender asked for, and what the application answered. */
  datatype Grant = Grant(ip: PeerIp, offered: map<FileId, FileDto>, ids: set<FileId>, tokens: map<FileId, Token>)

  /** Step `i` opens the request `sid` while the slot is free. */
  predicate OpensAt(run: seq<Step>, i: nat, sid: SessionId, ip: PeerIp, offered: map<FileId, FileDto>) {
    && i < |run| && run[i] == Prepare(sid, ClaimSlot(ip, offered)) && offered != map[]
    && After(run[..i]).slot.NoSession? && sid !in After(run[..i]).prepares
  }

  /** Step `j` is the decision the request `sid` waits for. */
  predicate DecidesAt(run: seq<Step>, j: nat, sid: SessionId, ids: set<FileId>, tokens: map<FileId, Token>) {
    && j < |run| && run[j] == Prepare(sid, Decide(Accept(ids), tokens))
    && PrepareAt(After(run[..j]), sid, Deciding) && After(run[..j]).prepares[sid].offered.Keys <= tokens.Keys
  }

  predicate GrantedAt(run: seq<Step>, i: nat, j: nat, sid: SessionId, g: Grant) {
    i < j && OpensAt(run, i, sid, g.ip, g.offered) && DecidesAt(run, j, sid, g.ids, g.tokens)
  }

  /** The files are the offered ones that were accepted, with their metadata and the tokens issued for them. */
  predicate FilesFrom(files: map<FileId, SessionFile>, offered: map<FileId, FileDto>, ids: set<FileId>,
                      tokens: map<FileId, Token>) {
    && files.Keys == offered.Keys * ids && files.Keys != {}
    && forall fid :: fid in files ==>
         fid in tokens && files[fid].dto == offered[fid] && files[fid].token == tokens[fid]
  }

  // One decision

  /**
   * An accepting decision leads to a session with exactly the offered files
   * among the accepted ids, all fresh, or to clearing the slot if there is
   * none. Nothing else changes.
   */
  lemma AcceptingDecision(s: State, sid: SessionId, ids: set<FileId>, tokens: map<FileId, Token>)
    requires PrepareAt(s, sid, Deciding) && s.prepares[sid].offered.Keys <= tokens.Keys
    ensures var t, offered := Apply(s, Prepare(sid, Decide(Accept(ids), tokens))), s.prepares[sid].offered;
      && sid in t.prepares
      && t == s.(prepares := s.prepares[sid := s.prepares[sid].(pc := t.prepares[sid].pc)])
      && (t.prepares[sid].pc.Clearing? <==> offered.Keys * ids == {})
      && (t.prepares[sid].pc.Accepting? <==> offered.Keys * ids != {})
      && (t.prepares[sid].pc.Accepting? ==>
            var files := t.prepares[sid].pc.files;
            && FilesFrom(files, offered, ids, tokens)
            && forall fid :: fid in files ==> files[fid].status.Pending? && files[fid].attempts == 0)
  {
    var files := AcceptedFiles(s.prepares[sid].offered, ids, tokens);
    assert files == map[] <==> files.Keys == {};
  }

  lemma DecliningDecision(s: State, sid: SessionId, tokens: map<FileId, Token>)
    requires PrepareAt(s, sid, Deciding) && s.prepares[sid].offered.Keys <= tokens.Keys
    ensures Apply(s, Prepare(sid, Decide(Decline, tokens)))
         == s.(prepares := s.prepares[sid := s.prepares[sid].(pc := Clearing)])
  {
  }

  // Runs

  lemma {:induction false} NextAfter(run: seq<Step>)
    requires run != []
    ensures After(run) == Apply(After(run[..|run| - 1]), run[|run| - 1])
  {
  }

  lemma EarlierStep(run: seq<Step>, n: nat, i: nat)
    requires i < n <= |run|
    ensures run[..n][..i] == run[..i] && run[..n][i] == run[i]
  {
  }

  lemma {:induction false} LongerRun(run: seq<Step>, n: nat, i: nat, sid: SessionId, ip: PeerIp,
                                     offered: map<FileId, FileDto>)
    requires n <= |run| && OpensAt(run[..n], i, sid, ip, offered)
    ensures OpensAt(run, i, sid, ip, offered)
  {
    EarlierStep(run, n, i);
  }

  lemma {:induction false} LongerDecision(run: seq<Step>, n: nat, j: nat, sid: SessionId, ids: set<FileId>,
                                          tokens: map<FileId, Token>)
    requires n <= |run| && DecidesAt(run[..n], j, sid, ids, tokens)
    ensures DecidesAt(run, j, sid, ids, tokens)
  {
    EarlierStep(run, n, j);
  }

  // Requests

  predicate SameRequest(before: PrepareHandler, after: PrepareHandler) {
    after.ip == before.ip && after.offered == before.offered
  }

  lemma PrepareKeepsRequests(s: State, sid: SessionId, step: PrepareStep, other: SessionId)
    ensures var t := ApplyPrepare(s, sid, step);
      && (other in s.prepares ==> other in t.prepares && SameRequest(s.prepares[other], t.prepares[other]))
      && (other in t.prepares && other !in s.prepares ==>
            && other == sid && step.ClaimSlot? && s.slot.NoSession? && step.offered != map[]
            && t.prepares[sid].ip == step.ip && t.prepares[sid].offered == step.offered)
  {
    hide AfterClear, AfterDecision;
  }

  predicate SameRequests(s: State, t: State) {
    t.prepares == s.prepares && t.uploads == s.uploads && t.accepted == s.accepted
  }

  lemma BeginLeavesRequests(s: State, c: nat, ip: PeerIp, id: Option<SessionId>)
    ensures SameRequests(s, DoBeginCancel(s, c, ip, id))
  {
  }

  lemma CheckLeavesRequests(s: State, c: nat)
    requires c in s.cancels && s.cancels[c].CheckingActive?
    ensures SameRequests(s, DoCancelActive(s, c))
  {
  }

  lemma ReportLeavesRequests(s: State, c: nat, step: CancelStep)
    requires step.ReportCancel? || step.DropInNotify?
    ensures SameRequests(s, ApplyCancel(s, c, step))
  {
    hide DoBeginCancel, DoCancelActive, Send;
    forall t, event ensures SameRequests(t, Send(t, event)) {
      SendLeavesRequests(t, event);
    }
  }

  lemma SendLeavesRequests(t: State, event: Event)
    ensures SameRequests(t, Send(t, event))
  {
  }

  lemma CancelLeavesRequests(s: State, c: nat, step: CancelStep)
    ensures SameRequests(s, ApplyCancel(s, c, step))
  {
    hide DoBeginCancel, DoCancelActive, SameRequests;
    RequestsAreSame(s);
    if step.BeginCancel? {
      BeginLeavesRequests(s, c, step.ip, step.id);
    } else if step.CancelActiveSession? {
      if c in s.cancels && s.cancels[c].CheckingActive? {
        CheckLeavesRequests(s, c);
      }
    } else {
      hide ApplyCancel;
      ReportLeavesRequests(s, c, step);
    }
  }

  lemma RequestsAreSame(s: State)
    ensures SameRequests(s, s)
  {
  }

  lemma RequestOpened(s: State, step: Step, sid: SessionId)
    ensures var t := Apply(s, step);
      && (sid in s.prepares ==> sid in t.prepares && SameRequest(s.prepares[sid], t.prepares[sid]))
      && (sid in t.prepares && sid !in s.prepares ==>
            && step == Prepare(sid, ClaimSlot(t.prepares[sid].ip, t.prepares[sid].offered))
            && s.slot.NoSession? && t.prepares[sid].offered != map[])
  {
    hide ApplyPrepare, ApplyUpload, ApplyCancel;
    match step {
      case Prepare(other, prepare) => PrepareKeepsRequests(s, other, prepare, sid);
      case Upload(u, upload) => UploadLeavesPrepares(s, u, upload);
      case Cancel(c, cancel) => CancelLeavesRequests(s, c, cancel);
      case CancelByApplication(_) =>
    }
  }

  /** Every request was opened by a step of its sender, with the offer and the address it still has. */
  lemma {:induction false} RequestComesFromSender(run: seq<Step>, sid: SessionId) returns (i: nat)
    requires sid in After(run).prepares
    ensures OpensAt(run, i, sid, After(run).prepares[sid].ip, After(run).prepares[sid].offered)
    decreases |run|
  {
    var n := |run| - 1;
    var before := run[..n];
    NextAfter(run);
    hide After, Apply;
    RequestOpened(After(before), run[n], sid);
    if sid in After(before).prepares {
      i := RequestComesFromSender(before, sid);
      LongerRun(run, n, i, sid, After(run).prepares[sid].ip, After(run).prepares[sid].offered);
    } else {
      i := n;
    }
  }

  // Decisions

  lemma PrepareDecides(s: State, sid: SessionId, step: PrepareStep)
    requires var t := ApplyPrepare(s, sid, step); sid in t.prepares && t.prepares[sid].pc.Accepting?
    ensures var files := ApplyPrepare(s, sid, step).prepares[sid].pc.files;
      || (sid in s.prepares && s.prepares[sid].pc == Accepting(files))
      || (&& PrepareAt(s, sid, Deciding) && step.Decide? && step.decision.Accept?
          && s.prepares[sid].offered.Keys <= step.tokens.Keys
          && FilesFrom(files, s.prepares[sid].offered, step.decision.ids, step.tokens))
  {
    if step.Decide? && step.decision.Accept? && PrepareAt(s, sid, Deciding)
       && s.prepares[sid].offered.Keys <= step.tokens.Keys
    {
      AcceptingDecision(s, sid, step.decision.ids, step.tokens);
      assert ApplyPrepare(s, sid, step) == Apply(s, Prepare(sid, step));
    }
    hide AfterDecision, FilesFrom, AfterClear;
  }

  lemma AcceptingDecided(s: State, step: Step, sid: SessionId)
    requires var t := Apply(s, step); sid in t.prepares && t.prepares[sid].pc.Accepting?
    ensures var files := Apply(s, step).prepares[sid].pc.files;
      || (sid in s.prepares && s.prepares[sid].pc == Accepting(files))
      || (&& PrepareAt(s, sid, Deciding) && step.Prepare? && step.sid == sid
          && step.prepare.Decide? && step.prepare.decision.Accept?
          && s.prepares[sid].offered.Keys <= step.prepare.tokens.Keys
          && FilesFrom(files, s.prepares[sid].offered, step.prepare.decision.ids, step.prepare.tokens))
  {
    hide ApplyPrepare, ApplyUpload, ApplyCancel, FilesFrom;
    match step {
      case Prepare(other, prepare) =>
        if other == sid {
          PrepareDecides(s, sid, prepare);
        } else {
          PrepareKeepsRequests(s, other, prepare, sid);
          if sid in s.prepares {
            PrepareLeavesOthers(s, other, prepare, sid);
          }
        }
      case Upload(u, upload) => UploadLeavesPrepares(s, u, upload);
      case Cancel(c, cancel) => CancelLeavesRequests(s, c, cancel);
      case CancelByApplication(_) =>
    }
  }

  /** A request about to be accepted goes back to one decision on what its sender offered. */
  lemma {:induction false} AcceptingComesFromDecision(run: seq<Step>, sid: SessionId)
    returns (i: nat, j: nat, g: Grant)
    requires sid in After(run).prepares && After(run).prepares[sid].pc.Accepting?
    ensures GrantedAt(run, i, j, sid, g)
    ensures g.ip == After(run).prepares[sid].ip && g.offered == After(run).prepares[sid].offered
    ensures FilesFrom(After(run).prepares[sid].pc.files, g.offered, g.ids, g.tokens)
    decreases |run|
  {
    var n := |run| - 1;
    var before, step := run[..n], run[n];
    NextAfter(run);
    hide After, Apply, FilesFrom;
    var s, handler := After(before), After(run).prepares[sid];
    AcceptingDecided(s, step, sid);
    RequestOpened(s, step, sid);
    if PrepareAt(s, sid, handler.pc) {
      i, j, g := AcceptingComesFromDecision(before, sid);
      LongerRun(run, n, i, sid, g.ip, g.offered);
      LongerDecision(run, n, j, sid, g.ids, g.tokens);
    } else {
      i := RequestComesFromSender(before, sid);
      LongerRun(run, n, i, sid, handler.ip, handler.offered);
      j, g := n, Grant(handler.ip, handler.offered, step.prepare.decision.ids, step.prepare.tokens);
    }
  }

  // Sessions

  /** The same session with the same files, whatever became of them. */
  predicate SameSession(before: UploadSession, after: UploadSession) {
    && after.senderIp == before.senderIp && after.files.Keys == before.files.Keys
    && forall fid :: fid in before.files ==>
         after.files[fid].dto == before.files[fid].dto && after.files[fid].token == before.files[fid].token
  }

  lemma ClaimKeepsSession(slot: Slot, fid: FileId)
    requires slot.ActiveSession? && fid in slot.session.files
    ensures AfterClaim(slot, fid).IsActive(slot.session.sid) && SameSession(slot.session, AfterClaim(slot, fid).session)
  {
  }

  lemma FinalizeKeepsSession(slot: Slot, sid: SessionId, fid: FileId, result: SaveResult)
    ensures var after := AfterFinalize(slot, sid, fid, result);
      after.ActiveSession? ==> slot.IsActive(after.session.sid) && SameSession(slot.session, after.session)
  {
  }

  lemma UploadLeavesSlot(s: State, u: nat, step: UploadStep)
    requires !step.ClaimUpload? && !step.Finalize?
    ensures var t := ApplyUpload(s, u, step); t.accepted == s.accepted && t.slot == s.slot
  {
  }

  lemma UploadKeepsSession(s: State, u: nat, step: UploadStep)
    ensures var t := ApplyUpload(s, u, step);
      && t.accepted == s.accepted
      && (t.slot.ActiveSession? ==> s.slot.IsActive(t.slot.session.sid) && SameSession(s.slot.session, t.slot.session))
  {
    hide AfterClaim, AfterFinalize, EndsSession, SameSession;
    if s.slot.ActiveSession? {
      SessionIsItself(s.slot.session);
    }
    if step.ClaimUpload? {
      if UploadAdmitted(s.slot, step.sid, step.fid, step.token, step.ip) {
        ClaimKeepsSession(s.slot, step.fid);
      }
    } else if step.Finalize? {
      if Finalizing(s, u) {
        FinalizeKeepsSession(s.slot, s.uploads[u].sid, s.uploads[u].fid, PendingOutcome(s.uploads[u].pc));
      }
    } else {
      UploadLeavesSlot(s, u, step);
      hide ApplyUpload;
    }
  }

  lemma SessionIsItself(session: UploadSession)
    ensures SameSession(session, session)
  {
  }

  lemma PrepareActivates(s: State, sid: SessionId, step: PrepareStep)
    ensures var t := ApplyPrepare(s, sid, step);
      if step.Activate? && sid in s.prepares && s.prepares[sid].pc.Accepting? then
        && t.slot == ActiveSession(UploadSession(sid, s.prepares[sid].ip, s.prepares[sid].pc.files))
        && t.accepted == s.accepted[sid := s.prepares[sid].pc.files.Keys]
      else t.accepted == s.accepted && (t.slot.ActiveSession? ==> t.slot == s.slot)
  {
    hide AfterDecision;
  }

  predicate Activates(s: State, step: Step, sid: SessionId) {
    step == Prepare(sid, Activate) && sid in s.prepares && s.prepares[sid].pc.Accepting?
  }

  lemma CancelKeepsSession(s: State, c: nat, step: CancelStep)
    ensures var t := ApplyCancel(s, c, step); t.slot.ActiveSession? ==> t.slot == s.slot
  {
    hide DoBeginCancel;
    if step.BeginCancel? {
      BeginCancelLeavesSlot(s, c, step.ip, step.id);
    }
  }

  lemma SessionActivated(s: State, step: Step, sid: SessionId)
    requires Apply(s, step).slot.IsActive(sid)
    ensures var session := Apply(s, step).slot.session;
      || (s.slot.IsActive(sid) && SameSession(s.slot.session, session))
      || (Activates(s, step, sid) && session == UploadSession(sid, s.prepares[sid].ip, s.prepares[sid].pc.files))
  {
    hide ApplyPrepare, ApplyUpload, ApplyCancel;
    match step {
      case Prepare(other, prepare) => PrepareActivates(s, other, prepare);
      case Upload(u, upload) => UploadKeepsSession(s, u, upload);
      case Cancel(c, cancel) => CancelKeepsSession(s, c, cancel);
      case CancelByApplication(_) =>
    }
  }

  lemma AcceptedRecorded(s: State, step: Step, sid: SessionId)
    ensures var t := Apply(s, step);
      if Activates(s, step, sid) then sid in t.accepted && t.accepted[sid] == s.prepares[sid].pc.files.Keys
      else if sid in s.accepted then sid in t.accepted && t.accepted[sid] == s.accepted[sid]
      else sid !in t.accepted
  {
    hide ApplyPrepare, ApplyUpload, ApplyCancel;
    match step {
      case Prepare(other, prepare) => PrepareActivates(s, other, prepare);
      case Upload(u, upload) => UploadKeepsSession(s, u, upload);
      case Cancel(c, cancel) => CancelLeavesRequests(s, c, cancel);
      case CancelByApplication(_) =>
    }
  }

  /**
   * The active session goes back to one request and one decision: it belongs
   * to the address that asked, holds exactly the offered files among the
   * accepted ids, and each file has the token issued for it.
   */
  lemma {:induction false} SessionComesFromDecision(run: seq<Step>) returns (i: nat, j: nat, g: Grant)
    requires After(run).slot.ActiveSession?
    ensures var session := After(run).slot.session;
      && GrantedAt(run, i, j, session.sid, g)
      && session.senderIp == g.ip
      && FilesFrom(session.files, g.offered, g.ids, g.tokens)
    decreases |run|
  {
    var n := |run| - 1;
    var before, step := run[..n], run[n];
    NextAfter(run);
    hide After, Apply;
    var s, sid := After(before), After(run).slot.session.sid;
    SessionActivated(s, step, sid);
    if Activates(s, step, sid)
       && After(run).slot.session == UploadSession(sid, s.prepares[sid].ip, s.prepares[sid].pc.files)
    {
      i, j, g := AcceptingComesFromDecision(before, sid);
    } else {
      i, j, g := SessionComesFromDecision(before);
    }
    LongerRun(run, n, i, sid, g.ip, g.offered);
    LongerDecision(run, n, j, sid, g.ids, g.tokens);
  }

  /** The same for every session that was ever active. */
  lemma {:induction false} AcceptedComesFromDecision(run: seq<Step>, sid: SessionId) returns (i: nat, j: nat, g: Grant)
    requires sid in After(run).accepted
    ensures GrantedAt(run, i, j, sid, g) && After(run).accepted[sid] == g.offered.Keys * g.ids != {}
    decreases |run|
  {
    var n := |run| - 1;
    var before, step := run[..n], run[n];
    NextAfter(run);
    hide After, Apply;
    AcceptedRecorded(After(before), step, sid);
    if Activates(After(before), step, sid) {
      i, j, g := AcceptingComesFromDecision(before, sid);
    } else {
      i, j, g := AcceptedComesFromDecision(before, sid);
    }
    LongerRun(run, n, i, sid, g.ip, g.offered);
    LongerDecision(run, n, j, sid, g.ids, g.tokens);
  }

  // Answered once

  lemma PrepareKeepsUndecided(s: State, id: SessionId, step: PrepareStep, sid: SessionId)
    requires sid in s.prepares && !s.prepares[sid].pc.Announcing?
    ensures var t := ApplyPrepare(s, id, step);
      && sid in t.prepares && t.prepares[sid].offered == s.prepares[sid].offered
      && !t.prepares[sid].pc.Announcing? && (t.prepares[sid].pc.Deciding? ==> s.prepares[sid].pc.Deciding?)
  {
    hide DoClaimSlot, AfterClear, AcceptedFiles;
    PrepareKeepsRequests(s, id, step, sid);
    if id != sid {
      hide ApplyPrepare;
      PrepareLeavesOthers(s, id, step, sid);
    }
  }

  /** No request goes back to being decided. */
  lemma StepKeepsUndecided(s: State, step: Step, sid: SessionId)
    requires sid in s.prepares && !s.prepares[sid].pc.Announcing?
    ensures var t := Apply(s, step);
      && sid in t.prepares && t.prepares[sid].offered == s.prepares[sid].offered
      && !t.prepares[sid].pc.Announcing? && (t.prepares[sid].pc.Deciding? ==> s.prepares[sid].pc.Deciding?)
  {
    hide ApplyPrepare, ApplyUpload, ApplyCancel;
    match step {
      case Prepare(id, prepare) => PrepareKeepsUndecided(s, id, prepare, sid);
      case Upload(u, upload) => UploadLeavesPrepares(s, u, upload);
      case Cancel(c, cancel) => CancelLeavesRequests(s, c, cancel);
      case CancelByApplication(_) =>
    }
  }

  predicate IsDecided(s: State, sid: SessionId) {
    sid in s.prepares && !s.prepares[sid].pc.Announcing? && !s.prepares[sid].pc.Deciding?
  }

  lemma {:induction false} StaysDecided(run: seq<Step>, m: nat, n: nat, sid: SessionId)
    requires m <= n <= |run| && IsDecided(After(run[..m]), sid)
    ensures IsDecided(After(run[..n]), sid)
    decreases n
  {
    if m < n {
      hide After, Apply;
      StaysDecided(run, m, n - 1, sid);
      NextAfter(run[..n]);
      assert run[..n][..n - 1] == run[..n - 1];
      StepKeepsUndecided(After(run[..n - 1]), run[n - 1], sid);
    }
  }

  /** A request takes one decision, so the grant of a session is the only one there is. */
  lemma {:induction false} DecidedOnce(run: seq<Step>, sid: SessionId, j: nat, ids: set<FileId>, k: nat,
                                       others: set<FileId>, tokens: map<FileId, Token>, more: map<FileId, Token>)
    requires DecidesAt(run, j, sid, ids, tokens) && DecidesAt(run, k, sid, others, more)
    ensures j == k && ids == others && tokens == more
  {
    var first := if j < k then j else k;
    var last := if j < k then k else j;
    if first < last {
      var s := After(run[..first]);
      NextAfter(run[..first + 1]);
      assert run[..first + 1][..first] == run[..first];
      AcceptingDecision(s, sid, if j < k then ids else others, if j < k then tokens else more);
      StaysDecided(run, first + 1, last, sid);
    }
  }

  // Uploads

  /** Step `k` is the request `u` for a file, sent before any other use of its number. */
  predicate RequestsAt(run: seq<Step>, k: nat, u: nat, sid: SessionId, fid: FileId, token: Token, ip: PeerIp) {
    && k < |run| && run[k] == Upload(u, ClaimUpload(sid, fid, token, ip))
    && u !in After(run[..k]).uploads
  }

  /**
   * A new request is admitted exactly if it names the active session, comes
   * from its sender, and gives the token of one of its files that is still
   * pending. Then that file alone is in progress, with one more attempt;
   * otherwise nothing changes.
   */
  lemma AdmittedIff(run: seq<Step>, u: nat, sid: SessionId, fid: FileId, token: Token, ip: PeerIp)
    requires u !in After(run).uploads
    ensures var s, t := After(run), Apply(After(run), Upload(u, ClaimUpload(sid, fid, token, ip)));
      && (u in t.uploads <==>
            && s.slot.ActiveSession? && s.slot.session.sid == sid && s.slot.session.senderIp == ip
            && fid in s.slot.session.files && s.slot.session.files[fid].token == token
            && s.slot.session.files[fid].status == Pending)
      && (u !in t.uploads ==> t == s)
      && (u in t.uploads ==>
            && t.uploads == s.uploads[u := UploadHandler(sid, fid, s.slot.session.files[fid].dto, Claimed)]
            && t.slot.IsActive(sid) && t.slot.session.senderIp == ip
            && t.slot.session.files.Keys == s.slot.session.files.Keys
            && t.slot.session.files[fid] == s.slot.session.files[fid].(
                 status := InProgress, attempts := s.slot.session.files[fid].attempts + 1)
            && forall other :: other in s.slot.session.files && other != fid ==>
                 t.slot.session.files[other] == s.slot.session.files[other])
  {
    BoundedRun(run);
    hide After, ApplyUpload;
    ClaimEffect(After(run), u, sid, fid, token, ip);
  }

  lemma BoundedRun(run: seq<Step>)
    ensures var s := After(run);
      s.slot.ActiveSession? ==>
        forall fid :: fid in s.slot.session.files ==> s.slot.session.files[fid].attempts <= MAX_UPLOAD_ATTEMPTS
  {
    ReachableInv(run);
    hide After;
    if After(run).slot.ActiveSession? {
      BoundedFiles(After(run));
    }
  }

  lemma BoundedFiles(s: State)
    requires Inv(s) && s.slot.ActiveSession?
    ensures forall fid :: fid in s.slot.session.files ==> s.slot.session.files[fid].attempts <= MAX_UPLOAD_ATTEMPTS
  {
    assert forall fid :: fid in s.slot.session.files ==> FileInBounds(s.slot.session.files[fid]);
  }

  lemma ClaimEffect(s: State, u: nat, sid: SessionId, fid: FileId, token: Token, ip: PeerIp)
    requires u !in s.uploads
    requires s.slot.ActiveSession? ==>
      forall fid :: fid in s.slot.session.files ==> s.slot.session.files[fid].attempts <= MAX_UPLOAD_ATTEMPTS
    ensures var t := ApplyUpload(s, u, ClaimUpload(sid, fid, token, ip));
      if s.slot.ActiveSession? && s.slot.session.sid == sid && s.slot.session.senderIp == ip
         && fid in s.slot.session.files && s.slot.session.files[fid].token == token
         && s.slot.session.files[fid].status == Pending
      then
        var file := s.slot.session.files[fid];
        && t.uploads == s.uploads[u := UploadHandler(sid, fid, file.dto, Claimed)]
        && t.slot == ActiveSession(s.slot.session.(
             files := s.slot.session.files[fid := file.(status := InProgress, attempts := file.attempts + 1)]))
      else t == s
  {
  }

  predicate SameTarget(before: UploadHandler, after: UploadHandler) {
    after.sid == before.sid && after.fid == before.fid && after.dto == before.dto
  }

  lemma UploadsKeepTargets(s: State, u: nat, step: UploadStep, other: nat)
    ensures var t := ApplyUpload(s, u, step);
      && (other in s.uploads ==> other in t.uploads && SameTarget(s.uploads[other], t.uploads[other]))
      && (other in t.uploads && other !in s.uploads ==>
            && other == u && step.ClaimUpload? && UploadAdmitted(s.slot, step.sid, step.fid, step.token, step.ip)
            && t.uploads[u].sid == step.sid && t.uploads[u].fid == step.fid
            && t.uploads[u].dto == s.slot.session.files[step.fid].dto)
  {
    hide AfterClaim, AfterFinalize, EndsSession, UploadAdmitted;
  }

  lemma UploadRequested(s: State, step: Step, u: nat)
    ensures var t := Apply(s, step);
      && (u in s.uploads ==> u in t.uploads && SameTarget(s.uploads[u], t.uploads[u]))
      && (u in t.uploads && u !in s.uploads ==>
            && step.Upload? && step.u == u && step.upload.ClaimUpload?
            && UploadAdmitted(s.slot, step.upload.sid, step.upload.fid, step.upload.token, step.upload.ip)
            && t.uploads[u].sid == step.upload.sid && t.uploads[u].fid == step.upload.fid
            && t.uploads[u].dto == s.slot.session.files[step.upload.fid].dto)
  {
    hide ApplyPrepare, ApplyUpload, ApplyCancel, UploadAdmitted;
    match step {
      case Prepare(sid, prepare) => PrepareLeavesUploads(s, sid, prepare);
      case Upload(v, upload) => UploadsKeepTargets(s, v, upload, u);
      case Cancel(c, cancel) => CancelLeavesRequests(s, c, cancel);
      case CancelByApplication(_) =>
    }
  }

  /**
   * Every upload was asked for by the address that opened its session, for a
   * file that was offered and accepted, with the token issued for that file;
   * it keeps the metadata of the offer.
   */
  lemma {:induction false} UploadComesFromSender(run: seq<Step>, u: nat)
    returns (i: nat, j: nat, g: Grant, k: nat, token: Token)
    requires u in After(run).uploads
    ensures var handler := After(run).uploads[u];
      && GrantedAt(run, i, j, handler.sid, g) && j < k
      && RequestsAt(run, k, u, handler.sid, handler.fid, token, g.ip)
      && handler.fid in g.offered && handler.fid in g.ids && handler.dto == g.offered[handler.fid]
      && handler.fid in g.tokens && g.tokens[handler.fid] == token
    decreases |run|
  {
    var n := |run| - 1;
    var before, step := run[..n], run[n];
    NextAfter(run);
    hide After, Apply;
    var handler := After(run).uploads[u];
    UploadRequested(After(before), step, u);
    if u in After(before).uploads {
      i, j, g, k, token := UploadComesFromSender(before, u);
      EarlierStep(run, n, k);
    } else {
      i, j, g := SessionComesFromDecision(before);
      k, token := n, step.upload.token;
    }
    LongerRun(run, n, i, handler.sid, g.ip, g.offered);
    LongerDecision(run, n, j, handler.sid, g.ids, g.tokens);
  }

  // Cancels

  /** Step `k` is a sender's cancel that reaches its own pending request, named or not. */
  predicate FiresAt(run: seq<Step>, k: nat, sid: SessionId) {
    && k < |run| && run[k].Cancel? && run[k].cancel.BeginCancel?
    && run[k].c !in After(run[..k]).cancels
    && After(run[..k]).slot == PendingSession(sid, run[k].cancel.ip)
    && (run[k].cancel.id.None? || run[k].cancel.id == Some(sid))
  }

  predicate Fires(s: State, step: Step, sid: SessionId) {
    && step.Cancel? && step.cancel.BeginCancel? && step.c !in s.cancels
    && s.slot == PendingSession(sid, step.cancel.ip)
    && (step.cancel.id.None? || step.cancel.id == Some(sid))
  }

  lemma BeginFires(s: State, c: nat, ip: PeerIp, id: Option<SessionId>, sid: SessionId)
    ensures sid in DoBeginCancel(s, c, ip, id).cancelled <==>
      sid in s.cancelled || (s.slot == PendingSession(sid, ip) && (id.None? || id == Some(sid)))
  {
  }

  lemma PrepareFiresNothing(s: State, sid: SessionId, step: PrepareStep)
    ensures var t := ApplyPrepare(s, sid, step); t.cancelled == s.cancelled && t.cancels == s.cancels
  {
    hide AfterDecision, AfterClear;
  }

  lemma UploadFiresNothing(s: State, u: nat, step: UploadStep)
    ensures var t := ApplyUpload(s, u, step); t.cancelled == s.cancelled && t.cancels == s.cancels
  {
    hide AfterClaim, AfterFinalize, EndsSession, UploadAdmitted;
  }

  lemma StepFires(s: State, step: Step, sid: SessionId)
    ensures sid in Apply(s, step).cancelled <==> sid in s.cancelled || Fires(s, step, sid)
  {
    hide ApplyPrepare, ApplyUpload, DoBeginCancel;
    match step {
      case Prepare(other, prepare) => PrepareFiresNothing(s, other, prepare);
      case Upload(u, upload) => UploadFiresNothing(s, u, upload);
      case Cancel(c, cancel) => if cancel.BeginCancel? { BeginFires(s, c, cancel.ip, cancel.id, sid); }
      case CancelByApplication(_) =>
    }
  }

  lemma {:induction false} EarlierFires(run: seq<Step>, n: nat, k: nat, sid: SessionId)
    requires k < n <= |run|
    ensures FiresAt(run[..n], k, sid) <==> FiresAt(run, k, sid)
  {
    EarlierStep(run, n, k);
  }

  /** The token of a request fires exactly if its sender cancelled it, by its id or by none, while it was pending. */
  lemma {:induction false} CancelledIff(run: seq<Step>, sid: SessionId)
    ensures sid in After(run).cancelled <==> exists k: nat :: FiresAt(run, k, sid)
    decreases |run|
  {
    if run != [] {
      var n := |run| - 1;
      NextAfter(run);
      CancelledIff(run[..n], sid);
      StepFires(After(run[..n]), run[n], sid);
      assert Fires(After(run[..n]), run[n], sid) <==> FiresAt(run, n, sid);
      hide After, Apply, FiresAt, Fires;
      forall k: nat | k < n ensures FiresAt(run[..n], k, sid) <==> FiresAt(run, k, sid) {
        EarlierFires(run, n, k, sid);
      }
      assert forall k: nat :: FiresAt(run[..n], k, sid) ==> k < n by { FiresInside(run[..n], sid); }
      assert forall k: nat :: FiresAt(run, k, sid) ==> k <= n by { FiresInside(run, sid); }
    }
  }

  lemma FiresInside(run: seq<Step>, sid: SessionId)
    ensures forall k: nat :: FiresAt(run, k, sid) ==> k < |run|
  {
  }

  /** Step `b` is a cancel that names a session and reaches no pending request of its sender. */
  predicate BeganAt(run: seq<Step>, b: nat, c: nat, ip: PeerIp, id: SessionId) {
    && b < |run| && run[b] == Cancel(c, BeginCancel(ip, Some(id))) && c !in After(run[..b]).cancels
    && After(run[..b]).slot != PendingSession(id, ip)
  }

  /** The handler still knows who cancels which session. */
  predicate Cancels(pc: CancelPc, ip: PeerIp, id: SessionId) {
    pc == CheckingActive(ip, id) || pc == Forwarding(ip, id)
  }

  lemma BeginRecords(s: State, c: nat, given: PeerIp, named: Option<SessionId>, ip: PeerIp, id: SessionId)
    requires c in DoBeginCancel(s, c, given, named).cancels
    requires Cancels(DoBeginCancel(s, c, given, named).cancels[c], ip, id)
    ensures given == ip && named == Some(id) && s.slot != PendingSession(id, ip)
  {
  }

  lemma CheckRecords(s: State, c: nat, ip: PeerIp, id: SessionId)
    requires c in s.cancels && s.cancels[c].CheckingActive? && c in DoCancelActive(s, c).cancels
    requires Cancels(DoCancelActive(s, c).cancels[c], ip, id)
    ensures Cancels(s.cancels[c], ip, id)
  {
    hide CancelsActive;
  }

  predicate OnlyChanges(before: Cancels, after: Cancels, c: nat) {
    after == before || (c in after && after == before[c := after[c]])
  }

  lemma BeginChanges(s: State, c: nat, ip: PeerIp, id: Option<SessionId>)
    ensures c in DoBeginCancel(s, c, ip, id).cancels && OnlyChanges(s.cancels, DoBeginCancel(s, c, ip, id).cancels, c)
  {
  }

  lemma CheckChanges(s: State, c: nat)
    requires c in s.cancels && s.cancels[c].CheckingActive?
    ensures c in DoCancelActive(s, c).cancels && OnlyChanges(s.cancels, DoCancelActive(s, c).cancels, c)
  {
  }

  lemma CancelChanges(s: State, c: nat, step: CancelStep)
    ensures OnlyChanges(s.cancels, ApplyCancel(s, c, step).cancels, c)
  {
    hide DoBeginCancel, DoCancelActive;
    match step {
      case BeginCancel(ip, id) => BeginChanges(s, c, ip, id);
      case CancelActiveSession => if c in s.cancels && s.cancels[c].CheckingActive? { CheckChanges(s, c); }
      case ReportCancel =>
      case DropInNotify =>
    }
  }

  lemma ReportForgets(s: State, c: nat, step: CancelStep)
    requires step.ReportCancel? || step.DropInNotify?
    ensures var t := ApplyCancel(s, c, step);
      || t.cancels == s.cancels
      || (c in s.cancels && t.cancels == s.cancels[c := Notified])
      || (c in s.cancels && t.cancels == s.cancels[c := Unnotified])
  {
    hide DoBeginCancel, DoCancelActive, Send;
    forall t, event ensures Send(t, event).cancels == t.cancels {
      SendKeepsCancels(t, event);
    }
  }

  lemma SendKeepsCancels(t: State, event: Event)
    ensures Send(t, event).cancels == t.cancels
  {
  }

  lemma CancelBegins(s: State, c: nat, step: CancelStep, ip: PeerIp, id: SessionId)
    requires var t := ApplyCancel(s, c, step); c in t.cancels && Cancels(t.cancels[c], ip, id)
    ensures || (c in s.cancels && Cancels(s.cancels[c], ip, id))
      || (c !in s.cancels && step == BeginCancel(ip, Some(id)) && s.slot != PendingSession(id, ip))
  {
    hide DoBeginCancel, DoCancelActive;
    if step.BeginCancel? {
      if c !in s.cancels {
        BeginChanges(s, c, step.ip, step.id);
        hide Cancels;
        BeginRecords(s, c, step.ip, step.id, ip, id);
      }
    } else if step.CancelActiveSession? {
      if c in s.cancels && s.cancels[c].CheckingActive? {
        CheckChanges(s, c);
        hide Cancels;
        CheckRecords(s, c, ip, id);
      }
    } else {
      ReportForgets(s, c, step);
      hide ApplyCancel;
    }
  }

  lemma CancelBegun(s: State, step: Step, c: nat, ip: PeerIp, id: SessionId)
    requires var t := Apply(s, step); c in t.cancels && Cancels(t.cancels[c], ip, id)
    ensures || (c in s.cancels && Cancels(s.cancels[c], ip, id))
      || (c !in s.cancels && step == Cancel(c, BeginCancel(ip, Some(id))) && s.slot != PendingSession(id, ip))
  {
    hide ApplyPrepare, ApplyUpload, ApplyCancel, Cancels;
    match step {
      case Prepare(other, prepare) => PrepareFiresNothing(s, other, prepare);
      case Upload(u, upload) => UploadFiresNothing(s, u, upload);
      case Cancel(other, cancel) =>
        if other == c {
          CancelBegins(s, c, cancel, ip, id);
        } else {
          CancelChanges(s, other, cancel);
        }
      case CancelByApplication(_) =>
    }
  }

  lemma {:induction false} CancelComesFromPeer(run: seq<Step>, c: nat, ip: PeerIp, id: SessionId) returns (b: nat)
    requires c in After(run).cancels && Cancels(After(run).cancels[c], ip, id)
    ensures BeganAt(run, b, c, ip, id)
    decreases |run|
  {
    var n := |run| - 1;
    var before := run[..n];
    NextAfter(run);
    hide After, Apply, Cancels;
    CancelBegun(After(before), run[n], c, ip, id);
    if c in After(before).cancels {
      b := CancelComesFromPeer(before, c, ip, id);
      EarlierStep(run, n, b);
    } else {
      b := n;
    }
  }

  /** The handler `c` finds the session active, and its sender is the one who cancels. */
  predicate EndsByCancel(s: State, c: nat, sid: SessionId) {
    && s.slot.IsActive(sid) && c in s.cancels
    && s.cancels[c] == CheckingActive(s.slot.session.senderIp, sid)
  }

  lemma CancelEnds(s: State, c: nat, step: CancelStep, sid: SessionId)
    ensures var t := ApplyCancel(s, c, step);
      if step.CancelActiveSession? && EndsByCancel(s, c, sid) then
        sid in t.ends && t.ends[sid] == ByCancel(c) && t.slot.NoSession?
      else (sid in t.ends <==> sid in s.ends) && (sid in s.ends ==> t.ends[sid] == s.ends[sid])
  {
    hide CancelsPending;
  }

  lemma UploadEnds(s: State, u: nat, step: UploadStep, sid: SessionId)
    ensures var t := ApplyUpload(s, u, step);
      sid in t.ends && t.ends[sid].ByCancel? ==> sid in s.ends && t.ends[sid] == s.ends[sid]
  {
    hide AfterClaim, AfterFinalize, EndsSession, UploadAdmitted;
  }

  lemma PrepareEndsNothing(s: State, sid: SessionId, step: PrepareStep)
    ensures ApplyPrepare(s, sid, step).ends == s.ends
  {
    hide AfterDecision, AfterClear;
  }

  lemma CancelEnded(s: State, step: Step, sid: SessionId)
    requires var t := Apply(s, step); sid in t.ends && t.ends[sid].ByCancel?
    ensures var mark := Apply(s, step).ends[sid];
      || (sid in s.ends && s.ends[sid] == mark)
      || (step == Cancel(mark.handler, CancelActiveSession) && EndsByCancel(s, mark.handler, sid))
  {
    hide ApplyPrepare, ApplyUpload, ApplyCancel;
    match step {
      case Prepare(other, prepare) => PrepareEndsNothing(s, other, prepare);
      case Upload(u, upload) => UploadEnds(s, u, upload, sid);
      case Cancel(c, cancel) => CancelEnds(s, c, cancel, sid);
      case CancelByApplication(_) =>
    }
  }

  /** A session ended by a cancel was cancelled by its id, from the address that opened it. */
  lemma {:induction false} CancelComesFromSender(run: seq<Step>, sid: SessionId)
    returns (i: nat, j: nat, g: Grant, b: nat)
    requires sid in After(run).ends && After(run).ends[sid].ByCancel?
    ensures GrantedAt(run, i, j, sid, g) && BeganAt(run, b, After(run).ends[sid].handler, g.ip, sid)
    decreases |run|
  {
    var n := |run| - 1;
    var before, mark := run[..n], After(run).ends[sid];
    NextAfter(run);
    hide After, Apply;
    var s := After(before);
    CancelEnded(s, run[n], sid);
    if sid in s.ends && s.ends[sid] == mark {
      i, j, g, b := CancelComesFromSender(before, sid);
    } else {
      i, j, g := SessionComesFromDecision(before);
      b := CancelComesFromPeer(before, mark.handler, g.ip, sid);
    }
    LongerRun(run, n, i, sid, g.ip, g.offered);
    LongerDecision(run, n, j, sid, g.ids, g.tokens);
    EarlierStep(run, n, b);
  }

  /** A cancel that reached no pending request ends the active session of its sender, or is passed on. */
  lemma CheckEffect(s: State, c: nat, ip: PeerIp, id: SessionId)
    requires c in s.cancels && s.cancels[c] == CheckingActive(ip, id)
    ensures Apply(s, Cancel(c, CancelActiveSession)) ==
      if s.slot.ActiveSession? && s.slot.session.sid == id && s.slot.session.senderIp == ip
      then s.(slot := NoSession, cancels := s.cancels[c := Notifying(id)], ends := s.ends[id := ByCancel(c)])
      else s.(cancels := s.cancels[c := Forwarding(ip, id)])
  {
    hide DoBeginCancel;
  }

  lemma ReportEffect(s: State, c: nat)
    requires c in s.cancels && (s.cancels[c].Notifying? || s.cancels[c].Forwarding?)
    ensures var t, pc := Apply(s, Cancel(c, ReportCancel)), s.cancels[c];
      t == s.(cancels := s.cancels[c := Notified],
              events := s.events + [if pc.Notifying? then SessionEnd(pc.id, CancelledBySender)
                                    else CancelReceived(pc.id, pc.ip)])
  {
    hide DoBeginCancel, DoCancelActive;
  }

  /** The application ends exactly the active session it names. */
  lemma ApplicationEffect(s: State, id: SessionId)
    ensures Apply(s, CancelByApplication(id)) ==
      if s.slot.ActiveSession? && s.slot.session.sid == id
      then s.(slot := NoSession, ends := s.ends[id := ByApplication]) else s
  {
  }

  // Events

  /** The cancel handler that forwards a cancel, and the cancel it forwards. */
  predicate Forwards(s: State, step: Step, event: Event) {
    && event.CancelReceived? && step.Cancel? && step.c in s.cancels
    && s.cancels[step.c] == Forwarding(event.ip, event.sid)
  }

  predicate SendsOne(s: State, t: State, step: Step) {
    || t.events == s.events
    || (&& |t.events| == |s.events| + 1 && t.events[..|s.events|] == s.events
        && (t.events[|s.events|].CancelReceived? ==> Forwards(s, step, t.events[|s.events|])))
  }

  lemma PrepareSends(s: State, sid: SessionId, step: PrepareStep)
    ensures SendsOne(s, ApplyPrepare(s, sid, step), Prepare(sid, step))
  {
    hide AfterDecision, AfterClear;
  }

  lemma UploadSends(s: State, u: nat, step: UploadStep)
    ensures SendsOne(s, ApplyUpload(s, u, step), Upload(u, step))
  {
    hide AfterClaim, AfterFinalize, EndsSession, UploadAdmitted;
  }

  lemma QuietSends(s: State, t: State, step: Step)
    requires t.events == s.events
    ensures SendsOne(s, t, step)
  {
  }

  lemma EventSends(s: State, cancels: Cancels, event: Event, step: Step)
    requires event.CancelReceived? ==> Forwards(s, step, event)
    ensures SendsOne(s, Send(s.(cancels := cancels), event), step)
  {
  }

  lemma ReportSends(s: State, c: nat)
    ensures SendsOne(s, ApplyCancel(s, c, ReportCancel), Cancel(c, ReportCancel))
  {
    hide Send, SendsOne, DoBeginCancel, DoCancelActive;
    var cancels := s.cancels[c := Notified];
    if c in s.cancels && s.cancels[c].Notifying? {
      EventSends(s, cancels, SessionEnd(s.cancels[c].id, CancelledBySender), Cancel(c, ReportCancel));
    } else if c in s.cancels && s.cancels[c].Forwarding? {
      EventSends(s, cancels, CancelReceived(s.cancels[c].id, s.cancels[c].ip), Cancel(c, ReportCancel));
    } else {
      QuietSends(s, s, Cancel(c, ReportCancel));
    }
  }

  lemma CancelSends(s: State, c: nat, step: CancelStep)
    ensures SendsOne(s, ApplyCancel(s, c, step), Cancel(c, step))
  {
    hide DoBeginCancel, DoCancelActive, Send, SendsOne;
    if step.ReportCancel? {
      ReportSends(s, c);
    } else {
      if step.BeginCancel? {
        SilentCancels(s, c, step.ip, step.id);
      } else if step.CancelActiveSession? {
        SilentCancels(s, c, "", None);
      }
      QuietSends(s, ApplyCancel(s, c, step), Cancel(c, step));
    }
  }

  lemma SilentCancels(s: State, c: nat, ip: PeerIp, id: Option<SessionId>)
    ensures DoBeginCancel(s, c, ip, id).events == s.events
    ensures c in s.cancels && s.cancels[c].CheckingActive? ==> DoCancelActive(s, c).events == s.events
  {
    hide CancelsPending, CancelsActive;
  }

  lemma StepSends(s: State, step: Step)
    ensures SendsOne(s, Apply(s, step), step)
  {
    hide ApplyPrepare, ApplyUpload, ApplyCancel, SendsOne;
    match step {
      case Prepare(sid, prepare) => PrepareSends(s, sid, prepare);
      case Upload(u, upload) => UploadSends(s, u, upload);
      case Cancel(c, cancel) => CancelSends(s, c, cancel);
      case CancelByApplication(_) => ApplicationSends(s, step);
    }
  }

  lemma ApplicationSends(s: State, step: Step)
    requires step.CancelByApplication?
    ensures SendsOne(s, Apply(s, step), step)
  {
  }

  lemma NewOrOld(s: State, t: State, step: Step, e: nat)
    requires SendsOne(s, t, step) && e < |t.events| && t.events[e].CancelReceived?
    ensures (e < |s.events| && s.events[e] == t.events[e]) || Forwards(s, step, t.events[e])
  {
    if e < |s.events| {
      assert t.events[..|s.events|][e] == t.events[e];
    }
  }

  /** A forwarded cancel is passed on as it came. */
  lemma {:induction false} ForwardedComesFromPeer(run: seq<Step>, e: nat) returns (b: nat, c: nat)
    requires e < |After(run).events| && After(run).events[e].CancelReceived?
    ensures BeganAt(run, b, c, After(run).events[e].ip, After(run).events[e].sid)
    decreases |run|
  {
    NextAfter(run);
    var n := |run| - 1;
    hide After, Apply, SendsOne;
    var before, event := run[..n], After(run).events[e];
    StepSends(After(before), run[n]);
    NewOrOld(After(before), After(run), run[n], e);
    if e < |After(before).events| && After(before).events[e] == event {
      b, c := ForwardedComesFromPeer(before, e);
    } else {
      c := run[n].c;
      b := CancelComesFromPeer(before, c, event.ip, event.sid);
    }
    EarlierStep(run, n, b);
  }

  /** What the application is asked is what the sender offered. */
  lemma QuestionComesFromSender(run: seq<Step>, e: nat) returns (i: nat, ip: PeerIp)
    requires e < |After(run).events| && After(run).events[e].PrepareUpload?
    ensures OpensAt(run, i, After(run).events[e].sid, ip, After(run).events[e].offered)
  {
    var s := After(run);
    ReachableInv(run);
    assert PrepareEventSound(s.events[e], s.prepares, s.accepted);
    i := RequestComesFromSender(run, s.events[e].sid);
    ip := s.prepares[s.events[e].sid].ip;
  }

  /** An upload the application is told about was requested by the sender, for a file it accepted. */
  lemma AnnouncedUploadComesFromSender(run: seq<Step>, e: nat)
    returns (i: nat, j: nat, g: Grant, k: nat, token: Token)
    requires e < |After(run).events| && After(run).events[e].FileUpload?
    ensures var event := After(run).events[e];
      && GrantedAt(run, i, j, event.sid, g) && j < k
      && RequestsAt(run, k, event.request, event.sid, event.fid, token, g.ip)
      && event.fid in g.offered && event.fid in g.ids && event.fid in g.tokens && g.tokens[event.fid] == token
  {
    var s := After(run);
    ReachableInv(run);
    assert UploadEventSound(s.events[e], s.uploads);
    i, j, g, k, token := UploadComesFromSender(run, s.events[e].request);
  }

  // Requests given up

  /** The request is dropped before its session is active, or sees its sender's cancel while it waits. */
  predicate GivesUp(s: State, step: Step, sid: SessionId) {
    && sid in s.prepares
    && var pc := s.prepares[sid].pc;
    || (step == Prepare(sid, DropPrepare) && (pc.Announcing? || pc.Deciding? || pc.Accepting?))
    || (step == Prepare(sid, ObserveCancel) && pc.Deciding? && sid in s.cancelled)
  }

  predicate GivenUpAt(run: seq<Step>, k: nat, sid: SessionId) {
    k < |run| && GivesUp(After(run[..k]), run[k], sid)
  }

  /** The clean-up task is still at work, or has told the application. */
  predicate CleanedUp(s: State, sid: SessionId) {
    sid in s.prepares && (s.prepares[sid].pc.Deferred? || s.prepares[sid].pc.Reporting? || Told(s.events, sid))
  }

  predicate Told(events: seq<Event>, sid: SessionId) {
    PrepareUploadAborted(sid) in events
  }

  lemma PrepareTells(s: State, sid: SessionId, step: PrepareStep, other: SessionId)
    ensures Told(ApplyPrepare(s, sid, step).events, other) <==>
      Told(s.events, other) || (step.ReportAborted? && sid == other && PrepareAt(s, sid, Reporting))
  {
    hide AfterDecision, AfterClear;
  }

  lemma UploadTells(s: State, u: nat, step: UploadStep, sid: SessionId)
    ensures Told(ApplyUpload(s, u, step).events, sid) <==> Told(s.events, sid)
  {
    hide AfterClaim, AfterFinalize, EndsSession, UploadAdmitted;
  }

  lemma CancelTells(s: State, c: nat, step: CancelStep, sid: SessionId)
    ensures Told(ApplyCancel(s, c, step).events, sid) <==> Told(s.events, sid)
  {
    hide DoBeginCancel, DoCancelActive;
    if step.BeginCancel? {
      SilentCancels(s, c, step.ip, step.id);
    } else if step.CancelActiveSession? {
      SilentCancels(s, c, "", None);
    }
  }

  /** The steps of the guard and its clean-up task. */
  predicate IsCleanUp(step: PrepareStep) {
    step.DropPrepare? || step.ObserveCancel? || step.DeferredClear? || step.ReportAborted?
  }

  lemma GuardCleansUp(s: State, sid: SessionId, step: PrepareStep)
    requires IsCleanUp(step)
    requires Told(s.events, sid) ==> sid in s.prepares && s.prepares[sid].pc.Ended?
    ensures CleanedUp(ApplyPrepare(s, sid, step), sid) <==> CleanedUp(s, sid) || GivesUp(s, Prepare(sid, step), sid)
  {
    PrepareTells(s, sid, step, sid);
    hide Told, AfterClear;
  }

  lemma HandlerCleansNothingUp(s: State, sid: SessionId, step: PrepareStep)
    requires !IsCleanUp(step)
    requires Told(s.events, sid) ==> sid in s.prepares && s.prepares[sid].pc.Ended?
    ensures CleanedUp(ApplyPrepare(s, sid, step), sid) <==> CleanedUp(s, sid)
  {
    PrepareTells(s, sid, step, sid);
    hide Told, AfterClear, AcceptedFiles;
  }

  lemma PrepareCleansUp(s: State, sid: SessionId, step: PrepareStep)
    requires Told(s.events, sid) ==> sid in s.prepares && s.prepares[sid].pc.Ended?
    ensures CleanedUp(ApplyPrepare(s, sid, step), sid) <==> CleanedUp(s, sid) || GivesUp(s, Prepare(sid, step), sid)
  {
    if IsCleanUp(step) {
      GuardCleansUp(s, sid, step);
    } else {
      HandlerCleansNothingUp(s, sid, step);
    }
    hide ApplyPrepare, CleanedUp;
  }

  lemma StepCleansUp(s: State, step: Step, sid: SessionId)
    requires Told(s.events, sid) ==> sid in s.prepares && s.prepares[sid].pc.Ended?
    ensures CleanedUp(Apply(s, step), sid) <==> CleanedUp(s, sid) || GivesUp(s, step, sid)
  {
    hide ApplyPrepare, ApplyUpload, ApplyCancel, Told;
    match step {
      case Prepare(other, prepare) =>
        if other == sid {
          hide CleanedUp, GivesUp;
          PrepareCleansUp(s, sid, prepare);
        } else {
          PrepareTells(s, other, prepare, sid);
          PrepareKeepsRequests(s, other, prepare, sid);
          if sid in s.prepares {
            PrepareLeavesOthers(s, other, prepare, sid);
          }
        }
      case Upload(u, upload) =>
        UploadLeavesPrepares(s, u, upload);
        UploadTells(s, u, upload, sid);
      case Cancel(c, cancel) =>
        CancelLeavesRequests(s, c, cancel);
        CancelTells(s, c, cancel, sid);
      case CancelByApplication(_) =>
    }
  }

  lemma ToldIsEnded(s: State, sid: SessionId)
    requires Inv(s)
    ensures Told(s.events, sid) ==> sid in s.prepares && s.prepares[sid].pc.Ended?
  {
    if Told(s.events, sid) {
      var i :| 0 <= i < |s.events| && s.events[i] == PrepareUploadAborted(sid);
      assert PrepareEventSound(s.events[i], s.prepares, s.accepted);
    }
  }

  lemma {:induction false} EarlierGivenUp(run: seq<Step>, n: nat, k: nat, sid: SessionId)
    requires k < n <= |run|
    ensures GivenUpAt(run[..n], k, sid) <==> GivenUpAt(run, k, sid)
  {
    EarlierStep(run, n, k);
  }

  ghost predicate GivenUp(run: seq<Step>, sid: SessionId) {
    exists k: nat :: GivenUpAt(run, k, sid)
  }

  lemma {:induction false} GivenUpNext(run: seq<Step>, sid: SessionId)
    requires run != []
    ensures var n := |run| - 1;
      GivenUp(run, sid) <==> GivenUp(run[..n], sid) || GivesUp(After(run[..n]), run[n], sid)
  {
    hide After, GivesUp;
    var n := |run| - 1;
    assert GivenUpAt(run, n, sid) <==> GivesUp(After(run[..n]), run[n], sid);
    if k: nat :| GivenUpAt(run[..n], k, sid) {
      EarlierGivenUp(run, n, k, sid);
    }
    if k: nat :| GivenUpAt(run, k, sid) && k < n {
      EarlierGivenUp(run, n, k, sid);
    }
  }

  /**
   * The application is told, or about to be told, that a request was aborted
   * exactly if that request was dropped before its session became active or
   * saw its sender's cancel.
   */
  lemma {:induction false} AbortedIff(run: seq<Step>, sid: SessionId)
    ensures CleanedUp(After(run), sid) <==> GivenUp(run, sid)
    decreases |run|
  {
    if run != [] {
      var n := |run| - 1;
      NextAfter(run);
      AbortedIff(run[..n], sid);
      ReachableInv(run[..n]);
      hide Inv, After, Apply, GivesUp, GivenUp, CleanedUp;
      ToldIsEnded(After(run[..n]), sid);
      StepCleansUp(After(run[..n]), run[n], sid);
      GivenUpNext(run, sid);
    }
  }
}
