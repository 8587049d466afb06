/** Which sessions the server can still report as ended. */
module UploadEnding {
  import opened Wrappers
  import opened Session
  import opened UploadProtocol
  import opened UploadInvariants
  import opened UploadProgress

  // Invariant

  /** A session that became active stays in the slot until something took it out. */
  ghost predicate ActiveUntilEnded(slot: Slot, accepted: map<SessionId, set<FileId>>, ends: map<SessionId, EndMark>) {
    forall sid :: sid in accepted ==> sid in ends || slot.IsActive(sid)
  }

  ghost predicate OffersNonempty(prepares: Prepares) {
    forall sid :: sid in prepares ==> prepares[sid].offered != map[]
  }

  predicate IsEndOf(event: Event, sid: SessionId) {
    event.SessionEnd? && event.sid == sid
  }

  predicate Reported(events: seq<Event>, sid: SessionId) {
    exists i :: 0 <= i < |events| && IsEndOf(events[i], sid)
  }

  /** The request that ended the session was dropped before it could report it. */
  predicate ReportLost(mark: EndMark, uploads: Uploads, cancels: Cancels) {
    match mark
    case ByUpload(u) => u in uploads && uploads[u].pc.Unreported?
    case ByCancel(c) => c in cancels && cancels[c].Unnotified?
    case ByApplication => false
  }

  /** An end that is not the application's own is reported, about to be, or its report was lost. */
  ghost predicate EndsReported(ends: map<SessionId, EndMark>, uploads: Uploads, cancels: Cancels, events: seq<Event>) {
    forall sid :: sid in ends && !ends[sid].ByApplication? ==>
      || Reported(events, sid)
      || AboutToReport(ends[sid], sid, uploads, cancels)
      || ReportLost(ends[sid], uploads, cancels)
  }

  predicate AboutToReport(mark: EndMark, sid: SessionId, uploads: Uploads, cancels: Cancels) {
    match mark
    case ByUpload(u) => u in uploads && uploads[u].pc.Closing? && uploads[u].sid == sid
    case ByCancel(c) => c in cancels && cancels[c] == Notifying(sid)
    case ByApplication => false
  }

  ghost predicate EndingInv(s: State) {
    && ActiveUntilEnded(s.slot, s.accepted, s.ends)
    && OffersNonempty(s.prepares)
    && EndsReported(s.ends, s.uploads, s.cancels, s.events)
  }

  lemma ReportedGrows(events: seq<Event>, event: Event, sid: SessionId)
    ensures Reported(events + [event], sid) <==> Reported(events, sid) || IsEndOf(event, sid)
  {
    if Reported(events, sid) {
      var i :| 0 <= i < |events| && IsEndOf(events[i], sid);
      assert IsEndOf((events + [event])[i], sid);
    }
    if IsEndOf(event, sid) {
      assert IsEndOf((events + [event])[|events|], sid);
    }
  }

  lemma AppendKeepsReported(ends: map<SessionId, EndMark>, uploads: Uploads, cancels: Cancels, events: seq<Event>,
                            event: Event)
    requires EndsReported(ends, uploads, cancels, events)
    ensures EndsReported(ends, uploads, cancels, events + [event])
  {
    hide Reported;
    forall sid | sid in ends ensures Reported(events, sid) ==> Reported(events + [event], sid) {
      ReportedGrows(events, event, sid);
    }
  }

  // Prepare-upload handlers

  lemma PrepareKeepsOffers(s: State, sid: SessionId, step: PrepareStep)
    requires OffersNonempty(s.prepares)
    ensures OffersNonempty(ApplyPrepare(s, sid, step).prepares)
  {
  }

  lemma ActivateUntilEnded(s: State, sid: SessionId)
    requires ActiveUntilEnded(s.slot, s.accepted, s.ends) && s.slot.PendingSession?
    requires sid in s.prepares && s.prepares[sid].pc.Accepting?
    ensures var t := DoActivate(s, sid); ActiveUntilEnded(t.slot, t.accepted, t.ends)
  {
  }

  predicate SlotOnly(s: State, t: State) {
    && t.accepted == s.accepted && t.ends == s.ends
    && (t.slot == s.slot || !s.slot.ActiveSession?)
  }

  lemma SlotOnlyKeepsActive(s: State, t: State)
    requires ActiveUntilEnded(s.slot, s.accepted, s.ends) && SlotOnly(s, t)
    ensures ActiveUntilEnded(t.slot, t.accepted, t.ends)
  {
  }

  lemma PrepareChangesSlotOnly(s: State, sid: SessionId, step: PrepareStep)
    requires !step.Activate?
    ensures SlotOnly(s, ApplyPrepare(s, sid, step))
  {
  }

  lemma PrepareKeepsActive(s: State, sid: SessionId, step: PrepareStep)
    requires ActiveUntilEnded(s.slot, s.accepted, s.ends) && SlotOwned(s.slot, s.prepares)
    ensures var t := ApplyPrepare(s, sid, step); ActiveUntilEnded(t.slot, t.accepted, t.ends)
  {
    if step.Activate? {
      if sid in s.prepares && s.prepares[sid].pc.Accepting? {
        assert Owns(s.prepares[sid].pc);
        hide ActiveUntilEnded, DoActivate;
        ActivateUntilEnded(s, sid);
      }
    } else {
      hide ApplyPrepare, ActiveUntilEnded;
      PrepareChangesSlotOnly(s, sid, step);
      SlotOnlyKeepsActive(s, ApplyPrepare(s, sid, step));
    }
  }

  lemma PrepareLeavesEnds(s: State, sid: SessionId, step: PrepareStep)
    ensures var t := ApplyPrepare(s, sid, step); t.ends == s.ends && t.cancels == s.cancels
  {
  }

  lemma PrepareAppends(s: State, sid: SessionId, step: PrepareStep)
    ensures var t := ApplyPrepare(s, sid, step);
      t.events == s.events || (t.events != [] && t.events == s.events + [t.events[|t.events| - 1]])
  {
  }

  lemma PrepareKeepsEnding(s: State, sid: SessionId, step: PrepareStep)
    requires EndingInv(s) && SlotOwned(s.slot, s.prepares)
    ensures EndingInv(ApplyPrepare(s, sid, step))
  {
    hide ApplyPrepare, ActiveUntilEnded, OffersNonempty, EndsReported, SlotOwned;
    var t := ApplyPrepare(s, sid, step);
    PrepareKeepsOffers(s, sid, step);
    PrepareKeepsActive(s, sid, step);
    PrepareLeavesEnds(s, sid, step);
    PrepareLeavesUploads(s, sid, step);
    PrepareAppends(s, sid, step);
    if t.events != s.events {
      AppendKeepsReported(s.ends, s.uploads, s.cancels, s.events, t.events[|t.events| - 1]);
    }
  }

  // Upload handlers

  lemma MoveKeepsReported(s: State, u: nat, pc: UploadPc)
    requires EndsReported(s.ends, s.uploads, s.cancels, s.events) && u in s.uploads
    requires s.uploads[u].pc.Closing? || s.uploads[u].pc.Unreported? ==> pc.Unreported?
    ensures EndsReported(s.ends, WithUpload(s, u, pc).uploads, s.cancels, s.events)
  {
    hide Reported;
  }

  lemma ClaimKeepsEnding(s: State, u: nat, sid: SessionId, fid: FileId, token: Token, ip: PeerIp)
    requires EndingInv(s) && u !in s.uploads && UploadAdmitted(s.slot, sid, fid, token, ip)
    ensures EndingInv(DoClaimUpload(s, u, sid, fid))
  {
    hide Reported;
  }

  lemma FinalizeKeepsEnding(s: State, u: nat)
    requires EndingInv(s) && Finalizing(s, u)
    ensures EndingInv(DoFinalize(s, u))
  {
    FinalizeKeepsActiveUntil(s, u);
    FinalizeKeepsReported(s, u);
    hide ActiveUntilEnded, OffersNonempty, EndsReported, AfterFinalize, EndsSession;
  }

  lemma FinalizeKeepsActiveUntil(s: State, u: nat)
    requires ActiveUntilEnded(s.slot, s.accepted, s.ends) && Finalizing(s, u)
    ensures var t := DoFinalize(s, u); ActiveUntilEnded(t.slot, t.accepted, t.ends)
  {
  }

  lemma FinalizeKeepsReported(s: State, u: nat)
    requires EndsReported(s.ends, s.uploads, s.cancels, s.events) && Finalizing(s, u)
    ensures var t := DoFinalize(s, u); EndsReported(t.ends, t.uploads, t.cancels, t.events)
  {
    hide Reported, EndsSession, AfterFinalize;
  }

  lemma ReportKeepsReported(s: State, u: nat)
    requires EndsReported(s.ends, s.uploads, s.cancels, s.events) && ClosingAt(s, u)
    ensures var t := ApplyUpload(s, u, ReportFinished); EndsReported(t.ends, t.uploads, t.cancels, t.events)
  {
    hide Reported;
    var event := SessionEnd(s.uploads[u].sid, AllFilesDone);
    forall sid ensures Reported(s.events + [event], sid) <==> Reported(s.events, sid) || sid == s.uploads[u].sid {
      ReportedGrows(s.events, event, sid);
    }
  }

  lemma AnnounceKeepsEnding(s: State, u: nat)
    requires EndingInv(s) && UploadAt(s, u, Claimed)
    ensures EndingInv(ApplyUpload(s, u, AnnounceUpload))
  {
    hide ActiveUntilEnded, OffersNonempty, EndsReported;
    MoveKeepsReported(s, u, Receiving);
    AppendKeepsReported(s.ends, WithUpload(s, u, Receiving).uploads, s.cancels, s.events,
                        FileUpload(s.uploads[u].sid, s.uploads[u].fid, u));
  }

  lemma UploadKeepsEnding(s: State, u: nat, step: UploadStep)
    requires EndingInv(s)
    ensures EndingInv(ApplyUpload(s, u, step))
  {
    hide ActiveUntilEnded, OffersNonempty, EndsReported, DoClaimUpload, DoFinalize, UploadAdmitted;
    match step {
      case ClaimUpload(sid, fid, token, ip) =>
        if u !in s.uploads && UploadAdmitted(s.slot, sid, fid, token, ip) {
          ClaimKeepsEnding(s, u, sid, fid, token, ip);
        }
      case AnnounceUpload => if UploadAt(s, u, Claimed) { AnnounceKeepsEnding(s, u); }
      case FinishUpload(result) =>
        if UploadAt(s, u, Receiving) || UploadAt(s, u, Claimed) { MoveKeepsReported(s, u, Finishing(result)); }
      case DropUpload => if UploadAt(s, u, Receiving) || UploadAt(s, u, Claimed) { MoveKeepsReported(s, u, Dropped); }
      case DropInFinish =>
        if u in s.uploads && s.uploads[u].pc.Finishing? { MoveKeepsReported(s, u, Lost(s.uploads[u].pc.result)); }
      case Finalize => if Finalizing(s, u) { FinalizeKeepsEnding(s, u); }
      case DropInReport => if ClosingAt(s, u) { MoveKeepsReported(s, u, Unreported); }
      case ReportFinished => if ClosingAt(s, u) { ReportKeepsReported(s, u); }
    }
  }

  // Cancel handlers

  lemma BeginKeepsEnding(s: State, c: nat, ip: PeerIp, id: Option<SessionId>)
    requires EndingInv(s) && c !in s.cancels
    ensures EndingInv(DoBeginCancel(s, c, ip, id))
  {
    hide Reported;
  }

  lemma CancelActiveKeepsEnding(s: State, c: nat)
    requires EndingInv(s) && c in s.cancels && s.cancels[c].CheckingActive?
    ensures EndingInv(DoCancelActive(s, c))
  {
    hide Reported;
  }

  lemma SendKeepsEnding(s: State, c: nat, event: Event)
    requires EndingInv(s) && c in s.cancels && !s.cancels[c].Unnotified?
    requires s.cancels[c].Notifying? ==> IsEndOf(event, s.cancels[c].id)
    ensures EndingInv(Send(s.(cancels := s.cancels[c := Notified]), event))
  {
    hide Reported;
    forall sid ensures Reported(s.events + [event], sid) <==> Reported(s.events, sid) || IsEndOf(event, sid) {
      ReportedGrows(s.events, event, sid);
    }
  }

  lemma MuteKeepsEnding(s: State, c: nat)
    requires EndingInv(s) && c in s.cancels && s.cancels[c].Notifying?
    ensures EndingInv(s.(cancels := s.cancels[c := Unnotified]))
  {
    hide Reported;
  }

  lemma CancelKeepsEnding(s: State, c: nat, step: CancelStep)
    requires EndingInv(s)
    ensures EndingInv(ApplyCancel(s, c, step))
  {
    hide EndingInv, DoBeginCancel, DoCancelActive, Send;
    match step {
      case BeginCancel(ip, id) => if c !in s.cancels { BeginKeepsEnding(s, c, ip, id); }
      case CancelActiveSession => if c in s.cancels && s.cancels[c].CheckingActive? { CancelActiveKeepsEnding(s, c); }
      case ReportCancel =>
        if c in s.cancels && s.cancels[c].Notifying? {
          SendKeepsEnding(s, c, SessionEnd(s.cancels[c].id, CancelledBySender));
        } else if c in s.cancels && s.cancels[c].Forwarding? {
          SendKeepsEnding(s, c, CancelReceived(s.cancels[c].id, s.cancels[c].ip));
        }
      case DropInNotify => if c in s.cancels && s.cancels[c].Notifying? { MuteKeepsEnding(s, c); }
    }
  }

  lemma ApplicationKeepsEnding(s: State, id: SessionId)
    requires EndingInv(s)
    ensures EndingInv(Apply(s, CancelByApplication(id)))
  {
    hide Reported;
  }

  lemma StepKeepsEnding(s: State, step: Step)
    requires Inv(s) && EndingInv(s)
    ensures EndingInv(Apply(s, step))
  {
    assert SlotOwned(s.slot, s.prepares);
    hide Inv, EndingInv, SlotOwned, ApplyPrepare, ApplyUpload, ApplyCancel;
    match step {
      case Prepare(sid, prepare) => PrepareKeepsEnding(s, sid, prepare);
      case Upload(u, upload) => UploadKeepsEnding(s, u, upload);
      case Cancel(c, cancel) => CancelKeepsEnding(s, c, cancel);
      case CancelByApplication(id) => ApplicationKeepsEnding(s, id);
    }
  }

  lemma {:induction false} ReachableEnding(run: seq<Step>)
    ensures EndingInv(After(run))
    decreases |run|
  {
    if run != [] {
      ReachableEnding(run[..|run| - 1]);
      ReachableInv(run[..|run| - 1]);
      hide Inv, EndingInv, Apply;
      StepKeepsEnding(After(run[..|run| - 1]), run[|run| - 1]);
    }
  }

  // Sessions that can be reported

  /** The session is being decided or accepted, is active, or was ended by something that reports it or did. */
  predicate Continues(s: State, sid: SessionId) {
    if sid in s.ends then !s.ends[sid].ByApplication? && !ReportLost(s.ends[sid], s.uploads, s.cancels)
    else
      || sid in s.accepted
      || (sid in s.prepares && (s.prepares[sid].pc.Deciding? || s.prepares[sid].pc.Accepting?))
  }

  /** Steps that need nothing from the application but, while it is asked, the acceptance of the session. */
  predicate Plain(step: Step, sid: SessionId, offered: map<FileId, FileDto>, asked: bool) {
    match step
    case Prepare(id, Decide(decision, _)) => asked && id == sid && decision == Accept(offered.Keys)
    case Prepare(_, _) => true
    case Upload(_, upload) => upload.ReportFinished?
    case Cancel(_, _) => true
    case CancelByApplication(_) => false
  }

  predicate AllPlain(steps: seq<Step>, sid: SessionId, offered: map<FileId, FileDto>, asked: bool) {
    forall i :: 0 <= i < |steps| ==> Plain(steps[i], sid, offered, asked)
  }

  lemma {:induction false} ReportNow(s: State, step: Step, sid: SessionId)
    requires sid in s.ends && AboutToReport(s.ends[sid], sid, s.uploads, s.cancels)
    requires match s.ends[sid]
      case ByUpload(u) => step == Upload(u, ReportFinished)
      case ByCancel(c) => step == Cancel(c, ReportCancel)
      case ByApplication => false
    ensures Reported(Apply(s, step).events, sid)
  {
    var t := Apply(s, step);
    assert t.events == s.events + [t.events[|t.events| - 1]] && IsEndOf(t.events[|s.events|], sid);
  }

  lemma {:induction false} CancelActiveNow(s: State, sid: SessionId, c: nat)
    requires s.slot.IsActive(sid) && c !in s.cancels
    ensures var asked := Apply(s, Cancel(c, BeginCancel(s.slot.session.senderIp, Some(sid))));
      var t := Apply(asked, Cancel(c, CancelActiveSession));
      && sid in t.ends && t.ends[sid] == ByCancel(c) && AboutToReport(t.ends[sid], sid, t.uploads, t.cancels)
  {
  }

  lemma {:induction false} ReportActive(s: State, sid: SessionId, offered: map<FileId, FileDto>, asked: bool)
    returns (steps: seq<Step>)
    requires s.slot.IsActive(sid)
    ensures Reported(RunFrom(s, steps).events, sid) && AllPlain(steps, sid, offered, asked)
  {
    var c := LargerThan(s.cancels.Keys);
    var begin := Cancel(c, BeginCancel(s.slot.session.senderIp, Some(sid)));
    var end, report := Cancel(c, CancelActiveSession), Cancel(c, ReportCancel);
    CancelActiveNow(s, sid, c);
    hide RunFrom, Apply, Reported;
    var begun := Apply(s, begin);
    var ended := Apply(begun, end);
    ReportNow(ended, report, sid);
    RunOne(ended, report);
    RunFirst(begun, end, [report]);
    RunFirst(s, begin, [end] + [report]);
    steps := [begin] + ([end] + [report]);
  }

  lemma {:induction false} ActivateNow(s: State, sid: SessionId)
    requires sid in s.prepares && s.prepares[sid].pc.Accepting?
    ensures Apply(s, Prepare(sid, Activate)).slot.IsActive(sid)
  {
  }

  lemma {:induction false} ReportAccepting(s: State, sid: SessionId, offered: map<FileId, FileDto>, asked: bool)
    returns (steps: seq<Step>)
    requires sid in s.prepares && s.prepares[sid].pc.Accepting?
    ensures Reported(RunFrom(s, steps).events, sid) && AllPlain(steps, sid, offered, asked)
  {
    hide RunFrom, Apply, Reported;
    var step := Prepare(sid, Activate);
    ActivateNow(s, sid);
    var more := ReportActive(Apply(s, step), sid, offered, asked);
    RunFirst(s, step, more);
    steps := [step] + more;
  }

  lemma {:induction false} DecideNow(s: State, sid: SessionId)
    requires PrepareAt(s, sid, Deciding) && s.prepares[sid].offered != map[]
    ensures var offered := s.prepares[sid].offered;
      var t := Apply(s, Prepare(sid, Decide(Accept(offered.Keys), BlankTokens(offered))));
      sid in t.prepares && t.prepares[sid].pc.Accepting?
  {
    var offered := s.prepares[sid].offered;
    var files := AcceptedFiles(offered, offered.Keys, BlankTokens(offered));
    assert files.Keys == offered.Keys && files != map[];
  }

  lemma {:induction false} ReportDeciding(s: State, sid: SessionId) returns (steps: seq<Step>)
    requires PrepareAt(s, sid, Deciding) && s.prepares[sid].offered != map[]
    ensures Reported(RunFrom(s, steps).events, sid) && AllPlain(steps, sid, s.prepares[sid].offered, true)
  {
    hide RunFrom, Apply, Reported;
    var offered := s.prepares[sid].offered;
    var step := Prepare(sid, Decide(Accept(offered.Keys), BlankTokens(offered)));
    DecideNow(s, sid);
    var more := ReportAccepting(Apply(s, step), sid, offered, true);
    RunFirst(s, step, more);
    steps := [step] + more;
  }

  /** A session that continues can still be reported as ended. */
  lemma {:induction false} ReportSession(s: State, sid: SessionId) returns (steps: seq<Step>)
    requires EndingInv(s) && Continues(s, sid) && sid in s.prepares
    ensures Reported(RunFrom(s, steps).events, sid)
    ensures AllPlain(steps, sid, s.prepares[sid].offered, s.prepares[sid].pc.Deciding?)
  {
    var offered := s.prepares[sid].offered;
    if Reported(s.events, sid) {
      steps := [];
    } else if sid in s.ends {
      hide Reported, RunFrom, Apply;
      steps := [if s.ends[sid].ByUpload? then Upload(s.ends[sid].request, ReportFinished)
                else Cancel(s.ends[sid].handler, ReportCancel)];
      ReportNow(s, steps[0], sid);
      RunOne(s, steps[0]);
    } else if sid in s.accepted {
      steps := ReportActive(s, sid, offered, false);
    } else if s.prepares[sid].pc.Accepting? {
      steps := ReportAccepting(s, sid, offered, false);
    } else {
      steps := ReportDeciding(s, sid);
    }
  }

  // Sessions that cannot

  lemma NoReportOutsideEnds(s: State, sid: SessionId)
    requires LogEnds(s.events, s.ends, s.uploads, s.cancels)
    requires sid in s.ends ==> s.ends[sid].ByApplication? || ReportLost(s.ends[sid], s.uploads, s.cancels)
    ensures !Reported(s.events, sid)
  {
    forall i | 0 <= i < |s.events| ensures !IsEndOf(s.events[i], sid) {
      assert EndEventSound(s.events[i], s.ends, s.uploads, s.cancels);
    }
  }

  /** The handler will not activate the session any more. */
  predicate PastAccepting(pc: PreparePc) {
    !pc.Announcing? && !pc.Deciding? && !pc.Accepting?
  }

  predicate Stuck(s: State, sid: SessionId) {
    && sid in s.prepares
    && if sid in s.ends then s.ends[sid].ByApplication? || ReportLost(s.ends[sid], s.uploads, s.cancels)
       else sid !in s.accepted && PastAccepting(s.prepares[sid].pc)
  }

  lemma PrepareKeepsStuck(s: State, id: SessionId, step: PrepareStep, sid: SessionId)
    requires Stuck(s, sid) && (sid in s.accepted ==> s.prepares[sid].pc.Ended?)
    ensures Stuck(ApplyPrepare(s, id, step), sid)
  {
  }

  lemma UploadKeepsStuck(s: State, u: nat, step: UploadStep, sid: SessionId)
    requires Stuck(s, sid) && (s.slot.IsActive(sid) ==> sid in s.accepted && sid !in s.ends)
    ensures Stuck(ApplyUpload(s, u, step), sid)
  {
    hide AfterFinalize, Settled;
  }

  lemma CancelKeepsStuck(s: State, c: nat, step: CancelStep, sid: SessionId)
    requires Stuck(s, sid) && (s.slot.IsActive(sid) ==> sid in s.accepted && sid !in s.ends)
    ensures Stuck(ApplyCancel(s, c, step), sid)
  {
  }

  lemma StuckParts(s: State, sid: SessionId)
    requires Inv(s)
    ensures s.slot.IsActive(sid) ==> sid in s.accepted && sid !in s.ends
    ensures sid in s.accepted ==> sid in s.prepares && s.prepares[sid].pc.Ended?
    ensures LogEnds(s.events, s.ends, s.uploads, s.cancels)
  {
    hide LogEnds;
  }

  /** Once stuck, a session is never reported. */
  lemma StepKeepsStuck(s: State, step: Step, sid: SessionId)
    requires Inv(s) && Stuck(s, sid)
    ensures Stuck(Apply(s, step), sid)
  {
    hide Inv, Stuck, ApplyPrepare, ApplyUpload, ApplyCancel;
    StuckParts(s, sid);
    match step {
      case Prepare(id, prepare) => PrepareKeepsStuck(s, id, prepare, sid);
      case Upload(u, upload) => UploadKeepsStuck(s, u, upload, sid);
      case Cancel(c, cancel) => CancelKeepsStuck(s, c, cancel, sid);
      case CancelByApplication(id) => ApplicationKeepsStuck(s, id, sid);
    }
  }

  lemma ApplicationKeepsStuck(s: State, id: SessionId, sid: SessionId)
    requires Stuck(s, sid)
    ensures Stuck(Apply(s, CancelByApplication(id)), sid)
  {
  }

  lemma {:induction false} RunKeepsStuck(s: State, run: seq<Step>, sid: SessionId)
    requires Inv(s) && Stuck(s, sid)
    ensures Inv(RunFrom(s, run)) && Stuck(RunFrom(s, run), sid)
    decreases |run|
  {
    hide Inv, Stuck, Apply;
    if run != [] {
      RunKeepsStuck(s, run[..|run| - 1], sid);
      StepKeepsInv(RunFrom(s, run[..|run| - 1]), run[|run| - 1]);
      StepKeepsStuck(RunFrom(s, run[..|run| - 1]), run[|run| - 1], sid);
    }
  }

  lemma StuckIsUnreported(s: State, sid: SessionId)
    requires Inv(s) && Stuck(s, sid)
    ensures !Reported(s.events, sid)
  {
    hide Inv, Reported;
    StuckParts(s, sid);
    NoReportOutsideEnds(s, sid);
  }

  /**
   * An announced session can be, or was, reported as ended exactly if it
   * continues: its request was not given up before it became active, and the
   * application did not end it.
   */
  lemma {:induction false} CanBeReportedIff(run: seq<Step>, sid: SessionId)
    requires sid in After(run).prepares && !After(run).prepares[sid].pc.Announcing?
    ensures (exists rest :: Reported(RunFrom(After(run), rest).events, sid)) <==> Continues(After(run), sid)
  {
    var s := After(run);
    ReachableInv(run);
    ReachableEnding(run);
    hide After, Inv, EndingInv, RunFrom, Reported;
    if Continues(s, sid) {
      var rest := ReportSession(s, sid);
    } else {
      forall rest ensures !Reported(RunFrom(s, rest).events, sid) {
        RunKeepsStuck(s, rest, sid);
        StuckIsUnreported(RunFrom(s, rest), sid);
      }
    }
  }

  // Runs that lose the report

  /** The sender cancels the session, and its request is dropped while the end is reported. */
  function MutedCancelRun(sid: SessionId, ip: PeerIp, offered: map<FileId, FileDto>): seq<Step> {
    AcceptRun(sid, ip, offered)
    + [Cancel(0, BeginCancel(ip, Some(sid)))] + [Cancel(0, CancelActiveSession)] + [Cancel(0, DropInNotify)]
  }

  lemma {:induction false} MuteCancel(s: State, sid: SessionId, ip: PeerIp)
    requires s.slot.IsActive(sid) && s.slot.session.senderIp == ip && 0 !in s.cancels
    ensures var asked := Apply(s, Cancel(0, BeginCancel(ip, Some(sid))));
      var ended := Apply(asked, Cancel(0, CancelActiveSession));
      var t := Apply(ended, Cancel(0, DropInNotify));
      t.slot.NoSession? && !Continues(t, sid) && t.prepares == s.prepares
  {
    var asked := Apply(s, Cancel(0, BeginCancel(ip, Some(sid))));
    assert 0 in asked.cancels && asked.cancels[0] == CheckingActive(ip, sid) && asked.slot == s.slot;
    var ended := Apply(asked, Cancel(0, CancelActiveSession));
    assert 0 in ended.cancels && ended.cancels[0] == Notifying(sid);
  }

  /** Any accepted session can end without the application ever being told. */
  lemma {:induction false} CancelReportIsLost(sid: SessionId, ip: PeerIp, offered: map<FileId, FileDto>)
    requires offered != map[]
    ensures var s := After(MutedCancelRun(sid, ip, offered)); s.slot.NoSession? && !Continues(s, sid)
  {
    var run := AcceptRun(sid, ip, offered);
    var begin := Cancel(0, BeginCancel(ip, Some(sid)));
    var end, drop := Cancel(0, CancelActiveSession), Cancel(0, DropInNotify);
    AcceptRunActivates(sid, ip, offered);
    OneMore(run, begin);
    OneMore(run + [begin], end);
    OneMore(run + [begin] + [end], drop);
    hide After, Apply, Continues;
    MuteCancel(After(run), sid, ip);
  }

  /** The only file of a session is saved, and its request is dropped while the end is reported. */
  function MutedFinishRun(sid: SessionId, ip: PeerIp, fid: FileId, dto: FileDto): seq<Step> {
    UploadRun(sid, ip, map[fid := dto], fid)
    + [Upload(0, FinishUpload(Success))] + [Upload(0, Finalize)] + [Upload(0, DropInReport)]
  }

  lemma {:induction false} FinalizeLast(s: State, sid: SessionId, fid: FileId)
    requires UploadAt(s, 0, Finishing(Success)) && s.uploads[0].sid == sid && s.uploads[0].fid == fid
    requires s.slot.IsActive(sid) && s.slot.session.files.Keys == {fid} && s.slot.session.files[fid].status.InProgress?
    ensures var t := Apply(s, Upload(0, Finalize));
      && t.slot.NoSession? && UploadAt(t, 0, Closing(false))
      && sid in t.ends && t.ends[sid] == ByUpload(0)
  {
  }

  lemma {:induction false} FinishReportIsLost(sid: SessionId, ip: PeerIp, fid: FileId, dto: FileDto)
    ensures var s := After(MutedFinishRun(sid, ip, fid, dto)); s.slot.NoSession? && !Continues(s, sid)
  {
    var run := UploadRun(sid, ip, map[fid := dto], fid);
    var finish, finalize, drop := Upload(0, FinishUpload(Success)), Upload(0, Finalize), Upload(0, DropInReport);
    UploadRunReceives(sid, ip, map[fid := dto], fid);
    OneMore(run, finish);
    OneMore(run + [finish], finalize);
    OneMore(run + [finish] + [finalize], drop);
    hide After;
    var s := After(run + [finish]);
    assert UploadAt(s, 0, Finishing(Success)) && s.slot == After(run).slot;
    FinalizeLast(s, sid, fid);
  }
}
