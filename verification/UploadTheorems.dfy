/** What holds of the upload protocol in every run, under every interleaving and every dropped request. */
module UploadTheorems {
  import opened Wrappers
  import opened Sums
  import opened Session
  import opened UploadProtocol
  import opened UploadInvariants

  // The slot

  ghost predicate OwnsSlot(s: State, sid: SessionId) {
    sid in s.prepares && Owns(s.prepares[sid].pc)
  }

  /** A pending slot belongs to exactly one prepare-upload request, and nothing owns any other slot. */
  lemma PendingSlotHasOneOwner(run: seq<Step>, sid: SessionId)
    ensures var s := After(run);
      OwnsSlot(s, sid) <==> s.slot.PendingSession? && s.slot.sid == sid
  {
    ReachableInv(run);
  }

  /**
   * Only the steps of its own request take a pending session out of the slot,
   * although neither the clearing nor the accepting block looks at the id.
   * Only its own uploads and cancels addressed to it touch an active session.
   */
  lemma SlotChangesOnlyByItsOwner(run: seq<Step>, step: Step)
    ensures var s, t := After(run), Apply(After(run), step);
      t.slot == s.slot || MayTouch(s, t, step)
  {
    ReachableInv(run);
    hide *;
    StepTouchesOwnSlot(After(run), step);
  }

  /** The step that may change the slot `s` holds. */
  predicate MayTouch(s: State, t: State, step: Step) {
    match s.slot
    case NoSession => true
    case PendingSession(sid, _) => step.Prepare? && step.sid == sid
    case ActiveSession(session) =>
      match step
      case Prepare(_, _) => false
      case Upload(u, _) => u in t.uploads && t.uploads[u].sid == session.sid
      case Cancel(c, _) => c in s.cancels && s.cancels[c] == CheckingActive(session.senderIp, session.sid)
      case CancelByApplication(id) => id == session.sid
  }

  lemma StepTouchesOwnSlot(s: State, step: Step)
    requires Inv(s)
    ensures Apply(s, step).slot == s.slot || MayTouch(s, Apply(s, step), step)
  {
    hide Inv, SlotOwned, ApplyPrepare, ApplyUpload, ApplyCancel;
    SlotPart(s);
    match step {
      case Prepare(sid, prepare) => PrepareTouchesOwnSlot(s, sid, prepare);
      case Upload(u, upload) => UploadTouchesOwnSlot(s, u, upload);
      case Cancel(c, cancel) => CancelTouchesOwnSlot(s, c, cancel);
      case CancelByApplication(_) =>
    }
  }

  lemma SlotPart(s: State)
    requires Inv(s)
    ensures SlotOwned(s.slot, s.prepares)
  {
  }

  lemma BeginCancelLeavesSlot(s: State, c: nat, ip: PeerIp, id: Option<SessionId>)
    ensures DoBeginCancel(s, c, ip, id).slot == s.slot
  {
  }

  lemma CancelTouchesOwnSlot(s: State, c: nat, step: CancelStep)
    ensures var t := ApplyCancel(s, c, step);
      t.slot == s.slot ||
      (s.slot.ActiveSession? && c in s.cancels
       && s.cancels[c] == CheckingActive(s.slot.session.senderIp, s.slot.session.sid))
  {
    hide DoBeginCancel;
    if step.BeginCancel? {
      BeginCancelLeavesSlot(s, c, step.ip, step.id);
    }
  }

  lemma UploadTouchesOwnSlot(s: State, u: nat, step: UploadStep)
    ensures var t := ApplyUpload(s, u, step);
      t.slot == s.slot || (u in t.uploads && s.slot.IsActive(t.uploads[u].sid))
  {
  }

  lemma PrepareTouchesOwnSlot(s: State, sid: SessionId, step: PrepareStep)
    requires SlotOwned(s.slot, s.prepares)
    ensures var t := ApplyPrepare(s, sid, step);
      t.slot != s.slot ==> s.slot.NoSession? || (s.slot.PendingSession? && s.slot.sid == sid)
  {
    if sid in s.prepares && Owns(s.prepares[sid].pc) {
      assert s.slot.sid == sid;
    }
  }

  // Leaks

  lemma PrepareLeavesOthers(s: State, sid: SessionId, step: PrepareStep, other: SessionId)
    requires other in s.prepares && (other != sid || s.prepares[other].pc.Leaked?)
    ensures other in ApplyPrepare(s, sid, step).prepares
    ensures ApplyPrepare(s, sid, step).prepares[other] == s.prepares[other]
  {
  }

  lemma LeakStaysOneStep(s: State, sid: SessionId, step: Step)
    requires PrepareAt(s, sid, Leaked)
    ensures sid in Apply(s, step).prepares && Apply(s, step).prepares[sid] == s.prepares[sid]
  {
    hide ApplyPrepare, ApplyUpload;
    match step {
      case Prepare(other, prepare) => PrepareLeavesOthers(s, other, prepare, sid);
      case Upload(u, upload) => UploadLeavesPrepares(s, u, upload);
      case Cancel(_, _) =>
      case CancelByApplication(_) =>
    }
  }

  lemma {:induction false} LeakStays(s: State, sid: SessionId, run: seq<Step>)
    requires PrepareAt(s, sid, Leaked)
    ensures sid in RunFrom(s, run).prepares && RunFrom(s, run).prepares[sid] == s.prepares[sid]
    decreases |run|
  {
    if run != [] {
      LeakStays(s, sid, run[..|run| - 1]);
      LeakStaysOneStep(RunFrom(s, run[..|run| - 1]), sid, run[|run| - 1]);
    }
  }

  /** A request dropped inside clear() blocks the slot in every continuation. */
  lemma {:induction false} LeakBlocksSlotForever(run: seq<Step>, sid: SessionId, rest: seq<Step>)
    requires PrepareAt(After(run), sid, Leaked)
    ensures RunFrom(After(run), rest).slot == After(run).slot
    ensures After(run).slot == PendingSession(sid, After(run).prepares[sid].ip)
  {
    ReachableInv(run);
    var s := After(run);
    LeakStays(s, sid, rest);
    RunKeepsInv(s, rest);
  }

  /** The continuation that frees a pending slot whose request did not leak it. */
  function Release(s: State): seq<Step>
    requires s.slot.PendingSession? && s.slot.sid in s.prepares
  {
    var sid := s.slot.sid;
    match s.prepares[sid].pc
    case Clearing => [Prepare(sid, ClearSlot)]
    case Deferred => [Prepare(sid, DeferredClear)]
    case _ => [Prepare(sid, DropPrepare), Prepare(sid, DeferredClear)]
  }

  /** A drop inside clear() is the only way to leak the slot: every other pending slot can still be freed. */
  lemma PendingSlotFreeableIffNotLeaked(run: seq<Step>)
    requires After(run).slot.PendingSession?
    ensures var s := After(run);
      (exists rest :: RunFrom(s, rest).slot.NoSession?) <==> !PrepareAt(s, s.slot.sid, Leaked)
  {
    ReachableInv(run);
    var s := After(run);
    var sid := s.slot.sid;
    if PrepareAt(s, sid, Leaked) {
      forall rest ensures !RunFrom(s, rest).slot.NoSession? {
        LeakBlocksSlotForever(run, sid, rest);
      }
    } else {
      ReleaseFrees(s);
      assert RunFrom(s, Release(s)).slot.NoSession?;
    }
  }

  lemma {:induction false} ReleaseFrees(s: State)
    requires s.slot.PendingSession? && OwnsSlot(s, s.slot.sid) && !PrepareAt(s, s.slot.sid, Leaked)
    ensures RunFrom(s, Release(s)).slot.NoSession?
  {
    var rest := Release(s);
    if |rest| == 1 {
      assert rest[..0] == [];
    } else {
      assert rest[..1] == [Prepare(s.slot.sid, DropPrepare)];
      assert rest[..1][..0] == [];
      assert RunFrom(s, rest[..1]) == Apply(s, rest[0]);
    }
  }

  lemma UploadLeavesLost(s: State, u: nat, step: UploadStep, lost: nat)
    requires lost in s.uploads && s.uploads[lost].pc.Lost?
    ensures lost in ApplyUpload(s, u, step).uploads
    ensures ApplyUpload(s, u, step).uploads[lost] == s.uploads[lost]
  {
  }

  lemma LossStaysOneStep(s: State, u: nat, step: Step)
    requires u in s.uploads && s.uploads[u].pc.Lost?
    ensures u in Apply(s, step).uploads && Apply(s, step).uploads[u] == s.uploads[u]
  {
    hide ApplyPrepare, ApplyUpload;
    match step {
      case Prepare(sid, prepare) => PrepareLeavesUploads(s, sid, prepare);
      case Upload(v, upload) => UploadLeavesLost(s, v, upload, u);
      case Cancel(_, _) =>
      case CancelByApplication(_) =>
    }
  }

  lemma {:induction false} LossStays(s: State, u: nat, run: seq<Step>)
    requires u in s.uploads && s.uploads[u].pc.Lost?
    ensures u in RunFrom(s, run).uploads && RunFrom(s, run).uploads[u] == s.uploads[u]
    decreases |run|
  {
    if run != [] {
      LossStays(s, u, run[..|run| - 1]);
      LossStaysOneStep(RunFrom(s, run[..|run| - 1]), u, run[|run| - 1]);
    }
  }

  /**
   * A request dropped inside finish() keeps its file in progress for as long
   * as the session lives, so the session never reports that all files are done.
   */
  lemma {:induction false} LostOutcomeKeepsSessionOpen(run: seq<Step>, u: nat, rest: seq<Step>)
    requires u in After(run).uploads && After(run).uploads[u].pc.Lost?
    ensures var handler, t := After(run).uploads[u], RunFrom(After(run), rest);
      && SessionEnd(handler.sid, AllFilesDone) !in t.events
      && (t.slot.IsActive(handler.sid) ==>
            handler.fid in t.slot.session.files && t.slot.session.files[handler.fid].status.InProgress?)
  {
    ReachableInv(run);
    var s, t := After(run), RunFrom(After(run), rest);
    LossStays(s, u, rest);
    RunKeepsInv(s, rest);
    LostIsOpen(t, u);
  }

  lemma LostIsOpen(t: State, u: nat)
    requires Inv(t) && u in t.uploads && t.uploads[u].pc.Lost?
    ensures SessionEnd(t.uploads[u].sid, AllFilesDone) !in t.events
    ensures t.slot.IsActive(t.uploads[u].sid) ==>
      && t.uploads[u].fid in t.slot.session.files
      && t.slot.session.files[t.uploads[u].fid].status.InProgress?
  {
    var sid := t.uploads[u].sid;
    if t.slot.IsActive(sid) {
      FinalizerOwnsFile(t, u);
    }
    forall i | 0 <= i < |t.events| ensures t.events[i] != SessionEnd(sid, AllFilesDone) {
      assert EndEventSound(t.events[i], t.ends, t.uploads, t.cancels);
    }
  }

  // Events

  /** The events of one session, in the order the application receives them. */
  ghost predicate WellFormedLog(events: seq<Event>) {
    // An upload is announced only after the request it belongs to.
    && (forall j :: 0 <= j < |events| && events[j].FileUpload? ==> AnnouncedBefore(events, events[j].sid, j))
    // A session ends at most once, for one reason.
    && (forall i, j :: 0 <= i < j < |events| && events[i].SessionEnd? && events[j].SessionEnd? ==>
          events[i].sid != events[j].sid)
    // Nothing follows the end of a session whose files are all done.
    && (forall i, j :: 0 <= i < j < |events| && events[i].SessionEnd? && events[i].reason.AllFilesDone? ==>
          events[j].CancelReceived? || events[j].sid != events[i].sid)
    // An aborted request never becomes a session.
    && (forall i, j :: 0 <= i < |events| && 0 <= j < |events| && events[i].PrepareUploadAborted? ==>
          !((events[j].FileUpload? || events[j].SessionEnd?) && events[i].sid == events[j].sid))
    // A request is announced once and aborted once at most.
    && (forall i, j :: 0 <= i < j < |events| && events[i].sid == events[j].sid ==>
          !(events[i].PrepareUpload? && events[j].PrepareUpload?)
          && !(events[i].PrepareUploadAborted? && events[j].PrepareUploadAborted?))
  }

  ghost predicate AnnouncedBefore(events: seq<Event>, sid: SessionId, j: nat)
    requires j <= |events|
  {
    exists i :: 0 <= i < j && events[i].PrepareUpload? && events[i].sid == sid
  }

  lemma NoRequestFollows(events: seq<Event>, j: nat, i: nat)
    requires LogOrdered(events) && j < i < |events|
    requires events[j].FileUpload? && events[i].sid == events[j].sid
    ensures !events[i].PrepareUpload?
  {
    assert MayPrecede(events[j], events[i]);
  }

  lemma UploadsAreAnnounced(s: State, j: nat)
    requires Inv(s) && j < |s.events| && s.events[j].FileUpload?
    ensures AnnouncedBefore(s.events, s.events[j].sid, j)
  {
    hide ActiveSound, DtosSound, ProgressOwned, FinishedQuiet, SuccessSound, FinishedSaved, AttemptsBounded;
    hide SlotOwned;
    var sid := s.events[j].sid;
    assert UploadEventSound(s.events[j], s.uploads);
    assert sid in s.accepted;
    var i :| 0 <= i < |s.events| && s.events[i] == PrepareUpload(sid, s.prepares[sid].offered);
    hide LogOrdered;
    if j < i {
      NoRequestFollows(s.events, j, i);
    }
  }

  /** Over every run the application sees a well-formed event log. */
  lemma EventLogWellFormed(run: seq<Step>)
    ensures WellFormedLog(After(run).events)
  {
    ReachableInv(run);
    var s := After(run);
    forall j | 0 <= j < |s.events| && s.events[j].FileUpload? ensures AnnouncedBefore(s.events, s.events[j].sid, j) {
      UploadsAreAnnounced(s, j);
    }
    OrderedIsWellFormed(s);
  }

  lemma OrderedIsWellFormed(s: State)
    requires LogOrdered(s.events)
    requires forall j :: 0 <= j < |s.events| && s.events[j].FileUpload? ==>
      AnnouncedBefore(s.events, s.events[j].sid, j)
    ensures WellFormedLog(s.events)
  {
    forall i, j | 0 <= i < |s.events| && 0 <= j < |s.events| && s.events[i].PrepareUploadAborted?
      ensures !((s.events[j].FileUpload? || s.events[j].SessionEnd?) && s.events[i].sid == s.events[j].sid)
    {
      if i < j {
        assert MayPrecede(s.events[i], s.events[j]);
      } else if j < i {
        assert MayPrecede(s.events[j], s.events[i]);
      }
    }
  }

  // Files

  function OutstandingFor(s: State, sid: SessionId, fid: FileId): set<nat> {
    set u | u in s.uploads && IsFor(s.uploads[u], sid, fid) && Outstanding(s.uploads[u].pc)
  }

  lemma OwnersPart(s: State)
    requires Inv(s)
    ensures UploadsSound(s.uploads, s.owner, s.accepted) && ProgressOwned(s.slot, s.uploads, s.owner)
  {
    hide UploadsSound, ProgressOwned;
  }

  lemma OwnerIsOutstanding(s: State, sid: SessionId, fid: FileId)
    requires UploadsSound(s.uploads, s.owner, s.accepted)
    ensures |OutstandingFor(s, sid, fid)| == if HasOutstanding(s.uploads, s.owner, sid, fid) then 1 else 0
  {
    if HasOutstanding(s.uploads, s.owner, sid, fid) {
      assert OutstandingFor(s, sid, fid) == {s.owner[(sid, fid)]};
    } else {
      assert OutstandingFor(s, sid, fid) == {};
    }
  }

  /** No file ever has two outstanding requests; in the active session it has one exactly while in progress. */
  lemma InProgressIffOneOutstanding(run: seq<Step>, sid: SessionId, fid: FileId)
    ensures var s := After(run);
      && |OutstandingFor(s, sid, fid)| <= 1
      && (s.slot.IsActive(sid) && fid in s.slot.session.files ==>
            (s.slot.session.files[fid].status.InProgress? <==> |OutstandingFor(s, sid, fid)| == 1))
  {
    ReachableInv(run);
    var s := After(run);
    OwnersPart(s);
    hide Inv, After, UploadsSound, HasOutstanding, OutstandingFor;
    OwnerIsOutstanding(s, sid, fid);
  }

  /**
   * Recording an outcome changes at most the file of the attempt, which is
   * still in progress because of that attempt; a session other than its own
   * is left as it is.
   */
  lemma FinalizeTouchesOwnFileOnly(run: seq<Step>, u: nat)
    requires Finalizing(After(run), u)
    ensures var s, t := After(run), Apply(After(run), Upload(u, Finalize));
      && FinalizeEffectSound(s, t, u)
      && OutstandingFor(s, s.uploads[u].sid, s.uploads[u].fid) == {u}
  {
    ReachableInv(run);
    hide Inv, FinalizeEffectSound;
    FinalizeEffect(After(run), u);
    var handler := After(run).uploads[u];
    InProgressIffOneOutstanding(run, handler.sid, handler.fid);
    OnlyElement(OutstandingFor(After(run), handler.sid, handler.fid), u);
  }

  predicate FinalizeEffectSound(s: State, t: State, u: nat)
    requires u in s.uploads
  {
    var handler := s.uploads[u];
    && (!s.slot.IsActive(handler.sid) ==> t.slot == s.slot)
    && (s.slot.IsActive(handler.sid) ==>
          && handler.fid in s.slot.session.files
          && s.slot.session.files[handler.fid].status.InProgress?
          && (!t.slot.NoSession? ==>
                && t.slot.IsActive(handler.sid)
                && t.slot.session.files - {handler.fid} == s.slot.session.files - {handler.fid}))
  }

  lemma FinalizeEffect(s: State, u: nat)
    requires Inv(s) && Finalizing(s, u)
    ensures FinalizeEffectSound(s, DoFinalize(s, u), u)
    ensures u in OutstandingFor(s, s.uploads[u].sid, s.uploads[u].fid)
  {
    hide DtosSound, FinishedQuiet, SuccessSound, FinishedSaved, AttemptsBounded, SlotOwned, LogsSound, Announced;
    hide EndsSession;
    if s.slot.IsActive(s.uploads[u].sid) {
      FinalizerOwnsFile(s, u);
    }
  }

  predicate OthersSettled(session: UploadSession, fid: FileId) {
    forall other :: other in session.files && other != fid ==>
      session.files[other].status.Finished? || session.files[other].status.Failed?
  }

  predicate OutcomeRecorded(s: State, t: State, u: nat)
    requires u in s.uploads && s.slot.ActiveSession?
  {
    var handler, outcome := s.uploads[u], PendingOutcome(s.uploads[u].pc);
    && (CanBeClaimed(t.slot, handler.sid, handler.fid) <==>
          outcome.HashMismatch? && |AttemptsOf(s.uploads, handler.sid, handler.fid)| < MAX_UPLOAD_ATTEMPTS)
    && (t.slot.NoSession? <==>
          !CanBeClaimed(t.slot, handler.sid, handler.fid) && OthersSettled(s.slot.session, handler.fid))
    && (t.slot.ActiveSession? ==>
          && handler.fid in t.slot.session.files
          && (outcome.Success? <==> t.slot.session.files[handler.fid].status.Finished?))
  }

  /**
   * After an outcome the file can be sent again exactly if its checksum did
   * not match and fewer than three requests were ever admitted for it; the
   * session ends exactly if that is not so and all other files are settled.
   */
  lemma RetryIffMismatch(run: seq<Step>, u: nat)
    requires Finalizing(After(run), u) && After(run).slot.IsActive(After(run).uploads[u].sid)
    ensures OutcomeRecorded(After(run), Apply(After(run), Upload(u, Finalize)), u)
  {
    ReachableInv(run);
    hide After, Inv, OutcomeRecorded, DoFinalize;
    RetryStep(After(run), u);
  }

  lemma RetryStep(s: State, u: nat)
    requires Inv(s) && Finalizing(s, u) && s.slot.IsActive(s.uploads[u].sid)
    ensures OutcomeRecorded(s, DoFinalize(s, u), u)
  {
    FinalizerOwnsFile(s, u);
    var handler, outcome := s.uploads[u], PendingOutcome(s.uploads[u].pc);
    assert |AttemptsOf(s.uploads, handler.sid, handler.fid)| == s.slot.session.files[handler.fid].attempts;
    hide Inv, AttemptsOf, AfterFinalize, EndsSession, OthersSettled;
    SettledMeaning(s.slot, handler.sid, handler.fid, outcome);
  }

  lemma SettledMeaning(slot: Slot, sid: SessionId, fid: FileId, outcome: SaveResult)
    requires slot.IsActive(sid) && fid in slot.session.files && slot.session.files[fid].status.InProgress?
    ensures var file := slot.session.files[fid];
      var retry := outcome.HashMismatch? && file.attempts < MAX_UPLOAD_ATTEMPTS;
      var after := AfterFinalize(slot, sid, fid, outcome);
      && (EndsSession(slot, sid, fid, outcome) <==> !retry && OthersSettled(slot.session, fid))
      && (after.NoSession? <==> EndsSession(slot, sid, fid, outcome))
      && (!after.NoSession? ==>
            && after.IsActive(sid) && fid in after.session.files
            && (after.session.files[fid].status.Pending? <==> retry)
            && (after.session.files[fid].status.Finished? <==> outcome.Success?))
  {
    var file, settled := slot.session.files[fid], Settled(slot, fid, outcome).session;
    assert settled.files == slot.session.files[fid := file.(status := FinalStatus(file, outcome))];
    CompleteIff(slot.session, fid, file.(status := FinalStatus(file, outcome)));
  }

  lemma CompleteIff(session: UploadSession, fid: FileId, file: SessionFile)
    requires fid in session.files
    ensures session.(files := session.files[fid := file]).IsComplete() <==>
      (file.status.Finished? || file.status.Failed?) && OthersSettled(session, fid)
  {
    var after := session.(files := session.files[fid := file]);
    assert after.files[fid] == file;
    forall other | other in session.files && other != fid ensures after.files[other] == session.files[other] {
    }
  }

  lemma OnlyElement(xs: set<nat>, x: nat)
    requires |xs| <= 1 && x in xs
    ensures xs == {x}
  {
    assert |xs - {x}| == 0;
  }

  /** An active session always has a file left to do, and no file is offered for a fourth attempt. */
  lemma ActiveSessionHasWork(run: seq<Step>)
    requires After(run).slot.ActiveSession?
    ensures var session := After(run).slot.session;
      && !session.IsComplete()
      && (forall fid :: fid in session.files && session.files[fid].status.Pending? ==>
            session.files[fid].attempts < MAX_UPLOAD_ATTEMPTS)
      && RemainingWork(session) > 0
  {
    ReachableInv(run);
    var session := After(run).slot.session;
    var fid :| fid in session.files && !session.files[fid].status.Finished? && !session.files[fid].status.Failed?;
    assert FileInBounds(session.files[fid]);
    var done := session.files[fid].(status := Failed);
    WorkAfterUpdate(session, fid, done);
  }

  /** While a session stays active, every change to it uses up work: admitted claims and recorded outcomes alike. */
  lemma WorkOnlyDecreases(run: seq<Step>, step: Step)
    requires After(run).slot.ActiveSession?
    requires Apply(After(run), step).slot.IsActive(After(run).slot.session.sid)
    ensures var s, t := After(run), Apply(After(run), step);
      t.slot == s.slot || RemainingWork(t.slot.session) < RemainingWork(s.slot.session)
  {
    ReachableInv(run);
    hide Inv, RemainingWork, ApplyPrepare, ApplyUpload;
    var s := After(run);
    StepTouchesOwnSlot(s, step);
    if step.Upload? {
      UploadDecreasesWork(s, step.u, step.upload);
    }
  }

  lemma UploadDecreasesWork(s: State, u: nat, step: UploadStep)
    requires Inv(s) && s.slot.ActiveSession? && ApplyUpload(s, u, step).slot.ActiveSession?
    ensures var t := ApplyUpload(s, u, step);
      t.slot == s.slot || RemainingWork(t.slot.session) < RemainingWork(s.slot.session)
  {
    hide DtosSound, FinishedQuiet, SuccessSound, FinishedSaved, AttemptsBounded, SlotOwned, LogsSound, Announced;
    hide RemainingWork;
    match step {
      case ClaimUpload(sid, fid, token, ip) =>
        if u !in s.uploads && UploadAdmitted(s.slot, sid, fid, token, ip) {
          assert FileInBounds(s.slot.session.files[fid]);
          ClaimDecreasesWork(s.slot, sid, fid, token, ip);
        }
      case Finalize =>
        if Finalizing(s, u) && s.slot.IsActive(s.uploads[u].sid) {
          FinalizerOwnsFile(s, u);
          FinalizeDecreasesWork(s.slot, s.uploads[u].fid, PendingOutcome(s.uploads[u].pc));
        }
      case _ =>
    }
  }

  function UploadsOf(s: State, sid: SessionId): set<nat> {
    set u | u in s.uploads && s.uploads[u].sid == sid
  }

  /** A session admits at most three uploads per accepted file, over its whole life. */
  lemma UploadsPerSessionBounded(run: seq<Step>, sid: SessionId)
    ensures var s := After(run);
      |UploadsOf(s, sid)| <= if sid in s.accepted then MAX_UPLOAD_ATTEMPTS * |s.accepted[sid]| else 0
  {
    ReachableInv(run);
    var s := After(run);
    assert UploadsSound(s.uploads, s.owner, s.accepted);
    if sid in s.accepted {
      BoundedByFiles(s, sid, s.accepted[sid], UploadsOf(s, sid));
    } else {
      assert UploadsOf(s, sid) == {};
    }
  }

  lemma {:induction false} BoundedByFiles(s: State, sid: SessionId, files: set<FileId>, requests: set<nat>)
    requires AttemptsBounded(s.slot, s.uploads)
    requires forall u :: u in requests ==> u in s.uploads && s.uploads[u].sid == sid && s.uploads[u].fid in files
    ensures |requests| <= MAX_UPLOAD_ATTEMPTS * |files|
    decreases |files|
  {
    if files == {} {
      assert requests == {};
    } else {
      var fid :| fid in files;
      var here := set u | u in requests && s.uploads[u].fid == fid;
      BoundedByFiles(s, sid, files - {fid}, requests - here);
      SubsetSize(here, AttemptsOf(s.uploads, sid, fid));
      assert |requests - here| == |requests| - |here|;
    }
  }
}
