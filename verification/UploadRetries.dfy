/**
 * When a file is sent more than once. `mismatched` stands for the requests that
 * ended in a checksum mismatch: a file is claimed again only after all earlier
 * requests for it did.
 */
module UploadRetries {
  import opened Wrappers
  import opened Session
  import opened UploadProtocol
  import opened UploadInvariants

  /** Every request but the latest of its file ended in a mismatch. */
  ghost predicate OnlyMismatchesSuperseded(uploads: Uploads, owner: map<FileKey, nat>, mismatched: set<nat>) {
    forall u :: u in uploads ==>
      && (uploads[u].sid, uploads[u].fid) in owner
      && (owner[(uploads[u].sid, uploads[u].fid)] == u || u in mismatched)
  }

  ghost predicate MismatchesKnown(uploads: Uploads, mismatched: set<nat>) {
    forall u :: u in uploads && uploads[u].pc == Finishing(HashMismatch) ==> u in mismatched
  }

  /** A file that can be claimed has nothing but mismatches behind it. */
  ghost predicate PendingAfterMismatch(slot: Slot, uploads: Uploads, mismatched: set<nat>) {
    forall u :: u in uploads && CanBeClaimed(slot, uploads[u].sid, uploads[u].fid) ==> u in mismatched
  }

  predicate SameFile(a: Event, b: Event) {
    a.FileUpload? && b.FileUpload? && a.sid == b.sid && a.fid == b.fid
  }

  ghost predicate LogOfRetries(events: seq<Event>, mismatched: set<nat>) {
    forall i, j :: 0 <= i < j < |events| && SameFile(events[i], events[j]) ==> events[i].request in mismatched
  }

  /** A request is announced once. */
  ghost predicate AnnouncedOnce(events: seq<Event>) {
    forall i, j :: 0 <= i < j < |events| && events[i].FileUpload? && events[j].FileUpload? ==>
      events[i].request != events[j].request
  }

  ghost predicate RetriesSound(s: State, mismatched: set<nat>) {
    && OnlyMismatchesSuperseded(s.uploads, s.owner, mismatched)
    && MismatchesKnown(s.uploads, mismatched)
    && PendingAfterMismatch(s.slot, s.uploads, mismatched)
    && LogOfRetries(s.events, mismatched)
    && AnnouncedOnce(s.events)
  }

  lemma RetriesGrow(s: State, mismatched: set<nat>, more: set<nat>)
    requires RetriesSound(s, mismatched) && mismatched <= more
    ensures RetriesSound(s, more)
  {
  }

  // Events

  lemma AppendKeepsRetryLog(events: seq<Event>, event: Event, mismatched: set<nat>)
    requires LogOfRetries(events, mismatched) && AnnouncedOnce(events)
    requires forall i :: 0 <= i < |events| && events[i].FileUpload? && event.FileUpload? ==>
      events[i].request != event.request && (SameFile(events[i], event) ==> events[i].request in mismatched)
    ensures LogOfRetries(events + [event], mismatched) && AnnouncedOnce(events + [event])
  {
  }

  lemma NoneLikeIt(s: State, u: nat, mismatched: set<nat>, i: nat)
    requires UploadAt(s, u, Claimed) && i < |s.events| && s.events[i].FileUpload?
    requires UploadsSound(s.uploads, s.owner, s.accepted) && LogUploads(s.events, s.uploads)
    requires OnlyMismatchesSuperseded(s.uploads, s.owner, mismatched)
    ensures var event := FileUpload(s.uploads[u].sid, s.uploads[u].fid, u);
      && s.events[i].request != u
      && (SameFile(s.events[i], event) ==> s.events[i].request in mismatched)
  {
    assert UploadEventSound(s.events[i], s.uploads);
    assert Outstanding(s.uploads[u].pc);
  }

  // Moves of a request

  lemma MoveKeepsRetries(s: State, u: nat, pc: UploadPc, mismatched: set<nat>)
    requires RetriesSound(s, mismatched) && u in s.uploads && (pc == Finishing(HashMismatch) ==> u in mismatched)
    ensures RetriesSound(WithUpload(s, u, pc), mismatched)
  {
  }

  lemma ClaimKeepsRetries(s: State, u: nat, sid: SessionId, fid: FileId, token: Token, ip: PeerIp, mismatched: set<nat>)
    requires RetriesSound(s, mismatched) && u !in s.uploads && UploadAdmitted(s.slot, sid, fid, token, ip)
    ensures RetriesSound(DoClaimUpload(s, u, sid, fid), mismatched)
  {
  }

  lemma AnnounceKeepsRetries(s: State, u: nat, mismatched: set<nat>)
    requires RetriesSound(s, mismatched) && UploadAt(s, u, Claimed)
    requires UploadsSound(s.uploads, s.owner, s.accepted) && LogUploads(s.events, s.uploads)
    ensures RetriesSound(ApplyUpload(s, u, AnnounceUpload), mismatched)
  {
    hide UploadsSound, LogUploads;
    var event := FileUpload(s.uploads[u].sid, s.uploads[u].fid, u);
    forall i | 0 <= i < |s.events| && s.events[i].FileUpload?
      ensures s.events[i].request != u && (SameFile(s.events[i], event) ==> s.events[i].request in mismatched)
    {
      NoneLikeIt(s, u, mismatched, i);
    }
    AppendKeepsRetryLog(s.events, event, mismatched);
    MoveKeepsRetries(s, u, Receiving, mismatched);
    hide OnlyMismatchesSuperseded, MismatchesKnown, PendingAfterMismatch, LogOfRetries, AnnouncedOnce;
  }

  lemma FinalizeKeepsRetries(s: State, u: nat, mismatched: set<nat>)
    requires RetriesSound(s, mismatched) && Finalizing(s, u)
    requires UploadsSound(s.uploads, s.owner, s.accepted) && ProgressOwned(s.slot, s.uploads, s.owner)
    requires ActiveSound(s.slot, s.accepted, s.ends)
    ensures RetriesSound(DoFinalize(s, u), mismatched)
  {
    hide UploadsSound, ProgressOwned, ActiveSound, EndsSession;
    hide OnlyMismatchesSuperseded, MismatchesKnown, PendingAfterMismatch, LogOfRetries, AnnouncedOnce, AfterFinalize;
    var handler := s.uploads[u];
    if s.slot.IsActive(handler.sid) {
      FinalizerOwnsFile(s, u);
    }
    MoveKeepsRetries(s, u, Closing(handler.pc.Dropped?), mismatched);
    MoveKeepsRetries(s, u, Done, mismatched);
    FinalizeKeepsPending(s, u, mismatched);
  }

  lemma FinalizeKeepsPending(s: State, u: nat, mismatched: set<nat>)
    requires RetriesSound(s, mismatched) && Finalizing(s, u)
    requires s.slot.IsActive(s.uploads[u].sid) ==> s.owner[(s.uploads[u].sid, s.uploads[u].fid)] == u
    ensures PendingAfterMismatch(DoFinalize(s, u).slot, DoFinalize(s, u).uploads, mismatched)
  {
    hide EndsSession;
  }

  lemma UploadStepKeepsRetries(s: State, u: nat, step: UploadStep, mismatched: set<nat>)
    requires RetriesSound(s, mismatched) && (step.FinishUpload? && step.result.HashMismatch? ==> u in mismatched)
    requires UploadsSound(s.uploads, s.owner, s.accepted) && ProgressOwned(s.slot, s.uploads, s.owner)
    requires ActiveSound(s.slot, s.accepted, s.ends) && LogUploads(s.events, s.uploads)
    ensures RetriesSound(ApplyUpload(s, u, step), mismatched)
  {
    hide UploadsSound, ProgressOwned, ActiveSound, LogUploads, UploadAdmitted;
    hide OnlyMismatchesSuperseded, MismatchesKnown, PendingAfterMismatch, LogOfRetries, AnnouncedOnce;
    hide DoClaimUpload, DoFinalize;
    match step {
      case ClaimUpload(sid, fid, token, ip) =>
        if u !in s.uploads && UploadAdmitted(s.slot, sid, fid, token, ip) {
          ClaimKeepsRetries(s, u, sid, fid, token, ip, mismatched);
        }
      case AnnounceUpload => if UploadAt(s, u, Claimed) { AnnounceKeepsRetries(s, u, mismatched); }
      case FinishUpload(result) => if u in s.uploads { MoveKeepsRetries(s, u, Finishing(result), mismatched); }
      case DropUpload => if u in s.uploads { MoveKeepsRetries(s, u, Dropped, mismatched); }
      case DropInFinish =>
        if u in s.uploads && s.uploads[u].pc.Finishing? {
          MoveKeepsRetries(s, u, Lost(s.uploads[u].pc.result), mismatched);
        }
      case Finalize => if Finalizing(s, u) { FinalizeKeepsRetries(s, u, mismatched); }
      case DropInReport => if u in s.uploads { MoveKeepsRetries(s, u, Unreported, mismatched); }
      case ReportFinished => if ClosingAt(s, u) { ReportKeepsRetries(s, u, mismatched); }
    }
  }

  lemma ReportKeepsRetries(s: State, u: nat, mismatched: set<nat>)
    requires RetriesSound(s, mismatched) && ClosingAt(s, u)
    ensures RetriesSound(ApplyUpload(s, u, ReportFinished), mismatched)
  {
    MoveKeepsRetries(s, u, Done, mismatched);
    AppendKeepsRetryLog(s.events, SessionEnd(s.uploads[u].sid, AllFilesDone), mismatched);
    hide OnlyMismatchesSuperseded, MismatchesKnown, PendingAfterMismatch, LogOfRetries, AnnouncedOnce;
  }

  // Everything else

  predicate NoNewUpload(before: seq<Event>, after: seq<Event>) {
    after == before || (|after| == |before| + 1 && after[..|before|] == before && !after[|before|].FileUpload?)
  }

  lemma NoNewUploadKeepsLog(before: seq<Event>, after: seq<Event>, mismatched: set<nat>)
    requires LogOfRetries(before, mismatched) && AnnouncedOnce(before) && NoNewUpload(before, after)
    ensures LogOfRetries(after, mismatched) && AnnouncedOnce(after)
  {
    if after != before {
      assert after == before + [after[|before|]];
      AppendKeepsRetryLog(before, after[|before|], mismatched);
    }
  }

  lemma ActivateKeepsPending(s: State, sid: SessionId, mismatched: set<nat>)
    requires PreparesSound(s.prepares, s.accepted) && UploadsSound(s.uploads, s.owner, s.accepted)
    requires sid in s.prepares && s.prepares[sid].pc.Accepting?
    ensures PendingAfterMismatch(DoActivate(s, sid).slot, s.uploads, mismatched)
  {
    assert sid !in s.accepted;
  }

  lemma PrepareKeepsPending(s: State, sid: SessionId, step: PrepareStep, mismatched: set<nat>)
    requires PreparesSound(s.prepares, s.accepted) && UploadsSound(s.uploads, s.owner, s.accepted)
    requires PendingAfterMismatch(s.slot, s.uploads, mismatched)
    ensures PendingAfterMismatch(ApplyPrepare(s, sid, step).slot, s.uploads, mismatched)
  {
    hide PreparesSound, UploadsSound;
    if step.Activate? && sid in s.prepares && s.prepares[sid].pc.Accepting? {
      ActivateKeepsPending(s, sid, mismatched);
      hide PendingAfterMismatch;
    } else {
      assert ApplyPrepare(s, sid, step).slot.ActiveSession? ==> ApplyPrepare(s, sid, step).slot == s.slot;
    }
  }

  lemma PrepareAnnouncesNoUpload(s: State, sid: SessionId, step: PrepareStep)
    ensures NoNewUpload(s.events, ApplyPrepare(s, sid, step).events)
  {
  }

  lemma PrepareKeepsOwners(s: State, sid: SessionId, step: PrepareStep)
    ensures ApplyPrepare(s, sid, step).owner == s.owner
  {
  }

  lemma PrepareStepKeepsRetries(s: State, sid: SessionId, step: PrepareStep, mismatched: set<nat>)
    requires RetriesSound(s, mismatched)
    requires PreparesSound(s.prepares, s.accepted) && UploadsSound(s.uploads, s.owner, s.accepted)
    ensures RetriesSound(ApplyPrepare(s, sid, step), mismatched)
  {
    hide ApplyPrepare, PreparesSound, UploadsSound;
    hide OnlyMismatchesSuperseded, MismatchesKnown, PendingAfterMismatch, LogOfRetries, AnnouncedOnce, NoNewUpload;
    PrepareLeavesUploads(s, sid, step);
    PrepareKeepsOwners(s, sid, step);
    PrepareKeepsPending(s, sid, step, mismatched);
    PrepareAnnouncesNoUpload(s, sid, step);
    NoNewUploadKeepsLog(s.events, ApplyPrepare(s, sid, step).events, mismatched);
  }

  predicate EndsAtMost(s: State, t: State) {
    t.uploads == s.uploads && t.owner == s.owner && (t.slot == s.slot || t.slot.NoSession?)
  }

  lemma EndKeepsRetries(s: State, t: State, mismatched: set<nat>)
    requires RetriesSound(s, mismatched) && EndsAtMost(s, t) && NoNewUpload(s.events, t.events)
    ensures RetriesSound(t, mismatched)
  {
    NoNewUploadKeepsLog(s.events, t.events, mismatched);
    hide OnlyMismatchesSuperseded, MismatchesKnown, LogOfRetries, AnnouncedOnce;
  }

  lemma BeginCancelEndsNothing(s: State, c: nat, ip: PeerIp, id: Option<SessionId>)
    ensures EndsAtMost(s, DoBeginCancel(s, c, ip, id)) && DoBeginCancel(s, c, ip, id).events == s.events
  {
  }

  lemma CancelActiveEndsAtMost(s: State, c: nat)
    requires c in s.cancels && s.cancels[c].CheckingActive?
    ensures EndsAtMost(s, DoCancelActive(s, c)) && DoCancelActive(s, c).events == s.events
  {
  }

  lemma CancelSends(s: State, cancels: Cancels, event: Event)
    requires !event.FileUpload?
    ensures var t := Send(s.(cancels := cancels), event); EndsAtMost(s, t) && NoNewUpload(s.events, t.events)
  {
    assert (s.events + [event])[..|s.events|] == s.events;
  }

  lemma CancelEndsAtMost(s: State, c: nat, step: CancelStep)
    ensures EndsAtMost(s, ApplyCancel(s, c, step)) && NoNewUpload(s.events, ApplyCancel(s, c, step).events)
  {
    hide DoBeginCancel, DoCancelActive, Send;
    match step {
      case BeginCancel(ip, id) => BeginCancelEndsNothing(s, c, ip, id);
      case CancelActiveSession =>
        if c in s.cancels && s.cancels[c].CheckingActive? { CancelActiveEndsAtMost(s, c); }
      case ReportCancel =>
        if c in s.cancels && s.cancels[c].Notifying? {
          CancelSends(s, s.cancels[c := Notified], SessionEnd(s.cancels[c].id, CancelledBySender));
        } else if c in s.cancels && s.cancels[c].Forwarding? {
          CancelSends(s, s.cancels[c := Notified], CancelReceived(s.cancels[c].id, s.cancels[c].ip));
        }
      case DropInNotify =>
    }
  }

  lemma RetryParts(s: State)
    requires Inv(s)
    ensures PreparesSound(s.prepares, s.accepted) && UploadsSound(s.uploads, s.owner, s.accepted)
    ensures ProgressOwned(s.slot, s.uploads, s.owner) && ActiveSound(s.slot, s.accepted, s.ends)
    ensures LogUploads(s.events, s.uploads)
  {
    hide PreparesSound, UploadsSound, ProgressOwned, ActiveSound, LogUploads, SlotOwned, EndsSound, Announced;
    hide DtosSound, FinishedQuiet, SuccessSound, FinishedSaved, AttemptsBounded, LogOrdered, LogPrepares, LogEnds;
  }

  /** Every step keeps the account of retries, if a mismatch is noted when it happens. */
  lemma StepKeepsRetries(s: State, step: Step, mismatched: set<nat>)
    requires Inv(s) && RetriesSound(s, mismatched)
    requires step.Upload? && step.upload.FinishUpload? && step.upload.result.HashMismatch? ==> step.u in mismatched
    ensures RetriesSound(Apply(s, step), mismatched)
  {
    RetryParts(s);
    hide Inv, ApplyPrepare, ApplyUpload, ApplyCancel, RetriesSound, NoNewUpload, EndsAtMost;
    hide PreparesSound, UploadsSound, ProgressOwned, ActiveSound, LogUploads;
    match step {
      case Prepare(sid, prepare) => PrepareStepKeepsRetries(s, sid, prepare, mismatched);
      case Upload(u, upload) => UploadStepKeepsRetries(s, u, upload, mismatched);
      case Cancel(c, cancel) =>
        CancelEndsAtMost(s, c, cancel);
        EndKeepsRetries(s, ApplyCancel(s, c, cancel), mismatched);
      case CancelByApplication(id) =>
        ApplicationEndsAtMost(s, id);
        EndKeepsRetries(s, Apply(s, step), mismatched);
    }
  }

  lemma ApplicationEndsAtMost(s: State, id: SessionId)
    ensures var t := Apply(s, CancelByApplication(id)); EndsAtMost(s, t) && NoNewUpload(s.events, t.events)
  {
  }

  /** The requests whose body did not match its checksum. */
  function Mismatches(run: seq<Step>): set<nat> {
    if run == [] then {}
    else
      var before, step := Mismatches(run[..|run| - 1]), run[|run| - 1];
      if step.Upload? && step.upload.FinishUpload? && step.upload.result.HashMismatch?
         && UploadAt(After(run[..|run| - 1]), step.u, Receiving)
      then before + {step.u}
      else before
  }

  lemma IneffectiveFinish(s: State, u: nat)
    requires !UploadAt(s, u, Receiving)
    ensures ApplyUpload(s, u, FinishUpload(HashMismatch)) == s
  {
  }

  /** Over every run, a file is sent again only after all earlier requests for it ended in a checksum mismatch. */
  lemma {:induction false} RetriedOnlyAfterMismatch(run: seq<Step>)
    ensures RetriesSound(After(run), Mismatches(run))
    decreases |run|
  {
    if run != [] {
      var before, step := run[..|run| - 1], run[|run| - 1];
      RetriedOnlyAfterMismatch(before);
      ReachableInv(before);
      hide Inv, RetriesSound, ApplyUpload, ApplyPrepare, ApplyCancel;
      RetriesGrow(After(before), Mismatches(before), Mismatches(run));
      assert After(run) == Apply(After(before), step);
      if step.Upload? && step.upload == FinishUpload(HashMismatch) && !UploadAt(After(before), step.u, Receiving) {
        IneffectiveFinish(After(before), step.u);
      } else {
        StepKeepsRetries(After(before), step, Mismatches(run));
      }
    }
  }
}
