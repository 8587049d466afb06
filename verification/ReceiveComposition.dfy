/**
 * Server, save pipelines and command-line tracker together. The tracker
 * consumes the server's event channel in order; per-file results and progress
 * values arrive on their own channels, in any order and at any time.
 */
module ReceiveComposition {
  import opened Wrappers
  import opened Sums
  import opened Text
  import opened Session
  import opened UploadProtocol
  import opened UploadInvariants
  import opened SavePipeline
  import opened ReceiveTracker

  /**
   * `cursor` counts the server events consumed, `decisions` holds the answers
   * sent to waiting requests, `results` the per-file results in flight as
   * (request, ok). The last two fields are history: the files whose Ok result
   * the current receive session has counted, and every Ok result delivered.
   */
  datatype World = World(
    srv: State,
    cursor: nat,
    decisions: map<SessionId, Decision>,
    pending: Option<SessionId>,
    receive: Option<Receive>,
    progress: map<nat, nat>,
    pipes: map<nat, Pipe>,
    results: set<(nat, bool)>,
    counted: set<FileId>,
    delivered: multiset<FileKey>)

  const START: World := World(INITIAL, 0, map[], None, None, map[], map[], {}, {}, multiset{})

  /** What the application does with a transfer request. */
  datatype Reaction = AnswerMessage | AcceptPaired | AskUser

  datatype WorldStep =
    | Server(step: Step)
    | Consume(reaction: Reaction, body: seq<Frame>, verify: bool)
    | AnswerPending(accept: bool)
    | CancelReceive
    | Pipeline(u: nat, pipe: PipeStep)
    | Complete(u: nat)
    | DeliverProgress(u: nat, i: nat)
    | DeliverResult(u: nat, ok: bool)

  /**
   * Server steps that happen on their own. A decision is the one the
   * application sent; a request without a target can only fail, one with a
   * target finishes through its pipeline.
   */
  predicate Allowed(w: World, step: Step) {
    match step
    case Prepare(sid, Decide(decision, _)) => sid in w.decisions && w.decisions[sid] == decision
    case Upload(u, FinishUpload(result)) => u !in w.pipes && result.SaveFailed?
    case _ => true
  }

  /** Dropping a request also drops its forwarder, which the application sees as a failed result. */
  function DoServer(hash: Bytes -> string, w: World, step: Step): World {
    var v := w.(srv := Apply(w.srv, step));
    if step.Upload? && step.upload.DropUpload? && step.u in w.pipes && v.srv != w.srv then
      v.(pipes := w.pipes[step.u := ApplyPipe(hash, w.pipes[step.u], DropRequest)],
         results := w.results + {(step.u, false)})
    else v
  }

  /** Sending an accepting decision creates the receive session, unless the request is already gone. */
  function DoAccept(w: World, sid: SessionId): World {
    if PrepareAt(w.srv, sid, Deciding) then
      w.(decisions := w.decisions[sid := Accept(w.srv.prepares[sid].offered.Keys)],
         receive := Some(NewReceive(sid, w.srv.prepares[sid].offered)),
         counted := {})
    else w
  }

  function DoPrepareUpload(w: World, sid: SessionId, reaction: Reaction): World {
    match reaction
    case AnswerMessage => w.(decisions := w.decisions[sid := Accept({})])
    case AcceptPaired => DoAccept(w, sid)
    case AskUser => w.(pending := Some(sid))
  }

  function DoFileUpload(w: World, sid: SessionId, fid: FileId, u: nat, body: seq<Frame>, verify: bool): World {
    if !Tracks(w.receive, sid) then w
    else
      var shown := w.(receive := OnFileUpload(w.receive, sid, fid, u), progress := w.progress[u := 0]);
      if UploadAt(w.srv, u, Receiving) && u !in w.pipes then
        var dto := w.srv.uploads[u].dto;
        shown.(pipes := w.pipes[u := NewPipe(dto.size, if verify then dto.sha256 else None, body)])
      else
        // The request is gone: its result channel is dropped at once.
        shown.(results := w.results + {(u, false)})
  }

  function DoConsume(w: World, reaction: Reaction, body: seq<Frame>, verify: bool): World
    requires w.cursor < |w.srv.events|
  {
    var v := w.(cursor := w.cursor + 1);
    match w.srv.events[w.cursor]
    case PrepareUpload(sid, _) => DoPrepareUpload(v, sid, reaction)
    case FileUpload(sid, fid, u) => DoFileUpload(v, sid, fid, u, body, verify)
    case SessionEnd(sid, reason) => v.(receive := OnSessionEnd(w.receive, sid, reason))
    case PrepareUploadAborted(sid) => if w.pending == Some(sid) then v.(pending := None) else v
    case CancelReceived(_, _) => v
  }

  function DoAnswerPending(w: World, accept: bool): World
    requires w.pending.Some?
  {
    var v := w.(pending := None);
    if accept then DoAccept(v, w.pending.value) else v.(decisions := w.decisions[w.pending.value := Decline])
  }

  /** The handler learns the outcome and answers the application without yielding in between. */
  function DoComplete(hash: Bytes -> string, w: World, u: nat): World
    requires u in w.pipes && w.pipes[u].forwarder.Awaiting? && w.pipes[u].writer.Stopped?
  {
    var pipe := DoCollect(hash, w.pipes[u]);
    var result := pipe.forwarder.result;
    w.(srv := Apply(w.srv, Upload(u, FinishUpload(result))),
       pipes := w.pipes[u := pipe],
       results := w.results + {(u, result.Success?)})
  }

  function DoDeliverResult(w: World, u: nat, ok: bool): World
    requires u in w.srv.uploads
  {
    var handler := w.srv.uploads[u];
    w.(results := w.results - {(u, ok)},
       receive := OnResult(w.receive, handler.sid, handler.fid, ok),
       counted := if ok && Tracks(w.receive, handler.sid) then w.counted + {handler.fid} else w.counted,
       delivered := if ok then w.delivered + multiset{(handler.sid, handler.fid)} else w.delivered)
  }

  function ApplyWorld(hash: Bytes -> string, w: World, step: WorldStep): World {
    match step
    case Server(step) => if Allowed(w, step) then DoServer(hash, w, step) else w
    case Consume(reaction, body, verify) =>
      if w.cursor < |w.srv.events| then DoConsume(w, reaction, body, verify) else w
    case AnswerPending(accept) => if w.pending.Some? then DoAnswerPending(w, accept) else w
    case CancelReceive => w.(receive := None)
    case Pipeline(u, pipe) =>
      if u in w.pipes && !pipe.Collect? && !pipe.DropRequest?
      then w.(pipes := w.pipes[u := ApplyPipe(hash, w.pipes[u], pipe)]) else w
    case Complete(u) =>
      if u in w.pipes && w.pipes[u].forwarder.Awaiting? && w.pipes[u].writer.Stopped? && UploadAt(w.srv, u, Receiving)
      then DoComplete(hash, w, u) else w
    case DeliverProgress(u, i) =>
      if u in w.pipes && i < |w.pipes[u].reported|
      then w.(progress := w.progress[u := w.pipes[u].reported[i]]) else w
    case DeliverResult(u, ok) =>
      if (u, ok) in w.results && u in w.srv.uploads then DoDeliverResult(w, u, ok) else w
  }

  function RunWorld(hash: Bytes -> string, run: seq<WorldStep>): World
    decreases |run|
  {
    if run == [] then START else ApplyWorld(hash, RunWorld(hash, run[..|run| - 1]), run[|run| - 1])
  }

  lemma {:induction false} NextWorld(hash: Bytes -> string, run: seq<WorldStep>, step: WorldStep)
    ensures RunWorld(hash, run + [step]) == ApplyWorld(hash, RunWorld(hash, run), step)
  {
    assert (run + [step])[..|run|] == run;
  }

  // Invariant

  ghost predicate PipesSound(hash: Bytes -> string, pipes: map<nat, Pipe>, srv: State) {
    forall u :: u in pipes ==>
      && u in srv.uploads
      && !srv.uploads[u].pc.Claimed?
      && pipes[u].size == srv.uploads[u].dto.size
      && PipeInv(hash, pipes[u])
  }

  ghost predicate ProgressSound(progress: map<nat, nat>, srv: State) {
    forall u :: u in progress ==> u in srv.uploads && progress[u] <= srv.uploads[u].dto.size
  }

  ghost predicate ReceiveSound(receive: Option<Receive>, progress: map<nat, nat>, srv: State) {
    receive.Some? ==>
      var r := receive.value;
      && r.sid in srv.prepares
      && r.files == Sizes(srv.prepares[r.sid].offered)
      && (forall fid :: fid in r.inProgress ==>
            && r.inProgress[fid] in progress
            && r.inProgress[fid] in srv.uploads
            && IsFor(srv.uploads[r.inProgress[fid]], r.sid, fid))
  }

  ghost predicate ResultsSound(results: set<(nat, bool)>, pipes: map<nat, Pipe>, srv: State) {
    forall u, ok :: (u, ok) in results ==>
      && u in srv.uploads
      && (ok ==>
            && (srv.uploads[u].sid, srv.uploads[u].fid) in srv.succeeded
            && srv.succeeded[(srv.uploads[u].sid, srv.uploads[u].fid)] == u
            && u in pipes && pipes[u].forwarder == Answered(Success))
  }

  ghost predicate CountedSound(counted: set<FileId>, receive: Option<Receive>, results: set<(nat, bool)>,
                               pipes: map<nat, Pipe>, srv: State) {
    receive.Some? ==>
      var r := receive.value;
      && r.finishedFiles == |counted|
      && r.finalizedBytes == Sum(map fid | fid in r.files && fid in counted :: r.files[fid])
      && (forall fid :: fid in counted ==>
            && fid in r.files
            && fid !in r.inProgress
            && (r.sid, fid) in srv.succeeded
            && srv.succeeded[(r.sid, fid)] in pipes
            && pipes[srv.succeeded[(r.sid, fid)]].forwarder == Answered(Success)
            && (srv.succeeded[(r.sid, fid)], true) !in results)
  }

  /** A delivered Ok result was the only one for its file. */
  ghost predicate DeliveredSound(delivered: multiset<FileKey>, results: set<(nat, bool)>,
                                 succeeded: map<FileKey, nat>) {
    forall key :: key in delivered ==>
      delivered[key] == 1 && key in succeeded && (succeeded[key], true) !in results
  }

  predicate AnnouncesFor(event: Event, sid: SessionId, fid: FileId) {
    event.FileUpload? && event.sid == sid && event.fid == fid
  }

  /** No upload of a file that was already saved is waiting to be shown. */
  ghost predicate NoStaleUploads(srv: State, cursor: nat) {
    && cursor <= |srv.events|
    && forall i :: cursor <= i < |srv.events| && srv.events[i].FileUpload? ==>
         (srv.events[i].sid, srv.events[i].fid) !in srv.succeeded
  }

  /** No newer upload of a file is waiting to be shown while a request receives it. */
  ghost predicate NoNewerUploads(srv: State, cursor: nat, pipes: map<nat, Pipe>) {
    forall u, i :: u in pipes && UploadAt(srv, u, Receiving) && cursor <= i < |srv.events| ==>
      !AnnouncesFor(srv.events[i], srv.uploads[u].sid, srv.uploads[u].fid)
  }

  ghost predicate WorldInv(hash: Bytes -> string, w: World) {
    && Inv(w.srv)
    && PipesSound(hash, w.pipes, w.srv)
    && ProgressSound(w.progress, w.srv)
    && ReceiveSound(w.receive, w.progress, w.srv)
    && ResultsSound(w.results, w.pipes, w.srv)
    && CountedSound(w.counted, w.receive, w.results, w.pipes, w.srv)
    && DeliveredSound(w.delivered, w.results, w.srv.succeeded)
    && NoStaleUploads(w.srv, w.cursor)
    && NoNewerUploads(w.srv, w.cursor, w.pipes)
  }

  // How the server state evolves

  predicate SameUpload(before: UploadHandler, after: UploadHandler) {
    && before.sid == after.sid && before.fid == after.fid && before.dto == after.dto
    && (after.pc.Claimed? ==> before.pc.Claimed?)
    && (after.pc.Receiving? ==> before.pc.Receiving? || before.pc.Claimed?)
  }

  ghost predicate PreparesEvolve(before: Prepares, after: Prepares) {
    forall sid :: sid in before ==> sid in after && after[sid].offered == before[sid].offered
  }

  ghost predicate UploadsEvolve(before: Uploads, after: Uploads) {
    forall u :: u in before ==> u in after && SameUpload(before[u], after[u])
  }

  /** At most one event is added, and an upload is announced by the request that claimed it. */
  predicate EventsEvolve(s: State, t: State) {
    t.events == s.events ||
    (|t.events| == |s.events| + 1 && t.events[..|s.events|] == s.events && ComesFrom(s, t.events[|s.events|]))
  }

  predicate ComesFrom(s: State, event: Event) {
    event.FileUpload? ==> UploadAt(s, event.request, Claimed) && IsFor(s.uploads[event.request], event.sid, event.fid)
  }

  ghost predicate Evolves(s: State, t: State) {
    PreparesEvolve(s.prepares, t.prepares) && UploadsEvolve(s.uploads, t.uploads) && EventsEvolve(s, t)
  }

  lemma PrepareKeepsOffer(s: State, sid: SessionId, step: PrepareStep, other: SessionId)
    requires other in s.prepares
    ensures other in ApplyPrepare(s, sid, step).prepares
    ensures ApplyPrepare(s, sid, step).prepares[other].offered == s.prepares[other].offered
  {
  }

  lemma MoveKeepsRequest(s: State, u: nat, pc: UploadPc, other: nat)
    requires u in s.uploads && other in s.uploads
    requires pc.Claimed? ==> s.uploads[u].pc.Claimed?
    requires pc.Receiving? ==> s.uploads[u].pc.Receiving? || s.uploads[u].pc.Claimed?
    ensures other in WithUpload(s, u, pc).uploads && SameUpload(s.uploads[other], WithUpload(s, u, pc).uploads[other])
  {
  }

  lemma UploadKeepsRequest(s: State, u: nat, step: UploadStep, other: nat)
    requires other in s.uploads
    ensures other in ApplyUpload(s, u, step).uploads
    ensures SameUpload(s.uploads[other], ApplyUpload(s, u, step).uploads[other])
  {
    hide WithUpload, SameUpload, EndsSession, AfterFinalize, AfterClaim, UploadAdmitted;
    match step {
      case ClaimUpload(_, _, _, _) => SameAsBefore(s.uploads[other]);
      case AnnounceUpload => if UploadAt(s, u, Claimed) { MoveKeepsRequest(s, u, Receiving, other); }
      case FinishUpload(result) => if u in s.uploads { MoveKeepsRequest(s, u, Finishing(result), other); }
      case DropUpload => if u in s.uploads { MoveKeepsRequest(s, u, Dropped, other); }
      case DropInFinish =>
        if u in s.uploads && s.uploads[u].pc.Finishing? { MoveKeepsRequest(s, u, Lost(s.uploads[u].pc.result), other); }
      case Finalize =>
        if u in s.uploads {
          MoveKeepsRequest(s, u, Closing(s.uploads[u].pc.Dropped?), other);
          MoveKeepsRequest(s, u, Done, other);
        }
      case DropInReport => if u in s.uploads { MoveKeepsRequest(s, u, Unreported, other); }
      case ReportFinished => if u in s.uploads { MoveKeepsRequest(s, u, Done, other); }
    }
    SameAsBefore(s.uploads[other]);
  }

  lemma SameAsBefore(handler: UploadHandler)
    ensures SameUpload(handler, handler)
  {
  }

  lemma PrepareEventsEvolve(s: State, sid: SessionId, step: PrepareStep)
    ensures EventsEvolve(s, ApplyPrepare(s, sid, step))
  {
  }

  lemma UploadEventsEvolve(s: State, u: nat, step: UploadStep)
    ensures EventsEvolve(s, ApplyUpload(s, u, step))
  {
  }

  lemma SendEvolves(s: State, cancels: Cancels, event: Event)
    requires !event.FileUpload?
    ensures var t := Send(s.(cancels := cancels), event);
      SameRecords(s, t) && EventsEvolve(s, t)
  {
    assert (s.events + [event])[..|s.events|] == s.events;
  }

  lemma ReportCancelEvolves(s: State, c: nat)
    ensures SameRecords(s, ApplyCancel(s, c, ReportCancel)) && EventsEvolve(s, ApplyCancel(s, c, ReportCancel))
  {
    if c in s.cancels && s.cancels[c].Notifying? {
      SendEvolves(s, s.cancels[c := Notified], SessionEnd(s.cancels[c].id, CancelledBySender));
    } else if c in s.cancels && s.cancels[c].Forwarding? {
      SendEvolves(s, s.cancels[c := Notified], CancelReceived(s.cancels[c].id, s.cancels[c].ip));
    }
    hide Send, DoBeginCancel, DoCancelActive;
  }

  lemma CancelActiveEvolves(s: State, c: nat)
    requires c in s.cancels && s.cancels[c].CheckingActive?
    ensures SameRecords(s, DoCancelActive(s, c)) && DoCancelActive(s, c).events == s.events
  {
  }

  lemma BeginCancelEvolves(s: State, c: nat, ip: PeerIp, id: Option<SessionId>)
    ensures SameRecords(s, DoBeginCancel(s, c, ip, id)) && DoBeginCancel(s, c, ip, id).events == s.events
  {
  }

  predicate SameRecords(s: State, t: State) {
    t.uploads == s.uploads && t.prepares == s.prepares && t.succeeded == s.succeeded
  }

  lemma CancelEvolves(s: State, c: nat, step: CancelStep)
    ensures SameRecords(s, ApplyCancel(s, c, step)) && EventsEvolve(s, ApplyCancel(s, c, step))
  {
    hide DoBeginCancel, DoCancelActive;
    match step {
      case BeginCancel(ip, id) => BeginCancelEvolves(s, c, ip, id);
      case CancelActiveSession => if c in s.cancels && s.cancels[c].CheckingActive? { CancelActiveEvolves(s, c); }
      case ReportCancel => ReportCancelEvolves(s, c);
      case DropInNotify =>
    }
  }

  lemma StepEvolves(s: State, step: Step)
    ensures Evolves(s, Apply(s, step))
  {
    hide ApplyPrepare, ApplyUpload, ApplyCancel, EventsEvolve;
    match step {
      case Prepare(sid, prepare) =>
        PrepareEventsEvolve(s, sid, prepare);
        PrepareLeavesUploads(s, sid, prepare);
        forall other | other in s.prepares
          ensures other in Apply(s, step).prepares
          ensures Apply(s, step).prepares[other].offered == s.prepares[other].offered
        {
          PrepareKeepsOffer(s, sid, prepare, other);
        }
      case Upload(u, upload) =>
        UploadEventsEvolve(s, u, upload);
        UploadLeavesPrepares(s, u, upload);
        forall other | other in s.uploads
          ensures other in Apply(s, step).uploads && SameUpload(s.uploads[other], Apply(s, step).uploads[other])
        {
          UploadKeepsRequest(s, u, upload, other);
        }
      case Cancel(c, cancel) => CancelEvolves(s, c, cancel);
      case CancelByApplication(_) => ApplicationEventsEvolve(s, step);
    }
  }

  lemma ApplicationEventsEvolve(s: State, step: Step)
    requires step.CancelByApplication?
    ensures EventsEvolve(s, Apply(s, step))
  {
  }

  lemma PrepareSavesNothing(s: State, sid: SessionId, step: PrepareStep)
    ensures ApplyPrepare(s, sid, step).succeeded == s.succeeded
  {
  }

  lemma UploadSavesOnce(s: State, u: nat, step: UploadStep)
    requires step.FinishUpload? ==> !step.result.Success?
    ensures ApplyUpload(s, u, step).succeeded == s.succeeded
  {
  }

  lemma OnlySavingSucceeds(s: State, step: Step)
    requires step.Upload? && step.upload.FinishUpload? ==> !step.upload.result.Success?
    ensures Apply(s, step).succeeded == s.succeeded
  {
    hide ApplyPrepare, ApplyUpload, ApplyCancel;
    match step {
      case Prepare(sid, prepare) => PrepareSavesNothing(s, sid, prepare);
      case Upload(u, upload) => UploadSavesOnce(s, u, upload);
      case Cancel(c, cancel) => CancelEvolves(s, c, cancel);
      case CancelByApplication(_) =>
    }
  }

  // Server steps

  lemma EvolvingKeepsPipes(hash: Bytes -> string, w: World, t: State)
    requires PipesSound(hash, w.pipes, w.srv) && ProgressSound(w.progress, w.srv) && Evolves(w.srv, t)
    ensures PipesSound(hash, w.pipes, t) && ProgressSound(w.progress, t)
  {
    hide PipeInv;
  }

  lemma EvolvingKeepsReceive(w: World, t: State)
    requires ReceiveSound(w.receive, w.progress, w.srv) && ResultsSound(w.results, w.pipes, w.srv)
    requires CountedSound(w.counted, w.receive, w.results, w.pipes, w.srv)
    requires Evolves(w.srv, t) && t.succeeded == w.srv.succeeded
    ensures ReceiveSound(w.receive, w.progress, t) && ResultsSound(w.results, w.pipes, t)
    ensures CountedSound(w.counted, w.receive, w.results, w.pipes, t)
  {
  }

  lemma EvolvingKeepsStale(w: World, t: State)
    requires SuccessSound(w.srv.uploads, w.srv.succeeded) && NoStaleUploads(w.srv, w.cursor)
    requires EventsEvolve(w.srv, t) && t.succeeded == w.srv.succeeded
    ensures NoStaleUploads(t, w.cursor)
  {
  }

  lemma EvolvingKeepsNewer(hash: Bytes -> string, w: World, t: State)
    requires UploadsSound(w.srv.uploads, w.srv.owner, w.srv.accepted) && NoNewerUploads(w.srv, w.cursor, w.pipes)
    requires PipesSound(hash, w.pipes, w.srv) && Evolves(w.srv, t)
    ensures NoNewerUploads(t, w.cursor, w.pipes)
  {
    hide PipeInv;
    forall u, i | u in w.pipes && UploadAt(t, u, Receiving) && w.cursor <= i < |t.events|
      ensures !AnnouncesFor(t.events[i], t.uploads[u].sid, t.uploads[u].fid)
    {
      assert SameUpload(w.srv.uploads[u], t.uploads[u]);
      assert UploadAt(w.srv, u, Receiving);
      if i < |w.srv.events| {
        assert t.events[i] == w.srv.events[i];
      } else {
        assert ComesFrom(w.srv, t.events[i]);
      }
    }
  }

  lemma ServerParts(s: State)
    requires Inv(s)
    ensures UploadsSound(s.uploads, s.owner, s.accepted) && SuccessSound(s.uploads, s.succeeded)
    ensures LogUploads(s.events, s.uploads) && DtosSound(s.slot, s.uploads, s.prepares)
  {
    hide UploadsSound, SuccessSound, LogUploads, DtosSound, SlotOwned, PreparesSound, EndsSound, Announced;
    hide ActiveSound, ProgressOwned, FinishedQuiet, FinishedSaved, AttemptsBounded, LogOrdered, LogPrepares, LogEnds;
  }

  /** Any server step that saves nothing. */
  lemma SilentStepKeeps(hash: Bytes -> string, w: World, step: Step)
    requires WorldInv(hash, w)
    requires step.Upload? && step.upload.FinishUpload? ==> !step.upload.result.Success?
    ensures WorldInv(hash, w.(srv := Apply(w.srv, step)))
  {
    hide Inv, Apply, UploadsSound, SuccessSound, LogUploads, DtosSound, Evolves, EventsEvolve;
    hide PipesSound, ProgressSound, ReceiveSound, ResultsSound, CountedSound, DeliveredSound, NoStaleUploads;
    hide NoNewerUploads;
    var t := Apply(w.srv, step);
    ServerParts(w.srv);
    StepKeepsInv(w.srv, step);
    StepEvolves(w.srv, step);
    EventsPart(w.srv, t);
    OnlySavingSucceeds(w.srv, step);
    EvolvingKeepsPipes(hash, w, t);
    EvolvingKeepsReceive(w, t);
    EvolvingKeepsStale(w, t);
    EvolvingKeepsNewer(hash, w, t);
  }

  lemma EventsPart(s: State, t: State)
    requires Evolves(s, t)
    ensures EventsEvolve(s, t)
  {
  }

  lemma DropKeepsPipe(hash: Bytes -> string, p: Pipe)
    requires PipeInv(hash, p)
    ensures PipeInv(hash, ApplyPipe(hash, p, DropRequest))
    ensures ApplyPipe(hash, p, DropRequest).size == p.size
    ensures p.forwarder == Answered(Success) ==> ApplyPipe(hash, p, DropRequest) == p
  {
    hide FileInv, OutcomeInv;
    StepKeepsFile(hash, p, DropRequest);
    StepKeepsOutcome(hash, p, DropRequest);
  }

  /** A pipeline moves on without touching a saved file's outcome. */
  lemma PipeMoveKeeps(hash: Bytes -> string, w: World, u: nat, pipe: Pipe, results: set<(nat, bool)>)
    requires WorldInv(hash, w) && u in w.pipes && PipeInv(hash, pipe) && pipe.size == w.pipes[u].size
    requires w.pipes[u].forwarder == Answered(Success) ==> pipe.forwarder == Answered(Success)
    requires results == w.results || results == w.results + {(u, false)}
    ensures WorldInv(hash, w.(pipes := w.pipes[u := pipe], results := results))
  {
    hide Inv, PipeInv, ProgressSound, ReceiveSound, NoStaleUploads, Sum;
  }

  lemma ServerKeeps(hash: Bytes -> string, w: World, step: Step)
    requires WorldInv(hash, w) && Allowed(w, step)
    ensures WorldInv(hash, DoServer(hash, w, step))
  {
    var v := w.(srv := Apply(w.srv, step));
    SilentStepKeeps(hash, w, step);
    hide WorldInv, Apply, ApplyPipe, PipeInv;
    if step.Upload? && step.upload.DropUpload? && step.u in w.pipes && v.srv != w.srv {
      PipesPart(hash, w, step.u);
      DropKeepsPipe(hash, w.pipes[step.u]);
      PipeMoveKeeps(hash, v, step.u, ApplyPipe(hash, w.pipes[step.u], DropRequest), w.results + {(step.u, false)});
    }
  }

  lemma PipesPart(hash: Bytes -> string, w: World, u: nat)
    requires WorldInv(hash, w) && u in w.pipes
    ensures PipeInv(hash, w.pipes[u])
  {
    hide Inv, PipeInv, ProgressSound, ReceiveSound, ResultsSound, CountedSound, DeliveredSound, NoStaleUploads;
    hide NoNewerUploads;
  }

  // Pipeline and result steps

  lemma MovedPipe(hash: Bytes -> string, p: Pipe, step: PipeStep)
    requires PipeInv(hash, p) && !step.Collect? && !step.DropRequest?
    ensures PipeInv(hash, ApplyPipe(hash, p, step)) && ApplyPipe(hash, p, step).size == p.size
    ensures p.forwarder == Answered(Success) ==> ApplyPipe(hash, p, step).forwarder == Answered(Success)
  {
    hide FileInv, OutcomeInv;
    StepKeepsFile(hash, p, step);
    StepKeepsOutcome(hash, p, step);
  }

  lemma PipelineKeeps(hash: Bytes -> string, w: World, u: nat, step: PipeStep)
    requires WorldInv(hash, w) && u in w.pipes && !step.Collect? && !step.DropRequest?
    ensures WorldInv(hash, w.(pipes := w.pipes[u := ApplyPipe(hash, w.pipes[u], step)]))
  {
    hide WorldInv, PipeInv, ApplyPipe;
    var pipe := ApplyPipe(hash, w.pipes[u], step);
    PipesPart(hash, w, u);
    MovedPipe(hash, w.pipes[u], step);
    PipeMoveKeeps(hash, w, u, pipe, w.results);
    assert w.(pipes := w.pipes[u := pipe]) == w.(pipes := w.pipes[u := pipe], results := w.results);
  }

  lemma ReportedFits(hash: Bytes -> string, w: World, u: nat, i: nat)
    requires PipesSound(hash, w.pipes, w.srv) && u in w.pipes && i < |w.pipes[u].reported|
    ensures u in w.srv.uploads && w.pipes[u].reported[i] <= w.srv.uploads[u].dto.size
  {
    hide OutcomeInv;
    assert PipeInv(hash, w.pipes[u]);
  }

  lemma ProgressKeepsReceive(receive: Option<Receive>, progress: map<nat, nat>, srv: State, u: nat, bytes: nat)
    requires ProgressSound(progress, srv) && ReceiveSound(receive, progress, srv)
    requires u in srv.uploads && bytes <= srv.uploads[u].dto.size
    ensures ProgressSound(progress[u := bytes], srv) && ReceiveSound(receive, progress[u := bytes], srv)
  {
  }

  lemma ProgressKeeps(hash: Bytes -> string, w: World, u: nat, i: nat)
    requires WorldInv(hash, w) && u in w.pipes && i < |w.pipes[u].reported|
    ensures WorldInv(hash, w.(progress := w.progress[u := w.pipes[u].reported[i]]))
  {
    hide Inv, PipesSound, ProgressSound, ReceiveSound, ResultsSound, CountedSound, DeliveredSound, NoStaleUploads;
    hide NoNewerUploads;
    ReportedFits(hash, w, u, i);
    ProgressKeepsReceive(w.receive, w.progress, w.srv, u, w.pipes[u].reported[i]);
  }

  lemma SumOverMore(files: map<FileId, nat>, counted: set<FileId>, fid: FileId)
    requires fid in files && fid !in counted
    ensures Sum(map f | f in files && f in counted + {fid} :: files[f])
         == Sum(map f | f in files && f in counted :: files[f]) + files[fid]
  {
    var before: map<FileId, nat> := map f | f in files && f in counted :: files[f];
    var after: map<FileId, nat> := map f | f in files && f in counted + {fid} :: files[f];
    assert after == before[fid := files[fid]];
    SumInsert(before, fid, files[fid]);
  }

  /** An Ok result is counted for a file that was not counted before. */
  lemma OkKeepsCounted(w: World, u: nat)
    requires ReceiveSound(w.receive, w.progress, w.srv) && ResultsSound(w.results, w.pipes, w.srv)
    requires CountedSound(w.counted, w.receive, w.results, w.pipes, w.srv)
    requires DtosSound(w.srv.slot, w.srv.uploads, w.srv.prepares)
    requires (u, true) in w.results && Tracks(w.receive, w.srv.uploads[u].sid)
    ensures var r := CountResult(w.receive.value, w.srv.uploads[u].fid, true);
      CountedSound(w.counted + {w.srv.uploads[u].fid}, Some(r), w.results - {(u, true)}, w.pipes, w.srv)
  {
    hide Sum;
    var r, fid := w.receive.value, w.srv.uploads[u].fid;
    assert OffersFile(w.srv.prepares, r.sid, fid, w.srv.uploads[u].dto);
    assert fid in r.files && fid !in w.counted;
    SumOverMore(r.files, w.counted, fid);
  }

  lemma ErrKeepsCounted(w: World, u: nat)
    requires CountedSound(w.counted, w.receive, w.results, w.pipes, w.srv)
    requires u in w.srv.uploads && Tracks(w.receive, w.srv.uploads[u].sid)
    ensures var r := CountResult(w.receive.value, w.srv.uploads[u].fid, false);
      CountedSound(w.counted, Some(r), w.results - {(u, false)}, w.pipes, w.srv)
  {
    hide Sum;
  }

  lemma ResultKeepsShown(w: World, sid: SessionId, fid: FileId, ok: bool)
    requires ReceiveSound(w.receive, w.progress, w.srv)
    ensures ReceiveSound(OnResult(w.receive, sid, fid, ok), w.progress, w.srv)
  {
  }

  lemma ResultKeepsResults(w: World, u: nat, ok: bool)
    requires ResultsSound(w.results, w.pipes, w.srv) && DeliveredSound(w.delivered, w.results, w.srv.succeeded)
    requires (u, ok) in w.results
    ensures var v := DoDeliverResult(w, u, ok);
      ResultsSound(v.results, w.pipes, w.srv) && DeliveredSound(v.delivered, v.results, w.srv.succeeded)
  {
    hide OnResult;
  }

  lemma ResultKnown(w: World, u: nat, ok: bool)
    requires ResultsSound(w.results, w.pipes, w.srv) && (u, ok) in w.results
    ensures u in w.srv.uploads
  {
  }

  lemma ResultKeepsCounted(w: World, u: nat, ok: bool)
    requires ReceiveSound(w.receive, w.progress, w.srv) && ResultsSound(w.results, w.pipes, w.srv)
    requires CountedSound(w.counted, w.receive, w.results, w.pipes, w.srv)
    requires DtosSound(w.srv.slot, w.srv.uploads, w.srv.prepares) && (u, ok) in w.results
    ensures var v := DoDeliverResult(w, u, ok);
      CountedSound(v.counted, v.receive, v.results, v.pipes, v.srv)
  {
    ResultKnown(w, u, ok);
    hide Sum, DtosSound, ReceiveSound, ResultsSound;
    if Tracks(w.receive, w.srv.uploads[u].sid) {
      if ok { OkKeepsCounted(w, u); } else { ErrKeepsCounted(w, u); }
    }
  }

  lemma ResultKeeps(hash: Bytes -> string, w: World, u: nat, ok: bool)
    requires WorldInv(hash, w) && (u, ok) in w.results
    ensures u in w.srv.uploads && WorldInv(hash, DoDeliverResult(w, u, ok))
  {
    ResultKnown(w, u, ok);
    hide Inv, PipesSound, ProgressSound, ReceiveSound, ResultsSound, CountedSound, DeliveredSound, NoStaleUploads;
    hide NoNewerUploads;
    hide UploadsSound, SuccessSound, LogUploads, DtosSound, OnResult;
    ServerParts(w.srv);
    ResultKeepsShown(w, w.srv.uploads[u].sid, w.srv.uploads[u].fid, ok);
    ResultKeepsResults(w, u, ok);
    ResultKeepsCounted(w, u, ok);
  }

  // Completing an upload

  lemma CompleteKeepsServer(s: State, u: nat, result: SaveResult)
    requires Inv(s) && UploadAt(s, u, Receiving)
    ensures var t := DoFinishUpload(s, u, result);
      && Inv(t)
      && Apply(s, Upload(u, FinishUpload(result))) == t
      && Evolves(s, t)
      && t.events == s.events
      && (result.Success? ==> (s.uploads[u].sid, s.uploads[u].fid) !in s.succeeded)
  {
    hide Inv;
    KeepsFinishUpload(s, u, result);
    StepEvolves(s, Upload(u, FinishUpload(result)));
    if result.Success? {
      NotSavedYet(s, u);
    }
  }

  lemma NotSavedYet(s: State, u: nat)
    requires Inv(s) && UploadAt(s, u, Receiving)
    ensures (s.uploads[u].sid, s.uploads[u].fid) !in s.succeeded
  {
    ServerParts(s);
    hide Inv, UploadsSound, LogUploads, DtosSound;
    assert Outstanding(s.uploads[u].pc) && !SavedBy(s.uploads[u].pc);
  }

  predicate RecordsSuccess(s: State, t: State, u: nat, result: SaveResult)
    requires u in s.uploads
  {
    var key := (s.uploads[u].sid, s.uploads[u].fid);
    && (result.Success? ==> key !in s.succeeded)
    && t.succeeded == if result.Success? then s.succeeded[key := u] else s.succeeded
  }

  lemma CompleteKeepsResults(w: World, u: nat, pipe: Pipe, t: State)
    requires ResultsSound(w.results, w.pipes, w.srv)
    requires u in w.srv.uploads && u in w.pipes && w.pipes[u].forwarder.Awaiting? && pipe.forwarder.Answered?
    requires Evolves(w.srv, t) && RecordsSuccess(w.srv, t, u, pipe.forwarder.result)
    ensures ResultsSound(w.results + {(u, pipe.forwarder.result.Success?)}, w.pipes[u := pipe], t)
  {
    hide EventsEvolve, PreparesEvolve;
  }

  lemma CompleteKeepsCounted(w: World, u: nat, pipe: Pipe, t: State)
    requires CountedSound(w.counted, w.receive, w.results, w.pipes, w.srv)
    requires DeliveredSound(w.delivered, w.results, w.srv.succeeded) && SuccessSound(w.srv.uploads, w.srv.succeeded)
    requires UploadAt(w.srv, u, Receiving) && u in w.pipes && w.pipes[u].forwarder.Awaiting? && pipe.forwarder.Answered?
    requires RecordsSuccess(w.srv, t, u, pipe.forwarder.result)
    ensures var results := w.results + {(u, pipe.forwarder.result.Success?)};
      && CountedSound(w.counted, w.receive, results, w.pipes[u := pipe], t)
      && DeliveredSound(w.delivered, results, t.succeeded)
  {
    hide Sum;
  }

  lemma CompleteKeepsChannels(w: World, u: nat, pipe: Pipe, result: SaveResult)
    requires NoStaleUploads(w.srv, w.cursor) && NoNewerUploads(w.srv, w.cursor, w.pipes)
    requires u in w.pipes && UploadAt(w.srv, u, Receiving)
    ensures var t := DoFinishUpload(w.srv, u, result);
      NoStaleUploads(t, w.cursor) && NoNewerUploads(t, w.cursor, w.pipes[u := pipe])
  {
    var t := DoFinishUpload(w.srv, u, result);
    forall i | w.cursor <= i < |t.events| && t.events[i].FileUpload?
      ensures (t.events[i].sid, t.events[i].fid) !in t.succeeded
    {
      assert !AnnouncesFor(w.srv.events[i], w.srv.uploads[u].sid, w.srv.uploads[u].fid);
    }
  }

  lemma CompletedPipe(hash: Bytes -> string, p: Pipe)
    requires PipeInv(hash, p) && p.forwarder.Awaiting? && p.writer.Stopped?
    ensures PipeInv(hash, DoCollect(hash, p)) && DoCollect(hash, p).size == p.size
    ensures DoCollect(hash, p).forwarder.Answered?
  {
    hide FileInv, OutcomeInv;
    StepKeepsFile(hash, p, Collect);
    StepKeepsOutcome(hash, p, Collect);
  }

  lemma CompleteKeepsPipes(hash: Bytes -> string, pipes: map<nat, Pipe>, t: State, u: nat, pipe: Pipe)
    requires PipesSound(hash, pipes, t) && u in pipes && PipeInv(hash, pipe) && pipe.size == pipes[u].size
    ensures PipesSound(hash, pipes[u := pipe], t)
  {
    hide PipeInv;
  }

  lemma EvolvedReceive(w: World, t: State)
    requires ReceiveSound(w.receive, w.progress, w.srv) && Evolves(w.srv, t)
    ensures ReceiveSound(w.receive, w.progress, t)
  {
  }

  lemma CompleteKeeps(hash: Bytes -> string, w: World, u: nat)
    requires WorldInv(hash, w) && u in w.pipes && UploadAt(w.srv, u, Receiving)
    requires w.pipes[u].forwarder.Awaiting? && w.pipes[u].writer.Stopped?
    ensures WorldInv(hash, DoComplete(hash, w, u))
  {
    PipesPart(hash, w, u);
    hide Inv, PipesSound, ProgressSound, ReceiveSound, ResultsSound, CountedSound, DeliveredSound, NoStaleUploads;
    hide NoNewerUploads;
    hide UploadsSound, SuccessSound, LogUploads, DtosSound, PipeInv, Apply, DoCollect, Evolves, Sum;
    var pipe := DoCollect(hash, w.pipes[u]);
    var result := pipe.forwarder.result;
    CompletedPipe(hash, w.pipes[u]);
    ServerParts(w.srv);
    CompleteKeepsServer(w.srv, u, result);
    CompleteKeepsChannels(w, u, pipe, result);
    var t := DoFinishUpload(w.srv, u, result);
    CompleteKeepsResults(w, u, pipe, t);
    CompleteKeepsCounted(w, u, pipe, t);
    EvolvingKeepsPipes(hash, w, t);
    CompleteKeepsPipes(hash, w.pipes, t, u, pipe);
    EvolvedReceive(w, t);
  }

  // Consuming server events

  lemma ConsumedChannels(w: World)
    requires NoStaleUploads(w.srv, w.cursor) && NoNewerUploads(w.srv, w.cursor, w.pipes) && w.cursor < |w.srv.events|
    ensures NoStaleUploads(w.srv, w.cursor + 1) && NoNewerUploads(w.srv, w.cursor + 1, w.pipes)
  {
  }

  lemma FreshReceive(w: World, sid: SessionId)
    requires sid in w.srv.prepares
    ensures var created := Some(NewReceive(sid, w.srv.prepares[sid].offered));
      && ReceiveSound(created, w.progress, w.srv)
      && CountedSound({}, created, w.results, w.pipes, w.srv)
  {
    SumOverNone(Sizes(w.srv.prepares[sid].offered), {});
  }

  lemma SumOverNone(files: map<FileId, nat>, counted: set<FileId>)
    requires counted == {}
    ensures Sum(map fid | fid in files && fid in counted :: files[fid]) == 0
  {
    var none: map<FileId, nat> := map fid | fid in files && fid in counted :: files[fid];
    assert none == map[];
  }

  lemma AcceptKeeps(hash: Bytes -> string, w: World, sid: SessionId)
    requires WorldInv(hash, w)
    ensures WorldInv(hash, DoAccept(w, sid))
  {
    hide Inv, PipesSound, ProgressSound, ReceiveSound, ResultsSound, CountedSound, DeliveredSound, NoStaleUploads;
    hide NoNewerUploads;
    hide NewReceive;
    if PrepareAt(w.srv, sid, Deciding) {
      FreshReceive(w, sid);
    }
  }

  lemma AnswerKeeps(hash: Bytes -> string, w: World, accept: bool)
    requires WorldInv(hash, w) && w.pending.Some?
    ensures WorldInv(hash, DoAnswerPending(w, accept))
  {
    var v := w.(pending := None);
    assert WorldInv(hash, v) by {
      hide Inv, PipesSound, ProgressSound, ReceiveSound, ResultsSound, CountedSound, DeliveredSound, NoStaleUploads;
      hide NoNewerUploads;
    }
    AcceptKeeps(hash, v, w.pending.value);
    hide Inv, PipesSound, ProgressSound, ReceiveSound, ResultsSound, CountedSound, DeliveredSound, NoStaleUploads;
    hide NoNewerUploads;
    hide DoAccept;
  }

  lemma PrepareUploadKeeps(hash: Bytes -> string, w: World, sid: SessionId, reaction: Reaction)
    requires WorldInv(hash, w)
    ensures WorldInv(hash, DoPrepareUpload(w, sid, reaction))
  {
    AcceptKeeps(hash, w, sid);
    hide Inv, PipesSound, ProgressSound, ReceiveSound, ResultsSound, CountedSound, DeliveredSound, NoStaleUploads;
    hide NoNewerUploads;
    hide DoAccept;
  }

  lemma EndKeepsReceive(w: World, sid: SessionId, reason: EndReason)
    requires CountedSound(w.counted, w.receive, w.results, w.pipes, w.srv) && ReceiveSound(w.receive, w.progress, w.srv)
    ensures var receive := OnSessionEnd(w.receive, sid, reason);
      CountedSound(w.counted, receive, w.results, w.pipes, w.srv) && ReceiveSound(receive, w.progress, w.srv)
  {
    hide Sum;
  }

  /** The upload about to be shown, and why it is the latest one of an unsaved file. */
  lemma NextUpload(w: World)
    requires Inv(w.srv) && NoStaleUploads(w.srv, w.cursor)
    requires w.cursor < |w.srv.events| && w.srv.events[w.cursor].FileUpload?
    ensures var event := w.srv.events[w.cursor];
      && (event.sid, event.fid) !in w.srv.succeeded
      && event.request in w.srv.uploads
      && IsFor(w.srv.uploads[event.request], event.sid, event.fid)
      && !w.srv.uploads[event.request].pc.Claimed?
      && (UploadAt(w.srv, event.request, Receiving) ==>
            forall i :: w.cursor < i < |w.srv.events| ==> !AnnouncesFor(w.srv.events[i], event.sid, event.fid))
  {
    ServerParts(w.srv);
    hide Inv, UploadsSound, SuccessSound, DtosSound;
    var event := w.srv.events[w.cursor];
    assert UploadEventSound(event, w.srv.uploads);
    forall i | w.cursor < i < |w.srv.events|
      ensures UploadAt(w.srv, event.request, Receiving) ==> !AnnouncesFor(w.srv.events[i], event.sid, event.fid)
    {
      assert SupersededBy(event, w.srv.events[i], w.srv.uploads);
    }
  }

  lemma ShownKeepsReceive(w: World, sid: SessionId, fid: FileId, u: nat)
    requires Tracks(w.receive, sid) && u in w.srv.uploads && IsFor(w.srv.uploads[u], sid, fid)
    requires ReceiveSound(w.receive, w.progress, w.srv) && ProgressSound(w.progress, w.srv)
    ensures ProgressSound(w.progress[u := 0], w.srv)
    ensures ReceiveSound(OnFileUpload(w.receive, sid, fid, u), w.progress[u := 0], w.srv)
  {
  }

  lemma ShownKeepsCounted(w: World, sid: SessionId, fid: FileId, u: nat)
    requires Tracks(w.receive, sid) && (sid, fid) !in w.srv.succeeded
    requires CountedSound(w.counted, w.receive, w.results, w.pipes, w.srv)
    ensures CountedSound(w.counted, OnFileUpload(w.receive, sid, fid, u), w.results, w.pipes, w.srv)
  {
    hide Sum;
  }

  /** The application shows an upload; nothing is received for it yet. */
  lemma ShowKeeps(hash: Bytes -> string, w: World, sid: SessionId, fid: FileId, u: nat)
    requires WorldInv(hash, w) && Tracks(w.receive, sid)
    requires u in w.srv.uploads && IsFor(w.srv.uploads[u], sid, fid) && (sid, fid) !in w.srv.succeeded
    ensures WorldInv(hash, w.(receive := OnFileUpload(w.receive, sid, fid, u), progress := w.progress[u := 0]))
  {
    hide Inv, PipesSound, ProgressSound, ReceiveSound, ResultsSound, CountedSound, DeliveredSound, NoStaleUploads;
    hide NoNewerUploads;
    hide OnFileUpload;
    ShownKeepsReceive(w, sid, fid, u);
    ShownKeepsCounted(w, sid, fid, u);
  }

  lemma FreshPipe(hash: Bytes -> string, size: nat, expected: Option<string>, body: seq<Frame>)
    ensures PipeInv(hash, NewPipe(size, expected, body)) && NewPipe(size, expected, body).size == size
  {
  }

  lemma NewPipeKeepsPipes(hash: Bytes -> string, w: World, u: nat, pipe: Pipe)
    requires PipesSound(hash, w.pipes, w.srv) && ResultsSound(w.results, w.pipes, w.srv)
    requires u !in w.pipes && UploadAt(w.srv, u, Receiving)
    requires PipeInv(hash, pipe) && pipe.size == w.srv.uploads[u].dto.size
    ensures PipesSound(hash, w.pipes[u := pipe], w.srv) && ResultsSound(w.results, w.pipes[u := pipe], w.srv)
  {
    hide PipeInv;
  }

  lemma NewPipeKeepsReceive(w: World, u: nat, pipe: Pipe)
    requires CountedSound(w.counted, w.receive, w.results, w.pipes, w.srv) && NoNewerUploads(w.srv, w.cursor, w.pipes)
    requires u !in w.pipes && u in w.srv.uploads
    requires forall i :: w.cursor <= i < |w.srv.events| ==>
      !AnnouncesFor(w.srv.events[i], w.srv.uploads[u].sid, w.srv.uploads[u].fid)
    ensures CountedSound(w.counted, w.receive, w.results, w.pipes[u := pipe], w.srv)
    ensures NoNewerUploads(w.srv, w.cursor, w.pipes[u := pipe])
  {
    hide Sum;
  }

  lemma NewPipeKeeps(hash: Bytes -> string, w: World, u: nat, pipe: Pipe)
    requires WorldInv(hash, w) && u !in w.pipes && UploadAt(w.srv, u, Receiving)
    requires PipeInv(hash, pipe) && pipe.size == w.srv.uploads[u].dto.size
    requires forall i :: w.cursor <= i < |w.srv.events| ==>
      !AnnouncesFor(w.srv.events[i], w.srv.uploads[u].sid, w.srv.uploads[u].fid)
    ensures WorldInv(hash, w.(pipes := w.pipes[u := pipe]))
  {
    hide Inv, PipesSound, ProgressSound, ReceiveSound, ResultsSound, CountedSound, DeliveredSound, NoStaleUploads;
    hide NoNewerUploads;
    hide PipeInv;
    NewPipeKeepsPipes(hash, w, u, pipe);
    NewPipeKeepsReceive(w, u, pipe);
  }

  lemma AbortedResultKeeps(hash: Bytes -> string, w: World, u: nat)
    requires WorldInv(hash, w) && u in w.srv.uploads
    ensures WorldInv(hash, w.(results := w.results + {(u, false)}))
  {
    hide Inv, PipesSound, ProgressSound, ReceiveSound, NoStaleUploads, NoNewerUploads, Sum;
  }

  lemma FileUploadKeeps(hash: Bytes -> string, w: World, sid: SessionId, fid: FileId, u: nat, body: seq<Frame>,
                        verify: bool)
    requires WorldInv(hash, w)
    requires u in w.srv.uploads && IsFor(w.srv.uploads[u], sid, fid) && (sid, fid) !in w.srv.succeeded
    requires UploadAt(w.srv, u, Receiving) ==>
      forall i :: w.cursor <= i < |w.srv.events| ==> !AnnouncesFor(w.srv.events[i], sid, fid)
    ensures WorldInv(hash, DoFileUpload(w, sid, fid, u, body, verify))
  {
    hide WorldInv, OnFileUpload, PipeInv, NewPipe;
    if Tracks(w.receive, sid) {
      var shown := w.(receive := OnFileUpload(w.receive, sid, fid, u), progress := w.progress[u := 0]);
      ShowKeeps(hash, w, sid, fid, u);
      if UploadAt(w.srv, u, Receiving) && u !in w.pipes {
        var dto := w.srv.uploads[u].dto;
        var expected := if verify then dto.sha256 else None;
        FreshPipe(hash, dto.size, expected, body);
        NewPipeKeeps(hash, shown, u, NewPipe(dto.size, expected, body));
      } else {
        AbortedResultKeeps(hash, shown, u);
      }
    }
  }

  /** Moving past an event. */
  lemma AdvanceKeeps(hash: Bytes -> string, w: World, pending: Option<SessionId>)
    requires WorldInv(hash, w) && w.cursor < |w.srv.events|
    ensures WorldInv(hash, w.(cursor := w.cursor + 1, pending := pending))
  {
    hide Inv, PipesSound, ProgressSound, ReceiveSound, ResultsSound, CountedSound, DeliveredSound, NoStaleUploads;
    hide NoNewerUploads;
    ConsumedChannels(w);
  }

  lemma SessionEndKeeps(hash: Bytes -> string, w: World, sid: SessionId, reason: EndReason)
    requires WorldInv(hash, w)
    ensures WorldInv(hash, w.(receive := OnSessionEnd(w.receive, sid, reason)))
  {
    hide Inv, PipesSound, ProgressSound, ReceiveSound, ResultsSound, CountedSound, DeliveredSound, NoStaleUploads;
    hide NoNewerUploads;
    hide OnSessionEnd;
    EndKeepsReceive(w, sid, reason);
  }

  lemma NextUploadPart(hash: Bytes -> string, w: World)
    requires WorldInv(hash, w)
    ensures Inv(w.srv) && NoStaleUploads(w.srv, w.cursor)
  {
  }

  lemma ConsumeKeeps(hash: Bytes -> string, w: World, reaction: Reaction, body: seq<Frame>, verify: bool)
    requires WorldInv(hash, w) && w.cursor < |w.srv.events|
    ensures WorldInv(hash, DoConsume(w, reaction, body, verify))
  {
    hide WorldInv, Inv, NoStaleUploads, DoPrepareUpload, DoFileUpload, OnSessionEnd;
    var v := w.(cursor := w.cursor + 1);
    AdvanceKeeps(hash, w, w.pending);
    assert v == w.(cursor := w.cursor + 1, pending := w.pending);
    match w.srv.events[w.cursor] {
      case PrepareUpload(sid, _) => PrepareUploadKeeps(hash, v, sid, reaction);
      case FileUpload(sid, fid, u) =>
        NextUploadPart(hash, w);
        NextUpload(w);
        FileUploadKeeps(hash, v, sid, fid, u, body, verify);
      case SessionEnd(sid, reason) => SessionEndKeeps(hash, v, sid, reason);
      case PrepareUploadAborted(_) => AdvanceKeeps(hash, w, None);
      case CancelReceived(_, _) =>
    }
  }

  lemma CancelReceiveKeeps(hash: Bytes -> string, w: World)
    requires WorldInv(hash, w)
    ensures WorldInv(hash, w.(receive := None))
  {
    hide Inv, PipesSound, ProgressSound, ResultsSound, DeliveredSound, NoStaleUploads, NoNewerUploads;
  }

  lemma WorldStepKeeps(hash: Bytes -> string, w: World, step: WorldStep)
    requires WorldInv(hash, w)
    ensures WorldInv(hash, ApplyWorld(hash, w, step))
  {
    hide WorldInv, DoServer, DoConsume, DoAnswerPending, DoComplete, DoDeliverResult, ApplyPipe;
    match step {
      case Server(s) => if Allowed(w, s) { ServerKeeps(hash, w, s); }
      case Consume(reaction, body, verify) =>
        if w.cursor < |w.srv.events| { ConsumeKeeps(hash, w, reaction, body, verify); }
      case AnswerPending(accept) => if w.pending.Some? { AnswerKeeps(hash, w, accept); }
      case CancelReceive => CancelReceiveKeeps(hash, w);
      case Pipeline(u, pipe) =>
        if u in w.pipes && !pipe.Collect? && !pipe.DropRequest? { PipelineKeeps(hash, w, u, pipe); }
      case Complete(u) =>
        if u in w.pipes && w.pipes[u].forwarder.Awaiting? && w.pipes[u].writer.Stopped?
           && UploadAt(w.srv, u, Receiving)
        {
          CompleteKeeps(hash, w, u);
        }
      case DeliverProgress(u, i) =>
        if u in w.pipes && i < |w.pipes[u].reported| { ProgressKeeps(hash, w, u, i); }
      case DeliverResult(u, ok) => if (u, ok) in w.results { ResultKeeps(hash, w, u, ok); }
    }
  }

  lemma StartInv(hash: Bytes -> string)
    ensures WorldInv(hash, START)
  {
    InitialInv();
    hide Inv;
  }

  lemma {:induction false} ReachableWorld(hash: Bytes -> string, run: seq<WorldStep>)
    ensures WorldInv(hash, RunWorld(hash, run))
    decreases |run|
  {
    hide WorldInv, ApplyWorld;
    if run == [] {
      StartInv(hash);
    } else {
      ReachableWorld(hash, run[..|run| - 1]);
      WorldStepKeeps(hash, RunWorld(hash, run[..|run| - 1]), run[|run| - 1]);
    }
  }

  // Theorems

  /** Every (session, file) yields at most one Ok result, however often the file is retried. */
  lemma {:induction false} AtMostOneOk(hash: Bytes -> string, run: seq<WorldStep>, key: FileKey)
    ensures RunWorld(hash, run).delivered[key] <= 1
  {
    ReachableWorld(hash, run);
    hide Inv, PipesSound, ProgressSound, ReceiveSound, ResultsSound, CountedSound, NoStaleUploads, NoNewerUploads;
    hide RunWorld;
  }

  /** The request that saved a file wrote its whole body, of the declared size, matching any checksum. */
  predicate SavedInFull(hash: Bytes -> string, w: World, sid: SessionId, fid: FileId, size: nat) {
    && (sid, fid) in w.srv.succeeded
    && w.srv.succeeded[(sid, fid)] in w.pipes
    && var pipe := w.pipes[w.srv.succeeded[(sid, fid)]];
    && pipe.body == [] && BodyError !in pipe.consumed
    && pipe.file == BodyBytes(pipe.consumed)
    && |pipe.file| == size
    && Agrees(hash(pipe.file), pipe.expected)
  }

  lemma SuccessfulPipe(hash: Bytes -> string, p: Pipe)
    requires PipeInv(hash, p) && p.forwarder == Answered(Success)
    ensures p.body == [] && BodyError !in p.consumed && p.file == BodyBytes(p.consumed)
    ensures |p.file| == p.size && Agrees(hash(p.file), p.expected)
  {
    assert p.file + Flatten([]) + [] == p.file;
  }

  /** A file counted as received is not shown as in progress, and was saved in full. */
  lemma {:induction false} CountedFileIsSaved(hash: Bytes -> string, run: seq<WorldStep>, fid: FileId)
    requires var w := RunWorld(hash, run); w.receive.Some? && fid in w.counted
    ensures var w := RunWorld(hash, run);
      var r := w.receive.value;
      fid in r.files && fid !in r.inProgress && SavedInFull(hash, w, r.sid, fid, r.files[fid])
  {
    var w := RunWorld(hash, run);
    ReachableWorld(hash, run);
    hide RunWorld;
    CountedIsSaved(hash, w, fid);
  }

  lemma CountedIsSaved(hash: Bytes -> string, w: World, fid: FileId)
    requires WorldInv(hash, w) && w.receive.Some? && fid in w.counted
    ensures var r := w.receive.value;
      fid in r.files && fid !in r.inProgress && SavedInFull(hash, w, r.sid, fid, r.files[fid])
  {
    ServerParts(w.srv);
    hide Inv, ProgressSound, ResultsSound, DeliveredSound, NoStaleUploads, NoNewerUploads, UploadsSound, LogUploads;
    hide PipeInv, Sum;
    var u := w.srv.succeeded[(w.receive.value.sid, fid)];
    assert OffersFile(w.srv.prepares, w.receive.value.sid, fid, w.srv.uploads[u].dto);
    SuccessfulPipe(hash, w.pipes[u]);
  }

  lemma ShownWithinFiles(w: World)
    requires w.receive.Some? && ReceiveSound(w.receive, w.progress, w.srv) && ProgressSound(w.progress, w.srv)
    requires DtosSound(w.srv.slot, w.srv.uploads, w.srv.prepares)
    ensures var r, shown := w.receive.value, ShownProgress(w.receive.value, w.progress);
      forall fid :: fid in shown ==> fid in r.files && shown[fid] <= r.files[fid]
  {
    var r, shown := w.receive.value, ShownProgress(w.receive.value, w.progress);
    forall fid | fid in shown ensures fid in r.files && shown[fid] <= r.files[fid] {
      var u := r.inProgress[fid];
      assert OffersFile(w.srv.prepares, r.sid, fid, w.srv.uploads[u].dto);
    }
  }

  /** The progress display never exceeds the announced total, nor the file count the number of files. */
  lemma {:induction false} DoneNeverExceedsTotal(hash: Bytes -> string, run: seq<WorldStep>)
    ensures var w := RunWorld(hash, run);
      w.receive.Some? ==>
        && DoneBytes(w.receive.value, w.progress) <= TotalBytes(w.receive.value)
        && w.receive.value.finishedFiles <= |w.receive.value.files|
  {
    var w := RunWorld(hash, run);
    ReachableWorld(hash, run);
    ServerParts(w.srv);
    hide Inv, PipesSound, ResultsSound, NoStaleUploads, NoNewerUploads, RunWorld, UploadsSound, LogUploads;
    hide SuccessSound, Sum;
    if w.receive.Some? {
      ShownWithinFiles(w);
      WithinTotal(w.receive.value, w.counted, ShownProgress(w.receive.value, w.progress));
    }
  }

  lemma {:induction false} WithinTotal(r: Receive, counted: set<FileId>, shown: map<FileId, nat>)
    requires forall fid :: fid in counted ==> fid in r.files && fid !in shown
    requires forall fid :: fid in shown ==> fid in r.files && shown[fid] <= r.files[fid]
    ensures Sum(map fid | fid in r.files && fid in counted :: r.files[fid]) + Sum(shown) <= Sum(r.files)
    ensures |counted| <= |r.files|
  {
    var saved: map<FileId, nat> := map fid | fid in r.files && fid in counted :: r.files[fid];
    SumOfPartsBound(saved, shown, r.files);
    assert counted <= r.files.Keys;
    SubsetSize(counted, r.files.Keys);
  }
}
