/**
 * Where the sessions, pipelines and counters of a joint run come from: the
 * decisions the application sent, the uploads it consumed, the results that
 * were delivered to it and the reports of its server.
 */
module ReceiveOrigins {
  import opened Wrappers
  import opened Sums
  import opened Text
  import opened Session
  import opened UploadProtocol
  import opened UploadInvariants
  import opened UploadEnding
  import UploadOrigins
  import opened SavePipeline
  import opened ReceiveTracker
  import opened ReceiveComposition
  import opened ReceiveRetries
  import opened ReceiveEnding

  // Decisions

  /** Only requests that were asked about are decided, and the tracked session is one of them. */
  ghost predicate DecisionsAsked(decisions: map<SessionId, Decision>, pending: Option<SessionId>,
                                 receive: Option<Receive>, consumed: seq<Event>) {
    && (forall sid :: sid in decisions ==> AskedIn(consumed, sid) && pending != Some(sid))
    && (receive.Some? ==> receive.value.sid in decisions)
  }

  /** The application accepts all files of a request or none. */
  ghost predicate DecisionsWhole(decisions: map<SessionId, Decision>, prepares: Prepares) {
    forall sid :: sid in decisions && decisions[sid].Accept? && decisions[sid].ids != {} ==>
      sid in prepares && decisions[sid].ids == prepares[sid].offered.Keys
  }

  predicate FilesAsDecided(files: set<FileId>, decisions: map<SessionId, Decision>, prepares: Prepares,
                           sid: SessionId) {
    && sid in decisions && decisions[sid].Accept? && sid in prepares
    && files == prepares[sid].offered.Keys * decisions[sid].ids
    && files != {}
  }

  /** The server accepts what the application decided. */
  ghost predicate AcceptedAsDecided(accepted: map<SessionId, set<FileId>>, decisions: map<SessionId, Decision>,
                                    prepares: Prepares) {
    && (forall sid :: sid in accepted ==> FilesAsDecided(accepted[sid], decisions, prepares, sid))
    && (forall sid :: sid in prepares && prepares[sid].pc.Accepting? ==>
          FilesAsDecided(prepares[sid].pc.files.Keys, decisions, prepares, sid))
  }

  /** The session knows the reason the server reported. */
  ghost predicate EndReasonReported(receive: Option<Receive>, consumed: seq<Event>) {
    receive.Some? && receive.value.ended.Some? ==>
      SessionEnd(receive.value.sid, receive.value.ended.value) in consumed
  }

  ghost predicate OriginInv(w: World) {
    && DecisionsAsked(w.decisions, w.pending, w.receive, Consumed(w))
    && DecisionsWhole(w.decisions, w.srv.prepares)
    && AcceptedAsDecided(w.srv.accepted, w.decisions, w.srv.prepares)
    && EndReasonReported(w.receive, Consumed(w))
  }

  lemma StepKeepsDecided(w: World, step: Step)
    requires AcceptedAsDecided(w.srv.accepted, w.decisions, w.srv.prepares)
    requires DecisionsWhole(w.decisions, w.srv.prepares) && Allowed(w, step)
    ensures var t := Apply(w.srv, step);
      AcceptedAsDecided(t.accepted, w.decisions, t.prepares) && DecisionsWhole(w.decisions, t.prepares)
  {
    hide Apply;
    var t := Apply(w.srv, step);
    forall sid | sid in w.srv.prepares
      ensures sid in t.prepares && t.prepares[sid].offered == w.srv.prepares[sid].offered
    {
      UploadOrigins.RequestOpened(w.srv, step, sid);
    }
    forall sid | sid in t.accepted ensures FilesAsDecided(t.accepted[sid], w.decisions, t.prepares, sid) {
      UploadOrigins.AcceptedRecorded(w.srv, step, sid);
    }
    forall sid | sid in t.prepares && t.prepares[sid].pc.Accepting?
      ensures FilesAsDecided(t.prepares[sid].pc.files.Keys, w.decisions, t.prepares, sid)
    {
      UploadOrigins.AcceptingDecided(w.srv, step, sid);
    }
  }

  lemma ServerKeepsOrigin(w: World, v: World, step: Step)
    requires OriginInv(w) && Allowed(w, step) && w.cursor <= |w.srv.events|
    requires v == w.(srv := Apply(w.srv, step), pipes := v.pipes, results := v.results)
    ensures OriginInv(v)
  {
    hide Apply, Consumed, DecisionsAsked, DecisionsWhole, AcceptedAsDecided, EndReasonReported, Evolves, EventsEvolve;
    StepEvolves(w.srv, step);
    EvolvesParts(w.srv, v.srv);
    ConsumedKept(w, v.srv);
    StepKeepsDecided(w, step);
    SameConsumed(v, w.(srv := v.srv));
  }

  lemma SameConsumed(v: World, w: World)
    requires v.srv == w.srv && v.cursor == w.cursor
    ensures Consumed(v) == Consumed(w)
  {
  }

  /** Saving a file decides nothing. */
  lemma SavingDecidesNothing(w: World, u: nat, result: SaveResult)
    ensures Apply(w.srv, Upload(u, FinishUpload(result))).prepares == w.srv.prepares
    ensures Apply(w.srv, Upload(u, FinishUpload(result))).accepted == w.srv.accepted
    ensures Apply(w.srv, Upload(u, FinishUpload(result))).events == w.srv.events
  {
  }

  lemma CompleteKeepsOrigin(hash: Bytes -> string, w: World, u: nat)
    requires OriginInv(w) && u in w.pipes && w.pipes[u].forwarder.Awaiting? && w.pipes[u].writer.Stopped?
    ensures OriginInv(DoComplete(hash, w, u))
  {
    hide DecisionsAsked, DecisionsWhole, AcceptedAsDecided, EndReasonReported, Apply, HashMatches;
    SavingDecidesNothing(w, u, DoCollect(hash, w.pipes[u]).forwarder.result);
  }

  /** Everything the invariant speaks of stays, apart from the session. */
  lemma ReceiveKeepsOrigin(w: World, v: World)
    requires OriginInv(w)
    requires v.srv == w.srv && v.cursor == w.cursor && v.decisions == w.decisions && v.pending == w.pending
    requires v.receive.Some? ==>
      w.receive.Some? && v.receive.value.sid == w.receive.value.sid && v.receive.value.ended == w.receive.value.ended
    ensures OriginInv(v)
  {
    hide Consumed, DecisionsWhole, AcceptedAsDecided, AskedIn;
    SameConsumed(v, w);
  }

  lemma ResultKeepsOrigin(w: World, u: nat, ok: bool)
    requires OriginInv(w) && u in w.srv.uploads
    ensures OriginInv(DoDeliverResult(w, u, ok))
  {
    hide OriginInv;
    ReceiveKeepsOrigin(w, DoDeliverResult(w, u, ok));
  }

  lemma MoreConsumed(w: World, pending: Option<SessionId>, receive: Option<Receive>, consumed: seq<Event>, event: Event)
    requires DecisionsAsked(w.decisions, w.pending, w.receive, consumed) && EndReasonReported(w.receive, consumed)
    requires pending == w.pending || pending.None?
    requires receive == w.receive || (event.SessionEnd? && receive == OnSessionEnd(w.receive, event.sid, event.reason))
    ensures DecisionsAsked(w.decisions, pending, receive, consumed + [event])
    ensures EndReasonReported(receive, consumed + [event])
  {
    hide AskedIn;
    forall sid | sid in w.decisions ensures AskedIn(consumed + [event], sid) {
      AskedGrows(consumed, event, sid);
    }
  }

  /** Moving past an event that decides nothing. */
  lemma AdvanceKeepsOrigin(w: World, v: World)
    requires OriginInv(w) && w.cursor < |w.srv.events|
    requires v.srv == w.srv && v.cursor == w.cursor + 1 && v.decisions == w.decisions
    requires v.pending == w.pending || v.pending.None?
    requires var event := w.srv.events[w.cursor];
      v.receive == w.receive || (event.SessionEnd? && v.receive == OnSessionEnd(w.receive, event.sid, event.reason))
    ensures OriginInv(v)
  {
    hide Consumed, DecisionsAsked, DecisionsWhole, AcceptedAsDecided, EndReasonReported;
    ConsumedNext(v, w);
    MoreConsumed(w, v.pending, v.receive, Consumed(w), w.srv.events[w.cursor]);
  }

  lemma ShownKeepsOrigin(w: World, v: World, sid: SessionId, fid: FileId, u: nat)
    requires OriginInv(w)
    requires v.srv == w.srv && v.cursor == w.cursor && v.decisions == w.decisions && v.pending == w.pending
    requires v.receive == OnFileUpload(w.receive, sid, fid, u)
    ensures OriginInv(v)
  {
    hide OriginInv;
    ReceiveKeepsOrigin(w, v);
  }

  /** The first decision on a request changes nothing that was decided before. */
  lemma DecisionKeepsAccepted(w: World, sid: SessionId, decision: Decision)
    requires AcceptedAsDecided(w.srv.accepted, w.decisions, w.srv.prepares) && sid !in w.decisions
    ensures AcceptedAsDecided(w.srv.accepted, w.decisions[sid := decision], w.srv.prepares)
  {
  }

  lemma DecideKeepsOrigin(w: World, sid: SessionId, decision: Decision)
    requires OriginInv(w) && sid !in w.decisions && AskedIn(Consumed(w), sid) && w.pending != Some(sid)
    requires decision.Accept? && decision.ids != {} ==>
      sid in w.srv.prepares && decision.ids == w.srv.prepares[sid].offered.Keys
    ensures OriginInv(w.(decisions := w.decisions[sid := decision]))
  {
    hide Consumed, AcceptedAsDecided, AskedIn;
    SameConsumed(w.(decisions := w.decisions[sid := decision]), w);
    DecisionKeepsAccepted(w, sid, decision);
  }

  lemma AcceptKeepsOrigin(w: World, sid: SessionId)
    requires OriginInv(w) && sid !in w.decisions && AskedIn(Consumed(w), sid) && w.pending != Some(sid)
    ensures OriginInv(DoAccept(w, sid))
  {
    if PrepareAt(w.srv, sid, Deciding) {
      var v := w.(decisions := w.decisions[sid := Accept(w.srv.prepares[sid].offered.Keys)]);
      DecideKeepsOrigin(w, sid, Accept(w.srv.prepares[sid].offered.Keys));
      SameConsumed(DoAccept(w, sid), v);
      hide Consumed, AcceptedAsDecided, AskedIn, DecisionsWhole;
    }
  }

  lemma FreshQuestion(w: World)
    requires OriginInv(w) && OwnInv(w) && LogOrdered(w.srv.events) && w.cursor < |w.srv.events|
    requires w.srv.events[w.cursor].PrepareUpload?
    ensures w.srv.events[w.cursor].sid !in w.decisions
  {
    hide OwnInv, LogOrdered, AskedIn, Consumed;
    NotAskedBefore(w);
  }

  lemma PendingKeepsOrigin(w: World, pending: Option<SessionId>)
    requires OriginInv(w) && (pending.Some? ==> pending.value !in w.decisions)
    ensures OriginInv(w.(pending := pending))
  {
    hide Consumed, AcceptedAsDecided, AskedIn, DecisionsWhole, EndReasonReported;
    SameConsumed(w.(pending := pending), w);
  }

  lemma QuestionKeepsOrigin(v: World, sid: SessionId, reaction: Reaction)
    requires OriginInv(v) && sid !in v.decisions && AskedIn(Consumed(v), sid) && v.pending != Some(sid)
    ensures OriginInv(DoPrepareUpload(v, sid, reaction))
  {
    hide OriginInv, Consumed, AskedIn, DoAccept;
    match reaction {
      case AnswerMessage => DecideKeepsOrigin(v, sid, Accept({}));
      case AcceptPaired => AcceptKeepsOrigin(v, sid);
      case AskUser => PendingKeepsOrigin(v, Some(sid));
    }
  }

  lemma ConsumeKeepsOrigin(hash: Bytes -> string, w: World, reaction: Reaction, body: seq<Frame>, verify: bool)
    requires FullInv(hash, w) && OriginInv(w) && w.cursor < |w.srv.events|
    ensures OriginInv(DoConsume(w, reaction, body, verify))
  {
    hide WorldInv, RetryInv, OwnInv, OriginInv, Inv, NoStaleUploads, DoPrepareUpload, OnSessionEnd, OnFileUpload;
    hide LogOrdered, LogPrepares, LogEnds, Consumed, AskedIn, NewPipe;
    var v := w.(cursor := w.cursor + 1);
    match w.srv.events[w.cursor] {
      case PrepareUpload(sid, _) =>
        NextUploadPart(hash, w);
        LogParts(w.srv);
        NewAsked(w);
        FreshQuestion(w);
        AdvanceKeepsOrigin(w, v);
        QuestionKeepsOrigin(v, sid, reaction);
      case FileUpload(sid, fid, u) =>
        AdvanceKeepsOrigin(w, v);
        if Tracks(w.receive, sid) {
          ShownKeepsOrigin(v, DoFileUpload(v, sid, fid, u, body, verify), sid, fid, u);
        }
      case SessionEnd(sid, reason) => AdvanceKeepsOrigin(w, v.(receive := OnSessionEnd(w.receive, sid, reason)));
      case PrepareUploadAborted(_) =>
        AdvanceKeepsOrigin(w, v);
        AdvanceKeepsOrigin(w, v.(pending := None));
      case CancelReceived(_, _) => AdvanceKeepsOrigin(w, v);
    }
  }

  lemma AnswerKeepsOrigin(w: World, accept: bool)
    requires OriginInv(w) && OwnInv(w) && w.pending.Some?
    ensures OriginInv(DoAnswerPending(w, accept))
  {
    var sid, v := w.pending.value, w.(pending := None);
    assert sid !in w.decisions && AskedIn(Consumed(w), sid);
    hide OriginInv, OwnInv, AskedIn, DoAccept;
    SameConsumed(v, w);
    hide Consumed;
    PendingKeepsOrigin(w, None);
    if accept {
      AcceptKeepsOrigin(v, sid);
    } else {
      DecideKeepsOrigin(v, sid, Decline);
    }
  }

  lemma StepKeepsOrigin(hash: Bytes -> string, w: World, step: WorldStep)
    requires FullInv(hash, w) && OriginInv(w)
    ensures OriginInv(ApplyWorld(hash, w, step))
  {
    hide FullInv, WorldInv, RetryInv, OwnInv, OriginInv, Inv, DoConsume, DoAnswerPending, DoComplete, DoDeliverResult;
    hide ApplyPipe, Apply, Allowed;
    match step {
      case Server(s) =>
        CursorWithin(hash, w);
        if Allowed(w, s) { ServerKeepsOrigin(w, DoServer(hash, w, s), s); }
      case Consume(reaction, body, verify) =>
        if w.cursor < |w.srv.events| { ConsumeKeepsOrigin(hash, w, reaction, body, verify); }
      case AnswerPending(accept) =>
        OwnPart(hash, w);
        if w.pending.Some? { AnswerKeepsOrigin(w, accept); }
      case CancelReceive => ReceiveKeepsOrigin(w, w.(receive := None));
      case Pipeline(u, pipe) => ReceiveKeepsOrigin(w, ApplyWorld(hash, w, step));
      case Complete(u) =>
        if u in w.pipes && w.pipes[u].forwarder.Awaiting? && w.pipes[u].writer.Stopped? {
          CompleteKeepsOrigin(hash, w, u);
        }
      case DeliverProgress(u, i) => ReceiveKeepsOrigin(w, ApplyWorld(hash, w, step));
      case DeliverResult(u, ok) => if u in w.srv.uploads { ResultKeepsOrigin(w, u, ok); }
    }
  }

  lemma CursorWithin(hash: Bytes -> string, w: World)
    requires FullInv(hash, w)
    ensures w.cursor <= |w.srv.events|
  {
    hide WorldInv, RetryInv, OwnInv;
    CursorPart(hash, w);
  }

  lemma OwnPart(hash: Bytes -> string, w: World)
    requires FullInv(hash, w)
    ensures OwnInv(w)
  {
    hide WorldInv, RetryInv, OwnInv;
  }

  lemma {:induction false} ReachableOrigin(hash: Bytes -> string, run: seq<WorldStep>)
    ensures FullInv(hash, RunWorld(hash, run)) && OriginInv(RunWorld(hash, run))
    decreases |run|
  {
    ReachableOwn(hash, run);
    if run != [] {
      hide FullInv, OriginInv, ApplyWorld;
      ReachableOrigin(hash, run[..|run| - 1]);
      StepKeepsOrigin(hash, RunWorld(hash, run[..|run| - 1]), run[|run| - 1]);
    }
  }

  /**
   * A session holds exactly the offered files whose ids the application
   * accepted; the command-line application accepts them all. A request it
   * answered with no ids, like a message, never becomes a session.
   */
  lemma {:induction false} AcceptedIsDecided(hash: Bytes -> string, run: seq<WorldStep>, sid: SessionId)
    requires sid in RunWorld(hash, run).srv.accepted
    ensures var w := RunWorld(hash, run);
      && sid in w.decisions && w.decisions[sid].Accept? && sid in w.srv.prepares
      && w.srv.accepted[sid] == w.srv.prepares[sid].offered.Keys * w.decisions[sid].ids != {}
      && w.srv.accepted[sid] == w.srv.prepares[sid].offered.Keys
  {
    ReachableOrigin(hash, run);
    hide FullInv, RunWorld, DecisionsAsked, EndReasonReported;
    var w := RunWorld(hash, run);
    assert FilesAsDecided(w.srv.accepted[sid], w.decisions, w.srv.prepares, sid);
  }

  // Results

  /** The step delivers a result, successful or not, of an upload of the tracked session. */
  predicate Delivers(w: World, step: WorldStep, sid: SessionId, ok: bool) {
    && step.DeliverResult? && step.ok == ok && (step.u, ok) in w.results && Tracks(w.receive, sid)
    && step.u in w.srv.uploads && w.srv.uploads[step.u].sid == sid
  }

  /** How many results of a session were delivered while it was tracked. */
  function Deliveries(hash: Bytes -> string, run: seq<WorldStep>, sid: SessionId, ok: bool): nat {
    if run == [] then 0
    else
      var before, step := run[..|run| - 1], run[|run| - 1];
      Deliveries(hash, before, sid, ok) + if Delivers(RunWorld(hash, before), step, sid, ok) then 1 else 0
  }

  predicate Counts(receive: Option<Receive>, sid: SessionId, finished: nat, failed: nat) {
    Tracks(receive, sid) ==> receive.value.finishedFiles == finished && receive.value.failedFiles == failed
  }

  function Bit(b: bool): nat {
    if b then 1 else 0
  }

  /** A session without a decision has no results yet, the tracked one has counted its results. */
  ghost predicate Counted(w: World, sid: SessionId, finished: nat, failed: nat) {
    && (sid !in w.decisions ==> finished == 0 && failed == 0)
    && Counts(w.receive, sid, finished, failed)
  }

  lemma QuietKeepsCounts(w: World, v: World, sid: SessionId, finished: nat, failed: nat)
    requires Counted(w, sid, finished, failed)
    requires forall other :: other in w.decisions ==> other in v.decisions
    requires Tracks(v.receive, sid) ==>
      && Tracks(w.receive, sid)
      && v.receive.value.finishedFiles == w.receive.value.finishedFiles
      && v.receive.value.failedFiles == w.receive.value.failedFiles
    ensures Counted(v, sid, finished, failed)
  {
  }

  lemma AcceptCounts(w: World, sid: SessionId, finished: nat, failed: nat, other: SessionId)
    requires Counted(w, sid, finished, failed) && other !in w.decisions
    ensures Counted(DoAccept(w, other), sid, finished, failed)
  {
  }

  lemma QuestionCounts(v: World, reaction: Reaction, other: SessionId, sid: SessionId, finished: nat, failed: nat)
    requires Counted(v, sid, finished, failed) && other !in v.decisions
    ensures Counted(DoPrepareUpload(v, other, reaction), sid, finished, failed)
  {
    hide Counted, DoAccept;
    if reaction.AcceptPaired? {
      AcceptCounts(v, sid, finished, failed, other);
    } else {
      QuietKeepsCounts(v, DoPrepareUpload(v, other, reaction), sid, finished, failed);
    }
  }

  lemma EventCounts(w: World, reaction: Reaction, body: seq<Frame>, verify: bool, sid: SessionId, finished: nat,
                    failed: nat)
    requires w.cursor < |w.srv.events| && !w.srv.events[w.cursor].PrepareUpload?
    requires Counted(w, sid, finished, failed)
    ensures Counted(DoConsume(w, reaction, body, verify), sid, finished, failed)
  {
    hide Counted, NewPipe;
    QuietKeepsCounts(w, DoConsume(w, reaction, body, verify), sid, finished, failed);
  }

  lemma ConsumeCounts(hash: Bytes -> string, w: World, reaction: Reaction, body: seq<Frame>, verify: bool,
                      sid: SessionId, finished: nat, failed: nat)
    requires FullInv(hash, w) && OriginInv(w) && w.cursor < |w.srv.events| && Counted(w, sid, finished, failed)
    ensures Counted(DoConsume(w, reaction, body, verify), sid, finished, failed)
  {
    hide WorldInv, RetryInv, OwnInv, OriginInv, Inv, NoStaleUploads, Counted, DoPrepareUpload, DoFileUpload;
    hide LogOrdered, LogPrepares, LogEnds;
    if w.srv.events[w.cursor].PrepareUpload? {
      NextUploadPart(hash, w);
      LogParts(w.srv);
      FreshQuestion(w);
      QuietKeepsCounts(w, w.(cursor := w.cursor + 1), sid, finished, failed);
      QuestionCounts(w.(cursor := w.cursor + 1), reaction, w.srv.events[w.cursor].sid, sid, finished, failed);
    } else {
      hide DoConsume;
      EventCounts(w, reaction, body, verify, sid, finished, failed);
    }
  }

  lemma AnswerCounts(w: World, accept: bool, sid: SessionId, finished: nat, failed: nat)
    requires OriginInv(w) && w.pending.Some? && Counted(w, sid, finished, failed)
    ensures Counted(DoAnswerPending(w, accept), sid, finished, failed)
  {
    var v := w.(pending := None);
    assert w.pending.value !in w.decisions;
    hide OriginInv, Counted, DoAccept;
    QuietKeepsCounts(w, v, sid, finished, failed);
    if accept {
      AcceptCounts(v, sid, finished, failed, w.pending.value);
    } else {
      QuietKeepsCounts(w, DoAnswerPending(w, accept), sid, finished, failed);
    }
  }

  lemma DeliverCounts(w: World, u: nat, ok: bool, sid: SessionId, finished: nat, failed: nat)
    requires OriginInv(w) && (u, ok) in w.results && u in w.srv.uploads && Counted(w, sid, finished, failed)
    ensures var step := DeliverResult(u, ok);
      Counted(DoDeliverResult(w, u, ok), sid, finished + Bit(Delivers(w, step, sid, true)),
              failed + Bit(Delivers(w, step, sid, false)))
  {
  }

  lemma StepCounts(hash: Bytes -> string, w: World, step: WorldStep, sid: SessionId, finished: nat, failed: nat)
    requires FullInv(hash, w) && OriginInv(w) && Counted(w, sid, finished, failed)
    ensures Counted(ApplyWorld(hash, w, step), sid, finished + Bit(Delivers(w, step, sid, true)),
                    failed + Bit(Delivers(w, step, sid, false)))
  {
    hide FullInv, OriginInv, Counted, DoConsume, DoAnswerPending, DoDeliverResult, Apply, ApplyPipe, DoCollect;
    match step {
      case Consume(reaction, body, verify) =>
        if w.cursor < |w.srv.events| { ConsumeCounts(hash, w, reaction, body, verify, sid, finished, failed); }
      case AnswerPending(accept) => if w.pending.Some? { AnswerCounts(w, accept, sid, finished, failed); }
      case DeliverResult(u, ok) =>
        if (u, ok) in w.results && u in w.srv.uploads { DeliverCounts(w, u, ok, sid, finished, failed); }
      case _ => QuietKeepsCounts(w, ApplyWorld(hash, w, step), sid, finished, failed);
    }
  }

  lemma {:induction false} DeliveriesNext(hash: Bytes -> string, run: seq<WorldStep>, sid: SessionId, ok: bool)
    requires run != []
    ensures var before, step := run[..|run| - 1], run[|run| - 1];
      Deliveries(hash, run, sid, ok)
      == Deliveries(hash, before, sid, ok) + Bit(Delivers(RunWorld(hash, before), step, sid, ok))
  {
    hide RunWorld;
  }

  lemma {:induction false} LastStep(hash: Bytes -> string, run: seq<WorldStep>)
    requires run != []
    ensures RunWorld(hash, run) == ApplyWorld(hash, RunWorld(hash, run[..|run| - 1]), run[|run| - 1])
  {
    hide ApplyWorld;
  }

  lemma {:induction false} NoneDelivered(hash: Bytes -> string, sid: SessionId)
    ensures Counted(RunWorld(hash, []), sid, 0, 0)
    ensures Deliveries(hash, [], sid, true) == 0 == Deliveries(hash, [], sid, false)
  {
  }

  lemma {:induction false} DeliveriesCounted(hash: Bytes -> string, run: seq<WorldStep>, sid: SessionId)
    ensures Counted(RunWorld(hash, run), sid, Deliveries(hash, run, sid, true), Deliveries(hash, run, sid, false))
    decreases |run|
  {
    hide FullInv, OriginInv, Counted, ApplyWorld, Delivers, RunWorld, Deliveries;
    if run == [] {
      NoneDelivered(hash, sid);
    } else {
      var before := run[..|run| - 1];
      DeliveriesCounted(hash, before, sid);
      ReachableOrigin(hash, before);
      LastStep(hash, run);
      DeliveriesNext(hash, run, sid, true);
      DeliveriesNext(hash, run, sid, false);
      StepCounts(hash, RunWorld(hash, before), run[|run| - 1], sid, Deliveries(hash, before, sid, true),
                 Deliveries(hash, before, sid, false));
    }
  }

  /**
   * The summary of the receive session is true: it counts every successful
   * and every failed result that was delivered to it, once.
   */
  lemma {:induction false} ResultsAreCounted(hash: Bytes -> string, run: seq<WorldStep>)
    requires RunWorld(hash, run).receive.Some?
    ensures var r := RunWorld(hash, run).receive.value;
      && r.finishedFiles == Deliveries(hash, run, r.sid, true)
      && r.failedFiles == Deliveries(hash, run, r.sid, false)
  {
    DeliveriesCounted(hash, run, RunWorld(hash, run).receive.value.sid);
  }

  lemma TwoEnds(events: seq<Event>, i: nat, j: nat)
    requires LogOrdered(events) && i < j < |events| && events[i].SessionEnd? && events[j].SessionEnd?
    ensures events[i].sid != events[j].sid
  {
    assert MayPrecede(events[i], events[j]);
  }

  lemma ReasonIsUnique(events: seq<Event>, consumed: seq<Event>, sid: SessionId, a: EndReason, b: EndReason)
    requires LogOrdered(events) && consumed <= events
    requires SessionEnd(sid, a) in consumed && SessionEnd(sid, b) in consumed
    ensures a == b
  {
    hide LogOrdered;
    var i :| 0 <= i < |consumed| && consumed[i] == SessionEnd(sid, a);
    var j :| 0 <= j < |consumed| && consumed[j] == SessionEnd(sid, b);
    if i < j {
      TwoEnds(events, i, j);
    } else if j < i {
      TwoEnds(events, j, i);
    }
  }

  /** The session has ended for a reason exactly if the server reported that reason. */
  lemma {:induction false} EndReasonIff(hash: Bytes -> string, run: seq<WorldStep>, reason: EndReason)
    requires RunWorld(hash, run).receive.Some?
    ensures var w := RunWorld(hash, run);
      && w.cursor <= |w.srv.events|
      && (w.receive.value.ended == Some(reason) <==>
            SessionEnd(w.receive.value.sid, reason) in w.srv.events[..w.cursor])
  {
    ReachableOrigin(hash, run);
    var w := RunWorld(hash, run);
    hide RunWorld, WorldInv, RetryInv, Inv, LogOrdered;
    CursorPart(hash, w);
    ServerInv(hash, w);
    LogParts(w.srv);
    var sid := w.receive.value.sid;
    if SessionEnd(sid, reason) in Consumed(w) {
      var i :| 0 <= i < |Consumed(w)| && Consumed(w)[i] == SessionEnd(sid, reason);
      assert IsEndOf(Consumed(w)[i], sid);
      assert w.receive.value.ended.Some?;
      ReasonIsUnique(w.srv.events, Consumed(w), sid, reason, w.receive.value.ended.value);
    }
  }

  // Pipelines

  /** The step `k` shows the upload `u`, whose body is about to arrive. */
  predicate ShowsAt(hash: Bytes -> string, run: seq<WorldStep>, k: nat, u: nat, body: seq<Frame>, verify: bool) {
    && k < |run| && run[k].Consume? && run[k].body == body && run[k].verify == verify
    && var w := RunWorld(hash, run[..k]);
    && w.cursor < |w.srv.events| && w.srv.events[w.cursor].FileUpload? && w.srv.events[w.cursor].request == u
  }

  predicate SameBody(p: Pipe, q: Pipe) {
    q.expected == p.expected && q.consumed + q.body == p.consumed + p.body
  }

  predicate OpensPipe(w: World, step: WorldStep, u: nat, pipe: Pipe) {
    && step.Consume? && w.cursor < |w.srv.events|
    && w.srv.events[w.cursor].FileUpload? && w.srv.events[w.cursor].request == u
    && u in w.srv.uploads
    && pipe.expected == (if step.verify then w.srv.uploads[u].dto.sha256 else None)
    && pipe.consumed + pipe.body == step.body
  }

  lemma ConsumeOpensPipe(w: World, reaction: Reaction, body: seq<Frame>, verify: bool, u: nat)
    requires w.cursor < |w.srv.events| && u in DoConsume(w, reaction, body, verify).pipes
    ensures var pipe := DoConsume(w, reaction, body, verify).pipes[u];
      (u in w.pipes && pipe == w.pipes[u]) || OpensPipe(w, Consume(reaction, body, verify), u, pipe)
  {
    assert [] + body == body;
    hide OnSessionEnd, OnFileUpload, NewReceive;
  }

  lemma StepOpensPipe(hash: Bytes -> string, w: World, step: WorldStep, u: nat)
    requires u in ApplyWorld(hash, w, step).pipes
    ensures var pipe := ApplyWorld(hash, w, step).pipes[u];
      (u in w.pipes && SameBody(w.pipes[u], pipe)) || OpensPipe(w, step, u, pipe)
  {
    hide DoConsume, DoAnswerPending, DoDeliverResult, Apply, ApplyPipe, Allowed, OpensPipe, HashMatches;
    match step {
      case Consume(reaction, body, verify) =>
        if w.cursor < |w.srv.events| { ConsumeOpensPipe(w, reaction, body, verify, u); }
      case AnswerPending(accept) => if w.pending.Some? { AnswerOpensNothing(w, accept); }
      case DeliverResult(v, ok) => if v in w.srv.uploads { DeliverOpensNothing(w, v, ok); }
      case Server(s) => if s.Upload? && s.u in w.pipes { StepKeepsRequest(hash, w.pipes[s.u], DropRequest); }
      case Pipeline(v, pipe) => if v in w.pipes { StepKeepsRequest(hash, w.pipes[v], pipe); }
      case _ =>
    }
  }

  lemma AnswerOpensNothing(w: World, accept: bool)
    requires w.pending.Some?
    ensures DoAnswerPending(w, accept).pipes == w.pipes
  {
  }

  lemma DeliverOpensNothing(w: World, u: nat, ok: bool)
    requires u in w.srv.uploads
    ensures DoDeliverResult(w, u, ok).pipes == w.pipes
  {
  }

  lemma UploadKept(hash: Bytes -> string, w: World, step: WorldStep, u: nat)
    requires u in w.srv.uploads
    ensures var v := ApplyWorld(hash, w, step);
      u in v.srv.uploads && v.srv.uploads[u].dto == w.srv.uploads[u].dto
  {
    hide DoConsume, DoAnswerPending, DoDeliverResult, Apply, ApplyPipe, Allowed, DoCollect;
    match step {
      case Server(s) => UploadOrigins.UploadRequested(w.srv, s, u);
      case Complete(v) =>
        if v in w.pipes && w.pipes[v].forwarder.Awaiting? && w.pipes[v].writer.Stopped? {
          CompleteKeepsUpload(hash, w, v, u);
        }
      case Consume(reaction, body, verify) =>
        if w.cursor < |w.srv.events| { ConsumeLeavesServer(w, reaction, body, verify); }
      case AnswerPending(accept) => if w.pending.Some? { AnswerLeavesServer(w, accept); }
      case DeliverResult(v, ok) => if v in w.srv.uploads { DeliverLeavesServer(w, v, ok); }
      case _ =>
    }
  }

  lemma CompleteKeepsUpload(hash: Bytes -> string, w: World, v: nat, u: nat)
    requires v in w.pipes && w.pipes[v].forwarder.Awaiting? && w.pipes[v].writer.Stopped? && u in w.srv.uploads
    ensures u in DoComplete(hash, w, v).srv.uploads
    ensures DoComplete(hash, w, v).srv.uploads[u].dto == w.srv.uploads[u].dto
  {
    hide Apply, HashMatches;
    UploadOrigins.UploadRequested(w.srv, Upload(v, FinishUpload(DoCollect(hash, w.pipes[v]).forwarder.result)), u);
  }

  lemma ConsumeLeavesServer(w: World, reaction: Reaction, body: seq<Frame>, verify: bool)
    requires w.cursor < |w.srv.events|
    ensures DoConsume(w, reaction, body, verify).srv == w.srv
  {
    hide OnSessionEnd, OnFileUpload, NewReceive, NewPipe;
  }

  lemma AnswerLeavesServer(w: World, accept: bool)
    requires w.pending.Some?
    ensures DoAnswerPending(w, accept).srv == w.srv
  {
  }

  lemma DeliverLeavesServer(w: World, u: nat, ok: bool)
    requires u in w.srv.uploads
    ensures DoDeliverResult(w, u, ok).srv == w.srv
  {
    hide OnResult;
  }

  lemma {:induction false} EarlierShow(hash: Bytes -> string, run: seq<WorldStep>, n: nat, k: nat, u: nat,
                                       body: seq<Frame>, verify: bool)
    requires n <= |run| && ShowsAt(hash, run[..n], k, u, body, verify)
    ensures ShowsAt(hash, run, k, u, body, verify)
  {
    assert run[..n][..k] == run[..k];
  }

  predicate Reads(w: World, u: nat, body: seq<Frame>, verify: bool) {
    && u in w.pipes && u in w.srv.uploads
    && w.pipes[u].expected == (if verify then w.srv.uploads[u].dto.sha256 else None)
    && w.pipes[u].consumed + w.pipes[u].body == body
  }

  lemma StepKeepsReads(hash: Bytes -> string, w: World, step: WorldStep, u: nat, body: seq<Frame>, verify: bool)
    requires Reads(w, u, body, verify) && u in ApplyWorld(hash, w, step).pipes
    requires SameBody(w.pipes[u], ApplyWorld(hash, w, step).pipes[u])
    ensures Reads(ApplyWorld(hash, w, step), u, body, verify)
  {
    hide ApplyWorld;
    UploadKept(hash, w, step, u);
  }

  lemma OpenedReads(hash: Bytes -> string, w: World, step: WorldStep, u: nat)
    requires u in ApplyWorld(hash, w, step).pipes && OpensPipe(w, step, u, ApplyWorld(hash, w, step).pipes[u])
    ensures Reads(ApplyWorld(hash, w, step), u, step.body, step.verify)
  {
    hide ApplyWorld;
    UploadKept(hash, w, step, u);
  }

  lemma {:induction false} NothingAtStart(hash: Bytes -> string, run: seq<WorldStep>, u: nat)
    requires u in RunWorld(hash, run).pipes
    ensures run != [] && RunWorld(hash, run) == ApplyWorld(hash, RunWorld(hash, run[..|run| - 1]), run[|run| - 1])
  {
  }

  /** A pipeline reads the body that came with its upload, and checks the checksum the sender offered, if asked to. */
  lemma {:induction false} PipeComesFromUpload(hash: Bytes -> string, run: seq<WorldStep>, u: nat)
    returns (k: nat, body: seq<Frame>, verify: bool)
    requires u in RunWorld(hash, run).pipes
    ensures ShowsAt(hash, run, k, u, body, verify) && Reads(RunWorld(hash, run), u, body, verify)
    decreases |run|
  {
    NothingAtStart(hash, run, u);
    hide RunWorld, ApplyWorld, Reads, SameBody;
    var n := |run| - 1;
    var before, step := run[..n], run[n];
    var w := RunWorld(hash, before);
    StepOpensPipe(hash, w, step, u);
    if u in w.pipes && SameBody(w.pipes[u], RunWorld(hash, run).pipes[u]) {
      hide ShowsAt, OpensPipe;
      k, body, verify := PipeComesFromUpload(hash, before, u);
      EarlierShow(hash, run, n, k, u, body, verify);
      StepKeepsReads(hash, w, step, u, body, verify);
    } else {
      k, body, verify := n, step.body, step.verify;
      OpenedReads(hash, w, step, u);
    }
  }

  /**
   * A file counted as received holds exactly the bytes the sender uploaded for
   * it, as many as it offered; if checksums are verified and it offered one,
   * the digest of the file agrees with it.
   */
  lemma {:induction false} CountedFileIsUploaded(hash: Bytes -> string, run: seq<WorldStep>, fid: FileId)
    returns (k: nat, u: nat, body: seq<Frame>, verify: bool)
    requires RunWorld(hash, run).receive.Some? && fid in RunWorld(hash, run).counted
    ensures var w := RunWorld(hash, run);
      var sid := w.receive.value.sid;
      && ShowsAt(hash, run, k, u, body, verify) && u in w.pipes && u in w.srv.uploads
      && IsFor(w.srv.uploads[u], sid, fid)
      && sid in w.srv.prepares && fid in w.srv.prepares[sid].offered
      && var dto := w.srv.prepares[sid].offered[fid];
      && BodyError !in body && w.pipes[u].file == BodyBytes(body) && |w.pipes[u].file| == dto.size
      && (verify ==> Agrees(hash(BodyBytes(body)), dto.sha256))
  {
    var w := RunWorld(hash, run);
    CountedFileIsSaved(hash, run, fid);
    ReachableWorld(hash, run);
    var sid := w.receive.value.sid;
    u := w.srv.succeeded[(sid, fid)];
    CountedUpload(hash, w, fid);
    hide WorldInv, RunWorld, Agrees;
    k, body, verify := PipeComesFromUpload(hash, run, u);
    assert w.pipes[u].consumed + [] == w.pipes[u].consumed;
  }

  lemma CountedUpload(hash: Bytes -> string, w: World, fid: FileId)
    requires WorldInv(hash, w) && w.receive.Some? && fid in w.counted
    ensures var sid := w.receive.value.sid;
      && (sid, fid) in w.srv.succeeded
      && var u := w.srv.succeeded[(sid, fid)];
      && u in w.srv.uploads && IsFor(w.srv.uploads[u], sid, fid)
      && OffersFile(w.srv.prepares, sid, fid, w.srv.uploads[u].dto)
      && sid in w.srv.prepares && w.receive.value.files == Sizes(w.srv.prepares[sid].offered)
  {
    hide Inv, PipesSound, ProgressSound, ResultsSound, DeliveredSound, NoStaleUploads, NoNewerUploads;
    ServerParts(w.srv);
    assert (w.receive.value.sid, fid) in w.srv.succeeded;
  }

  /** Once every file is counted, the bytes shown as done are all bytes announced. */
  lemma {:induction false} AllDoneIsTotal(hash: Bytes -> string, run: seq<WorldStep>)
    requires RunWorld(hash, run).receive.Some?
    requires RunWorld(hash, run).counted == RunWorld(hash, run).receive.value.files.Keys
    ensures var w := RunWorld(hash, run); DoneBytes(w.receive.value, w.progress) == TotalBytes(w.receive.value)
  {
    ReachableWorld(hash, run);
    var w := RunWorld(hash, run);
    hide RunWorld;
    AllShown(hash, w);
  }

  lemma CountedParts(hash: Bytes -> string, w: World)
    requires WorldInv(hash, w)
    ensures CountedSound(w.counted, w.receive, w.results, w.pipes, w.srv)
    ensures ReceiveSound(w.receive, w.progress, w.srv) && ProgressSound(w.progress, w.srv)
    ensures DtosSound(w.srv.slot, w.srv.uploads, w.srv.prepares)
  {
    hide CountedSound, ReceiveSound, ProgressSound;
    ServerParts(w.srv);
    hide DtosSound;
  }

  lemma CountedFacts(w: World)
    requires w.receive.Some? && CountedSound(w.counted, w.receive, w.results, w.pipes, w.srv)
    ensures var r := w.receive.value;
      && r.finalizedBytes == Sum(map fid | fid in r.files && fid in w.counted :: r.files[fid])
      && forall fid :: fid in w.counted ==> fid !in r.inProgress
  {
  }

  lemma AllCounted(files: map<FileId, nat>, counted: set<FileId>, shown: map<FileId, nat>)
    requires counted == files.Keys && forall fid :: fid in shown ==> fid in files && fid !in counted
    ensures Sum(map fid | fid in files && fid in counted :: files[fid]) + Sum(shown) == Sum(files)
  {
    assert files == map fid | fid in files && fid in counted :: files[fid];
    assert shown == map[];
  }

  lemma AllShown(hash: Bytes -> string, w: World)
    requires WorldInv(hash, w) && w.receive.Some? && w.counted == w.receive.value.files.Keys
    ensures DoneBytes(w.receive.value, w.progress) == TotalBytes(w.receive.value)
  {
    CountedParts(hash, w);
    hide WorldInv, CountedSound, ReceiveSound, ProgressSound, DtosSound, Sum;
    CountedFacts(w);
    ShownWithinFiles(w);
    AllCounted(w.receive.value.files, w.counted, ShownProgress(w.receive.value, w.progress));
  }

  /** A delivered progress value is what is shown for the files of its request, and for no other file. */
  lemma ProgressIsShown(hash: Bytes -> string, w: World, u: nat, i: nat, fid: FileId)
    requires u in w.pipes && i < |w.pipes[u].reported| && w.receive.Some? && fid in w.receive.value.inProgress
    ensures var v := ApplyWorld(hash, w, DeliverProgress(u, i));
      && v == w.(progress := v.progress)
      && var before, after := ShownProgress(w.receive.value, w.progress), ShownProgress(w.receive.value, v.progress);
      && fid in before && fid in after
      && after[fid] == if w.receive.value.inProgress[fid] == u then w.pipes[u].reported[i] else before[fid]
  {
  }

  // The question shown to the user

  predicate Asks(w: World, step: WorldStep, sid: SessionId) {
    && step.Consume? && step.reaction.AskUser? && w.cursor < |w.srv.events|
    && w.srv.events[w.cursor].PrepareUpload? && w.srv.events[w.cursor].sid == sid
  }

  /** The step takes the question away: it is answered, aborted, or replaced by the next one. */
  predicate Withdraws(w: World, step: WorldStep, sid: SessionId) {
    || step.AnswerPending?
    || (step.Consume? && w.cursor < |w.srv.events|
        && (w.srv.events[w.cursor] == PrepareUploadAborted(sid)
            || (w.srv.events[w.cursor].PrepareUpload? && step.reaction.AskUser?)))
  }

  lemma ConsumePending(w: World, reaction: Reaction, body: seq<Frame>, verify: bool)
    requires w.cursor < |w.srv.events|
    ensures var event := w.srv.events[w.cursor];
      DoConsume(w, reaction, body, verify).pending ==
      if event.PrepareUpload? && reaction.AskUser? then Some(event.sid)
      else if event.PrepareUploadAborted? && w.pending == Some(event.sid) then None
      else w.pending
  {
    hide OnFileUpload, OnSessionEnd, NewPipe, NewReceive;
  }

  lemma AnswerPendingClears(w: World, accept: bool)
    requires w.pending.Some?
    ensures DoAnswerPending(w, accept).pending == None
  {
    hide NewReceive;
  }

  /**
   * A question is shown exactly from the moment the user is asked until it is
   * answered, the sender or the server aborts that very request, or another
   * request takes its place.
   */
  lemma PendingIff(hash: Bytes -> string, w: World, step: WorldStep, sid: SessionId)
    ensures ApplyWorld(hash, w, step).pending == Some(sid) <==>
      Asks(w, step, sid) || (w.pending == Some(sid) && !Withdraws(w, step, sid))
  {
    hide Apply, ApplyPipe, DoCollect, OnResult, DoConsume, DoAnswerPending;
    if step.Consume? && w.cursor < |w.srv.events| {
      ConsumePending(w, step.reaction, step.body, step.verify);
    } else if step.AnswerPending? && w.pending.Some? {
      AnswerPendingClears(w, step.accept);
    }
  }

  /** The decision the step sends for a request, if it sends one. */
  function Answers(w: World, step: WorldStep, sid: SessionId): Option<Decision> {
    if step.Consume? && w.cursor < |w.srv.events| && w.srv.events[w.cursor].PrepareUpload?
       && w.srv.events[w.cursor].sid == sid
    then
      match step.reaction
      case AnswerMessage => Some(Accept({}))
      case AcceptPaired => AcceptAll(w, sid)
      case AskUser => None
    else if step.AnswerPending? && w.pending == Some(sid) then
      if step.accept then AcceptAll(w, sid) else Some(Decline)
    else None
  }

  /** A request that is already gone cannot be accepted. */
  function AcceptAll(w: World, sid: SessionId): Option<Decision> {
    if sid in w.srv.prepares && w.srv.prepares[sid].pc.Deciding?
    then Some(Accept(w.srv.prepares[sid].offered.Keys)) else None
  }

  /**
   * A message is answered with no ids, a request of a paired sender or one
   * that the user accepts with all of them, one that the user declines with a
   * refusal. Nothing else decides anything.
   */
  lemma StepDecides(hash: Bytes -> string, w: World, step: WorldStep, sid: SessionId)
    ensures var v := ApplyWorld(hash, w, step);
      match Answers(w, step, sid)
      case Some(decision) => sid in v.decisions && v.decisions[sid] == decision
      case None =>
        (sid in v.decisions <==> sid in w.decisions) && (sid in w.decisions ==> v.decisions[sid] == w.decisions[sid])
  {
    hide Apply, ApplyPipe, DoCollect, OnFileUpload, OnResult, OnSessionEnd, NewPipe, NewReceive;
  }
}
