/** Which receive sessions can still end on their own, without the user and without another accepted request. */
module ReceiveEnding {
  import opened Wrappers
  import opened Text
  import opened Session
  import opened UploadProtocol
  import opened UploadInvariants
  import opened UploadOrigins
  import UploadProgress
  import opened UploadEnding
  import opened SavePipeline
  import opened ReceiveTracker
  import opened ReceiveComposition
  import opened ReceiveRetries

  // Invariant

  /** Every entry waits for a result that is still to come. */
  ghost predicate EntriesAwaited(receive: Option<Receive>, pipes: map<nat, Pipe>, results: set<(nat, bool)>) {
    receive.Some? ==>
      forall fid :: fid in receive.value.inProgress ==> Undelivered(pipes, results, receive.value.inProgress[fid])
  }

  ghost predicate UnansweredReceiving(pipes: map<nat, Pipe>, uploads: Uploads) {
    forall u :: u in pipes && pipes[u].answer.None? ==> u in uploads && uploads[u].pc.Receiving?
  }

  /** The session knows of its end exactly if the report was consumed, and then something is in flight. */
  ghost predicate EndedIffReported(receive: Option<Receive>, consumed: seq<Event>) {
    receive.Some? ==>
      && (receive.value.ended.Some? <==> Reported(consumed, receive.value.sid))
      && (receive.value.ended.Some? ==> receive.value.inProgress != map[])
  }

  predicate AskedIn(events: seq<Event>, sid: SessionId) {
    exists i :: 0 <= i < |events| && events[i].PrepareUpload? && events[i].sid == sid
  }

  /** Every request is answered once. */
  ghost predicate AskedOnce(receive: Option<Receive>, pending: Option<SessionId>, consumed: seq<Event>) {
    && (pending.Some? ==> AskedIn(consumed, pending.value))
    && (receive.Some? ==> AskedIn(consumed, receive.value.sid) && pending != Some(receive.value.sid))
  }

  /** While the tracked session is being decided, the decision is to accept all of it. */
  ghost predicate DecisionMade(receive: Option<Receive>, decisions: map<SessionId, Decision>, prepares: Prepares) {
    receive.Some? && receive.value.sid in prepares && prepares[receive.value.sid].pc.Deciding? ==>
      && receive.value.sid in decisions
      && decisions[receive.value.sid] == Accept(prepares[receive.value.sid].offered.Keys)
  }

  ghost predicate OwnInv(w: World) {
    && EndingInv(w.srv)
    && EntriesAwaited(w.receive, w.pipes, w.results)
    && UnansweredReceiving(w.pipes, w.srv.uploads)
    && EndedIffReported(w.receive, Consumed(w))
    && AskedOnce(w.receive, w.pending, Consumed(w))
    && DecisionMade(w.receive, w.decisions, w.srv.prepares)
  }

  // Server steps

  lemma {:induction false} OthersKeepReceiving(s: State, u: nat, step: UploadStep, other: nat)
    requires other in s.uploads && s.uploads[other].pc.Receiving?
    requires other == u ==> !step.FinishUpload? && !step.DropUpload?
    ensures other in ApplyUpload(s, u, step).uploads && ApplyUpload(s, u, step).uploads[other].pc.Receiving?
  {
  }

  lemma {:induction false} StepKeepsReceiving(s: State, step: Step, other: nat)
    requires other in s.uploads && s.uploads[other].pc.Receiving?
    requires step.Upload? && step.u == other ==> !step.upload.FinishUpload? && !step.upload.DropUpload?
    ensures other in Apply(s, step).uploads && Apply(s, step).uploads[other].pc.Receiving?
  {
    hide ApplyPrepare, ApplyUpload, ApplyCancel;
    match step {
      case Prepare(sid, prepare) => PrepareLeavesUploads(s, sid, prepare);
      case Upload(u, upload) => OthersKeepReceiving(s, u, upload, other);
      case Cancel(c, cancel) => CancelEvolves(s, c, cancel);
      case CancelByApplication(_) =>
    }
  }

  /** A request whose question was consumed is past announcing. */
  lemma AskedIsAnnounced(s: State, consumed: seq<Event>, sid: SessionId)
    requires LogPrepares(s.events, s.prepares, s.accepted) && consumed <= s.events && AskedIn(consumed, sid)
    ensures sid in s.prepares && !s.prepares[sid].pc.Announcing?
  {
    var i :| 0 <= i < |consumed| && consumed[i].PrepareUpload? && consumed[i].sid == sid;
    assert PrepareEventSound(s.events[i], s.prepares, s.accepted);
  }

  lemma LogParts(s: State)
    requires Inv(s)
    ensures LogOrdered(s.events) && LogPrepares(s.events, s.prepares, s.accepted)
    ensures LogEnds(s.events, s.ends, s.uploads, s.cancels)
  {
    hide LogOrdered, LogPrepares, LogEnds;
  }

  lemma ConsumedIsPrefix(w: World)
    requires w.cursor <= |w.srv.events|
    ensures Consumed(w) <= w.srv.events && |Consumed(w)| == w.cursor
  {
  }

  lemma ServerKeepsDecision(w: World, step: Step)
    requires LogPrepares(w.srv.events, w.srv.prepares, w.srv.accepted) && w.cursor <= |w.srv.events|
    requires AskedOnce(w.receive, w.pending, Consumed(w)) && DecisionMade(w.receive, w.decisions, w.srv.prepares)
    ensures DecisionMade(w.receive, w.decisions, Apply(w.srv, step).prepares)
  {
    hide Consumed, Apply, LogPrepares, AskedIn;
    if w.receive.Some? {
      ConsumedIsPrefix(w);
      AskedIsAnnounced(w.srv, Consumed(w), w.receive.value.sid);
      StepKeepsUndecided(w.srv, step, w.receive.value.sid);
    }
  }

  lemma ServerKeepsReceiving(w: World, step: Step)
    requires UnansweredReceiving(w.pipes, w.srv.uploads)
    requires step.Upload? && step.u in w.pipes ==> !step.upload.FinishUpload? && !step.upload.DropUpload?
    ensures UnansweredReceiving(w.pipes, Apply(w.srv, step).uploads)
  {
    hide Apply;
    forall u | u in w.pipes && w.pipes[u].answer.None?
      ensures u in Apply(w.srv, step).uploads && Apply(w.srv, step).uploads[u].pc.Receiving?
    {
      StepKeepsReceiving(w.srv, step, u);
    }
  }

  lemma SilentServerKeeps(hash: Bytes -> string, w: World, step: Step)
    requires WorldInv(hash, w) && OwnInv(w)
    requires step.Upload? && step.u in w.pipes ==> !step.upload.FinishUpload? && !step.upload.DropUpload?
    ensures OwnInv(w.(srv := Apply(w.srv, step)))
  {
    hide WorldInv, Inv, Apply, EndingInv, EntriesAwaited, UnansweredReceiving, EndedIffReported, AskedOnce;
    hide DecisionMade;
    hide Consumed, LogOrdered, LogPrepares, LogEnds, Evolves, EventsEvolve, UploadsEvolve;
    CursorPart(hash, w);
    ServerInv(hash, w);
    LogParts(w.srv);
    StepKeepsEnding(w.srv, step);
    StepEvolves(w.srv, step);
    EvolvesParts(w.srv, Apply(w.srv, step));
    ConsumedKept(w, Apply(w.srv, step));
    ServerKeepsDecision(w, step);
    ServerKeepsReceiving(w, step);
  }

  // Answers

  lemma AnswerKeepsAwaited(receive: Option<Receive>, pipes: map<nat, Pipe>, results: set<(nat, bool)>, u: nat,
                           pipe: Pipe,
                           ok: bool)
    requires EntriesAwaited(receive, pipes, results) && u in pipes
    ensures EntriesAwaited(receive, pipes[u := pipe], results + {(u, ok)})
  {
  }

  lemma AnswerKeepsReceiving(w: World, u: nat, pipe: Pipe, step: Step)
    requires UnansweredReceiving(w.pipes, w.srv.uploads) && u in w.pipes && pipe.answer.Some?
    requires step.Upload? && step.u == u
    ensures UnansweredReceiving(w.pipes[u := pipe], Apply(w.srv, step).uploads)
  {
    hide Apply;
    var pipes := w.pipes[u := pipe];
    forall v | v in pipes && pipes[v].answer.None?
      ensures v in Apply(w.srv, step).uploads && Apply(w.srv, step).uploads[v].pc.Receiving?
    {
      StepKeepsReceiving(w.srv, step, v);
    }
  }

  /** The server moves request `u` on, and its pipeline answers. */
  lemma AnsweringKeeps(hash: Bytes -> string, w: World, step: Step, u: nat, pipe: Pipe, ok: bool)
    requires WorldInv(hash, w) && OwnInv(w) && u in w.pipes && pipe.answer.Some? && step.Upload? && step.u == u
    ensures OwnInv(w.(srv := Apply(w.srv, step), pipes := w.pipes[u := pipe], results := w.results + {(u, ok)}))
  {
    hide WorldInv, Inv, Apply, EndingInv, EntriesAwaited, UnansweredReceiving, EndedIffReported, AskedOnce;
    hide DecisionMade;
    hide LogOrdered, LogPrepares, LogEnds, Evolves, EventsEvolve, UploadsEvolve;
    var t := Apply(w.srv, step);
    CursorPart(hash, w);
    ServerInv(hash, w);
    LogParts(w.srv);
    StepKeepsEnding(w.srv, step);
    StepEvolves(w.srv, step);
    EvolvesParts(w.srv, t);
    ConsumedKept(w, t);
    ServerKeepsDecision(w, step);
    AnswerKeepsAwaited(w.receive, w.pipes, w.results, u, pipe, ok);
    AnswerKeepsReceiving(w, u, pipe, step);
    assert Consumed(w.(srv := t)) ==
      Consumed(w.(srv := t, pipes := w.pipes[u := pipe], results := w.results + {(u, ok)}));
    hide Consumed;
  }

  lemma DropKeepsOwn(hash: Bytes -> string, w: World, u: nat)
    requires WorldInv(hash, w) && RetryInv(w) && OwnInv(w) && u in w.pipes
    requires Apply(w.srv, Upload(u, DropUpload)) != w.srv
    ensures OwnInv(DoServer(hash, w, Upload(u, DropUpload)))
  {
    hide WorldInv, RetryInv, OwnInv, PipeInv, Apply, ApplyPipe;
    EffectiveDrop(w.srv, u);
    StillUnanswered(w, u);
    PipeKnown(hash, w, u);
    UnansweredPipe(hash, w.pipes, u, w.pipes[u]);
    DroppedPipe(hash, w.pipes[u]);
    AnsweringKeeps(hash, w, Upload(u, DropUpload), u, ApplyPipe(hash, w.pipes[u], DropRequest), false);
  }

  lemma ServerKeepsOwn(hash: Bytes -> string, w: World, step: Step)
    requires WorldInv(hash, w) && RetryInv(w) && OwnInv(w) && Allowed(w, step)
    ensures OwnInv(DoServer(hash, w, step))
  {
    hide WorldInv, RetryInv, OwnInv, Apply, ApplyPipe;
    if step.Upload? && step.upload.DropUpload? && step.u in w.pipes {
      if Apply(w.srv, step) != w.srv {
        DropKeepsOwn(hash, w, step.u);
      } else {
        assert DoServer(hash, w, step) == w;
      }
    } else {
      SilentServerKeeps(hash, w, step);
    }
  }

  lemma CompleteKeepsOwn(hash: Bytes -> string, w: World, u: nat)
    requires WorldInv(hash, w) && OwnInv(w) && u in w.pipes && UploadAt(w.srv, u, Receiving)
    requires w.pipes[u].forwarder.Awaiting? && w.pipes[u].writer.Stopped?
    ensures OwnInv(DoComplete(hash, w, u))
  {
    hide WorldInv, OwnInv, Apply, DoCollect, Mismatched;
    CollectedPipe(hash, w.pipes, u);
    var pipe := DoCollect(hash, w.pipes[u]);
    var result := pipe.forwarder.result;
    AnsweringKeeps(hash, w, Upload(u, FinishUpload(result)), u, pipe, result.Success?);
  }

  lemma PipelineKeepsOwn(hash: Bytes -> string, w: World, u: nat, step: PipeStep)
    requires OwnInv(w) && u in w.pipes && !step.Collect? && !step.DropRequest?
    ensures OwnInv(w.(pipes := w.pipes[u := ApplyPipe(hash, w.pipes[u], step)]))
  {
    hide ApplyPipe, EndingInv, EndedIffReported, AskedOnce, DecisionMade;
    MoveKeepsAnswer(hash, w.pipes[u], step);
    var pipes := w.pipes[u := ApplyPipe(hash, w.pipes[u], step)];
    assert forall v :: Undelivered(pipes, w.results, v) <==> Undelivered(w.pipes, w.results, v);
    assert Consumed(w.(pipes := pipes)) == Consumed(w);
    hide Consumed, Undelivered;
  }

  // Results

  lemma DeliverKeepsAwaited(w: World, u: nat, ok: bool)
    requires EntriesAwaited(w.receive, w.pipes, w.results) && ReceiveSound(w.receive, w.progress, w.srv)
    requires (u, ok) in w.results && u in w.srv.uploads
    ensures var v := DoDeliverResult(w, u, ok); EntriesAwaited(v.receive, v.pipes, v.results)
  {
  }

  lemma DeliverKeepsEnded(w: World, sid: SessionId, fid: FileId, ok: bool, consumed: seq<Event>)
    requires EndedIffReported(w.receive, consumed) && AskedOnce(w.receive, w.pending, consumed)
    requires DecisionMade(w.receive, w.decisions, w.srv.prepares)
    ensures var receive := OnResult(w.receive, sid, fid, ok);
      && EndedIffReported(receive, consumed) && AskedOnce(receive, w.pending, consumed)
      && DecisionMade(receive, w.decisions, w.srv.prepares)
  {
    hide Reported, AskedIn;
  }

  lemma ReceivePart(hash: Bytes -> string, w: World)
    requires WorldInv(hash, w)
    ensures ReceiveSound(w.receive, w.progress, w.srv)
  {
    hide ReceiveSound;
  }

  lemma DeliverKeepsOwn(hash: Bytes -> string, w: World, u: nat, ok: bool)
    requires WorldInv(hash, w) && OwnInv(w) && (u, ok) in w.results && u in w.srv.uploads
    ensures OwnInv(DoDeliverResult(w, u, ok))
  {
    hide WorldInv, EndingInv, EntriesAwaited, UnansweredReceiving, EndedIffReported, AskedOnce, DecisionMade;
    hide OnResult;
    hide ReceiveSound;
    ReceivePart(hash, w);
    DeliverKeepsAwaited(w, u, ok);
    DeliverKeepsEnded(w, w.srv.uploads[u].sid, w.srv.uploads[u].fid, ok, Consumed(w));
    assert Consumed(DoDeliverResult(w, u, ok)) == Consumed(w);
    hide Consumed;
  }

  // Consuming server events

  lemma AskedGrows(events: seq<Event>, event: Event, sid: SessionId)
    ensures AskedIn(events + [event], sid) <==> AskedIn(events, sid) || (event.PrepareUpload? && event.sid == sid)
  {
    if AskedIn(events, sid) {
      var i :| 0 <= i < |events| && events[i].PrepareUpload? && events[i].sid == sid;
      assert (events + [event])[i] == events[i];
    }
    if event.PrepareUpload? && event.sid == sid {
      assert (events + [event])[|events|] == event;
    }
  }

  /** A request is asked about once. */
  lemma NotAskedBefore(w: World)
    requires LogOrdered(w.srv.events) && w.cursor < |w.srv.events| && w.srv.events[w.cursor].PrepareUpload?
    ensures !AskedIn(Consumed(w), w.srv.events[w.cursor].sid)
  {
    forall i | 0 <= i < w.cursor
      ensures !(w.srv.events[i].PrepareUpload? && w.srv.events[i].sid == w.srv.events[w.cursor].sid)
    {
      assert MayPrecede(w.srv.events[i], w.srv.events[w.cursor]);
    }
  }

  lemma EventKeepsAsked(receive: Option<Receive>, pending: Option<SessionId>, consumed: seq<Event>, event: Event)
    requires AskedOnce(receive, pending, consumed)
    ensures AskedOnce(receive, pending, consumed + [event])
  {
    hide AskedIn;
    if pending.Some? {
      AskedGrows(consumed, event, pending.value);
    }
    if receive.Some? {
      AskedGrows(consumed, event, receive.value.sid);
    }
  }

  lemma EventKeepsEnded(receive: Option<Receive>, consumed: seq<Event>, event: Event)
    requires EndedIffReported(receive, consumed) && !(receive.Some? && IsEndOf(event, receive.value.sid))
    ensures EndedIffReported(receive, consumed + [event])
  {
    hide Reported;
    if receive.Some? {
      ReportedGrows(consumed, event, receive.value.sid);
    }
  }

  lemma EndKeepsEnded(receive: Option<Receive>, consumed: seq<Event>, sid: SessionId, reason: EndReason)
    requires EndedIffReported(receive, consumed)
    ensures EndedIffReported(OnSessionEnd(receive, sid, reason), consumed + [SessionEnd(sid, reason)])
  {
    hide Reported;
    if receive.Some? {
      ReportedGrows(consumed, SessionEnd(sid, reason), receive.value.sid);
    }
  }

  lemma UnreportedPrefix(events: seq<Event>, consumed: seq<Event>, sid: SessionId)
    requires consumed <= events && !Reported(events, sid)
    ensures !Reported(consumed, sid)
  {
    assert forall i :: 0 <= i < |consumed| ==> consumed[i] == events[i];
  }

  lemma UndecidedUnreported(s: State, sid: SessionId)
    requires Inv(s) && PrepareAt(s, sid, Deciding)
    ensures !Reported(s.events, sid)
  {
    StuckParts(s, sid);
    assert sid !in s.accepted;
    assert EndsSound(s.ends, s.accepted, s.uploads, s.cancels);
    assert sid !in s.ends;
    hide Inv, Reported, LogEnds, EndsSound;
    NoReportOutsideEnds(s, sid);
  }

  lemma AcceptKeepsOwn(hash: Bytes -> string, w: World, sid: SessionId)
    requires Inv(w.srv) && OwnInv(w) && w.cursor <= |w.srv.events| && AskedIn(Consumed(w), sid)
    requires w.pending != Some(sid)
    ensures OwnInv(DoAccept(w, sid))
  {
    hide Inv, EndingInv, Reported, AskedIn, UnansweredReceiving;
    if PrepareAt(w.srv, sid, Deciding) {
      UndecidedUnreported(w.srv, sid);
      ConsumedIsPrefix(w);
      UnreportedPrefix(w.srv.events, Consumed(w), sid);
      assert Consumed(DoAccept(w, sid)) == Consumed(w);
      hide Consumed;
    }
  }

  lemma AdvanceKeepsOwn(w: World)
    requires OwnInv(w) && w.cursor < |w.srv.events|
    requires !(w.receive.Some? && IsEndOf(w.srv.events[w.cursor], w.receive.value.sid))
    ensures OwnInv(w.(cursor := w.cursor + 1))
  {
    hide EndingInv, EntriesAwaited, UnansweredReceiving, EndedIffReported, AskedOnce, DecisionMade, Consumed;
    ConsumedNext(w.(cursor := w.cursor + 1), w);
    EventKeepsAsked(w.receive, w.pending, Consumed(w), w.srv.events[w.cursor]);
    EventKeepsEnded(w.receive, Consumed(w), w.srv.events[w.cursor]);
  }

  lemma NewAsked(w: World)
    requires OwnInv(w) && LogOrdered(w.srv.events) && w.cursor < |w.srv.events|
    requires w.srv.events[w.cursor].PrepareUpload?
    ensures var sid := w.srv.events[w.cursor].sid;
      && !Tracks(w.receive, sid) && w.pending != Some(sid)
      && AskedIn(Consumed(w.(cursor := w.cursor + 1)), sid)
  {
    NotAskedBefore(w);
    hide EndingInv, EntriesAwaited, UnansweredReceiving, EndedIffReported, DecisionMade, Consumed, AskedIn;
    hide LogOrdered;
    ConsumedNext(w.(cursor := w.cursor + 1), w);
    AskedGrows(Consumed(w), w.srv.events[w.cursor], w.srv.events[w.cursor].sid);
  }

  lemma OtherDecisionKeepsOwn(w: World, sid: SessionId, decision: Decision)
    requires OwnInv(w) && !Tracks(w.receive, sid)
    ensures OwnInv(w.(decisions := w.decisions[sid := decision]))
  {
    assert Consumed(w.(decisions := w.decisions[sid := decision])) == Consumed(w);
    hide EndingInv, EntriesAwaited, UnansweredReceiving, EndedIffReported, AskedOnce, Consumed;
  }

  lemma PendingKeepsOwn(w: World, pending: Option<SessionId>)
    requires OwnInv(w) && (pending.Some? ==> AskedIn(Consumed(w), pending.value) && !Tracks(w.receive, pending.value))
    ensures OwnInv(w.(pending := pending))
  {
    assert Consumed(w.(pending := pending)) == Consumed(w);
    hide EndingInv, EntriesAwaited, UnansweredReceiving, EndedIffReported, DecisionMade, Consumed, AskedIn;
  }

  lemma PrepareUploadKeepsOwn(hash: Bytes -> string, v: World, sid: SessionId, reaction: Reaction)
    requires Inv(v.srv) && OwnInv(v) && v.cursor <= |v.srv.events|
    requires AskedIn(Consumed(v), sid) && v.pending != Some(sid) && !Tracks(v.receive, sid)
    ensures OwnInv(DoPrepareUpload(v, sid, reaction))
  {
    hide Inv, OwnInv, AskedIn, Consumed, DoAccept;
    match reaction {
      case AnswerMessage => OtherDecisionKeepsOwn(v, sid, Accept({}));
      case AcceptPaired => AcceptKeepsOwn(hash, v, sid);
      case AskUser => PendingKeepsOwn(v, Some(sid));
    }
  }

  lemma AnswerPendingKeepsOwn(hash: Bytes -> string, w: World, accept: bool)
    requires Inv(w.srv) && OwnInv(w) && w.pending.Some? && w.cursor <= |w.srv.events|
    ensures OwnInv(DoAnswerPending(w, accept))
  {
    hide Inv, AskedIn, DoAccept, EndingInv, EntriesAwaited, UnansweredReceiving, EndedIffReported, DecisionMade;
    var v := w.(pending := None);
    assert Consumed(v) == Consumed(w);
    hide Consumed;
    PendingKeepsOwn(w, None);
    if accept {
      AcceptKeepsOwn(hash, v, w.pending.value);
    } else {
      OtherDecisionKeepsOwn(v, w.pending.value, Decline);
    }
  }

  lemma ReceiveKeepsOwn(w: World, v: World, receive: Option<Receive>)
    requires OwnInv(w) && v == w.(cursor := v.cursor, receive := receive)
    requires receive.Some? ==> SameEntries(w.receive, receive)
    requires EndedIffReported(receive, Consumed(v)) && AskedOnce(w.receive, w.pending, Consumed(v))
    ensures OwnInv(v)
  {
    hide EndingInv, UnansweredReceiving, EndedIffReported, Consumed, AskedIn;
  }

  lemma SessionEndKeepsOwn(w: World, sid: SessionId, reason: EndReason)
    requires OwnInv(w) && w.cursor < |w.srv.events| && w.srv.events[w.cursor] == SessionEnd(sid, reason)
    ensures OwnInv(w.(cursor := w.cursor + 1, receive := OnSessionEnd(w.receive, sid, reason)))
  {
    hide EndingInv, EntriesAwaited, UnansweredReceiving, EndedIffReported, AskedOnce, DecisionMade, Consumed;
    var receive := OnSessionEnd(w.receive, sid, reason);
    var v := w.(cursor := w.cursor + 1, receive := receive);
    ConsumedNext(v, w);
    EndKeepsEnded(w.receive, Consumed(w), sid, reason);
    EventKeepsAsked(w.receive, w.pending, Consumed(w), SessionEnd(sid, reason));
    ReceiveKeepsOwn(w, v, receive);
  }

  lemma ShowKeepsAwaited(w: World, sid: SessionId, fid: FileId, u: nat, pipe: Pipe)
    requires EntriesAwaited(w.receive, w.pipes, w.results) && UnansweredReceiving(w.pipes, w.srv.uploads)
    requires Tracks(w.receive, sid) && u !in w.pipes && pipe.answer.None?
    ensures EntriesAwaited(OnFileUpload(w.receive, sid, fid, u), w.pipes[u := pipe], w.results)
    ensures EntriesAwaited(OnFileUpload(w.receive, sid, fid, u), w.pipes, w.results + {(u, false)})
    ensures UploadAt(w.srv, u, Receiving) ==> UnansweredReceiving(w.pipes[u := pipe], w.srv.uploads)
  {
  }

  lemma ShowKeepsRest(w: World, sid: SessionId, fid: FileId, u: nat, consumed: seq<Event>)
    requires EndedIffReported(w.receive, consumed) && AskedOnce(w.receive, w.pending, consumed)
    requires DecisionMade(w.receive, w.decisions, w.srv.prepares) && Tracks(w.receive, sid)
    ensures var receive := OnFileUpload(w.receive, sid, fid, u);
      && EndedIffReported(receive, consumed) && AskedOnce(receive, w.pending, consumed)
      && DecisionMade(receive, w.decisions, w.srv.prepares)
  {
    hide Reported, AskedIn;
    assert fid in w.receive.value.inProgress[fid := u];
  }

  lemma FileUploadKeepsOwn(v: World, sid: SessionId, fid: FileId, u: nat, body: seq<Frame>, verify: bool)
    requires OwnInv(v) && Tracks(v.receive, sid) && u in v.srv.uploads && u !in v.pipes
    ensures OwnInv(DoFileUpload(v, sid, fid, u, body, verify))
  {
    var shown := DoFileUpload(v, sid, fid, u, body, verify);
    assert Consumed(shown) == Consumed(v);
    hide EndingInv, EntriesAwaited, UnansweredReceiving, EndedIffReported, AskedOnce, DecisionMade, Consumed;
    hide OnFileUpload, NewPipe, Mismatched;
    var dto := v.srv.uploads[u].dto;
    var expected := if verify then dto.sha256 else None;
    FreshMismatches(v.pipes, u, dto.size, expected, body);
    ShowKeepsAwaited(v, sid, fid, u, NewPipe(dto.size, expected, body));
    ShowKeepsRest(v, sid, fid, u, Consumed(v));
  }

  lemma ConsumeKeepsOwn(hash: Bytes -> string, w: World, reaction: Reaction, body: seq<Frame>, verify: bool)
    requires WorldInv(hash, w) && RetryInv(w) && OwnInv(w) && w.cursor < |w.srv.events|
    ensures OwnInv(DoConsume(w, reaction, body, verify))
  {
    hide WorldInv, RetryInv, OwnInv, Inv, NoStaleUploads, DoPrepareUpload, DoFileUpload, OnSessionEnd;
    hide LogOrdered, LogPrepares, LogEnds, Consumed, AskedIn;
    var v := w.(cursor := w.cursor + 1);
    NextUploadPart(hash, w);
    LogParts(w.srv);
    match w.srv.events[w.cursor] {
      case PrepareUpload(sid, _) =>
        AdvanceKeepsOwn(w);
        NewAsked(w);
        PrepareUploadKeepsOwn(hash, v, sid, reaction);
      case FileUpload(sid, fid, u) =>
        AdvanceKeepsOwn(w);
        NextUpload(w);
        NotShownBefore(w);
        if Tracks(w.receive, sid) {
          FileUploadKeepsOwn(v, sid, fid, u, body, verify);
        } else {
          UntrackedUpload(v, sid, fid, u, body, verify);
        }
      case SessionEnd(sid, reason) => SessionEndKeepsOwn(w, sid, reason);
      case PrepareUploadAborted(_) =>
        AdvanceKeepsOwn(w);
        PendingKeepsOwn(v, None);
      case CancelReceived(_, _) => AdvanceKeepsOwn(w);
    }
  }

  lemma CancelKeepsOwn(w: World)
    requires OwnInv(w)
    ensures OwnInv(w.(receive := None))
  {
    assert Consumed(w.(receive := None)) == Consumed(w);
    hide EndingInv, UnansweredReceiving, Consumed, AskedIn, Reported;
  }

  lemma ProgressKeepsOwn(w: World, progress: map<nat, nat>)
    requires OwnInv(w)
    ensures OwnInv(w.(progress := progress))
  {
    assert Consumed(w.(progress := progress)) == Consumed(w);
    hide EndingInv, EntriesAwaited, UnansweredReceiving, EndedIffReported, AskedOnce, DecisionMade, Consumed;
  }

  lemma StepKeepsOwn(hash: Bytes -> string, w: World, step: WorldStep)
    requires WorldInv(hash, w) && RetryInv(w) && OwnInv(w)
    ensures OwnInv(ApplyWorld(hash, w, step))
  {
    hide WorldInv, RetryInv, OwnInv, Inv, DoServer, DoConsume, DoAnswerPending, DoComplete, DoDeliverResult;
    hide ApplyPipe;
    match step {
      case Server(s) => if Allowed(w, s) { ServerKeepsOwn(hash, w, s); }
      case Consume(reaction, body, verify) =>
        if w.cursor < |w.srv.events| { ConsumeKeepsOwn(hash, w, reaction, body, verify); }
      case AnswerPending(accept) =>
        ServerInv(hash, w);
        CursorPart(hash, w);
        if w.pending.Some? { AnswerPendingKeepsOwn(hash, w, accept); }
      case CancelReceive => CancelKeepsOwn(w);
      case Pipeline(u, pipe) =>
        if u in w.pipes && !pipe.Collect? && !pipe.DropRequest? { PipelineKeepsOwn(hash, w, u, pipe); }
      case Complete(u) =>
        if u in w.pipes && w.pipes[u].forwarder.Awaiting? && w.pipes[u].writer.Stopped?
           && UploadAt(w.srv, u, Receiving)
        {
          CompleteKeepsOwn(hash, w, u);
        }
      case DeliverProgress(u, i) =>
        if u in w.pipes && i < |w.pipes[u].reported| { ProgressKeepsOwn(w, w.progress[u := w.pipes[u].reported[i]]); }
      case DeliverResult(u, ok) =>
        if (u, ok) in w.results && u in w.srv.uploads { DeliverKeepsOwn(hash, w, u, ok); }
    }
  }

  lemma StartOwn()
    ensures OwnInv(START)
  {
  }

  ghost predicate FullInv(hash: Bytes -> string, w: World) {
    WorldInv(hash, w) && RetryInv(w) && OwnInv(w)
  }

  lemma {:induction false} ReachableOwn(hash: Bytes -> string, run: seq<WorldStep>)
    ensures FullInv(hash, RunWorld(hash, run))
    decreases |run|
  {
    hide WorldInv, RetryInv, OwnInv, ApplyWorld;
    ReachableWorld(hash, run);
    ReachableRetries(hash, run);
    if run == [] {
      StartOwn();
    } else {
      ReachableOwn(hash, run[..|run| - 1]);
      StepKeepsOwn(hash, RunWorld(hash, run[..|run| - 1]), run[|run| - 1]);
    }
  }

  // Sessions that end

  /** Everything but the user giving the session up or another request being accepted. */
  predicate OnItsOwn(step: WorldStep) {
    && !step.CancelReceive?
    && !(step.Consume? && step.reaction.AcceptPaired?)
    && !(step.AnswerPending? && step.accept)
  }

  predicate AllOnTheirOwn(steps: seq<WorldStep>) {
    forall i :: 0 <= i < |steps| ==> OnItsOwn(steps[i])
  }

  /** The user neither gives the session up nor accepts another request. */
  predicate WithoutUser(step: WorldStep) {
    !step.CancelReceive? && !(step.AnswerPending? && step.accept)
  }

  predicate AllWithoutUser(steps: seq<WorldStep>) {
    forall i :: 0 <= i < |steps| ==> WithoutUser(steps[i])
  }

  predicate NoneConsumes(steps: seq<WorldStep>) {
    forall i :: 0 <= i < |steps| ==> !steps[i].Consume?
  }

  /** What the application does with each request, and whether checksums are verified, is fixed in advance. */
  datatype Setting = Setting(reactions: SessionId -> Reaction, verify: bool)

  predicate Follows(setting: Setting, w: World, step: WorldStep) {
    step.Consume? ==>
      && step.verify == setting.verify
      && (w.cursor < |w.srv.events| && w.srv.events[w.cursor].PrepareUpload? ==>
            step.reaction == setting.reactions(w.srv.events[w.cursor].sid))
  }

  predicate AllFollow(hash: Bytes -> string, setting: Setting, run: seq<WorldStep>, more: seq<WorldStep>) {
    forall i :: 0 <= i < |more| ==> Follows(setting, RunWorld(hash, run + more[..i]), more[i])
  }

  lemma {:induction false} FollowConcat(hash: Bytes -> string, setting: Setting, run: seq<WorldStep>, a: seq<WorldStep>,
                                        b: seq<WorldStep>)
    requires AllFollow(hash, setting, run, a) && AllFollow(hash, setting, run + a, b)
    ensures AllFollow(hash, setting, run, a + b)
  {
    hide RunWorld, Follows;
    forall i | 0 <= i < |a + b| ensures Follows(setting, RunWorld(hash, run + (a + b)[..i]), (a + b)[i]) {
      if i < |a| {
        assert (a + b)[..i] == a[..i];
      } else {
        assert run + (a + b)[..i] == run + a + b[..i - |a|];
      }
    }
  }

  lemma {:induction false} FollowOne(hash: Bytes -> string, setting: Setting, run: seq<WorldStep>, step: WorldStep)
    requires Follows(setting, RunWorld(hash, run), step)
    ensures AllFollow(hash, setting, run, [step])
  {
    hide RunWorld, Follows;
    assert run + [step][..0] == run;
  }

  lemma FollowNone(hash: Bytes -> string, setting: Setting, run: seq<WorldStep>, more: seq<WorldStep>)
    requires NoneConsumes(more)
    ensures AllFollow(hash, setting, run, more)
  {
    hide RunWorld;
  }

  lemma {:induction false} NoMore(hash: Bytes -> string, run: seq<WorldStep>)
    ensures RunWorld(hash, run + []) == RunWorld(hash, run)
  {
    assert run + [] == run;
  }

  lemma {:induction false} OneMoreFirst(hash: Bytes -> string, run: seq<WorldStep>, step: WorldStep,
                                        more: seq<WorldStep>)
    ensures RunWorld(hash, run + ([step] + more)) == RunWorld(hash, run + [step] + more)
  {
    assert run + ([step] + more) == run + [step] + more;
  }

  lemma PlainServerStep(hash: Bytes -> string, w: World, step: Step, sid: SessionId, offered: map<FileId, FileDto>,
                        asked: bool)
    requires Plain(step, sid, offered, asked)
    requires asked ==> sid in w.decisions && w.decisions[sid] == Accept(offered.Keys)
    ensures ApplyWorld(hash, w, Server(step)) == w.(srv := Apply(w.srv, step))
  {
    hide Apply, ApplyPipe;
  }

  lemma {:induction false} RunServer(hash: Bytes -> string, run: seq<WorldStep>, steps: seq<Step>, sid: SessionId,
                                     offered: map<FileId, FileDto>, asked: bool) returns (more: seq<WorldStep>)
    requires AllPlain(steps, sid, offered, asked)
    requires var w := RunWorld(hash, run); asked ==> sid in w.decisions && w.decisions[sid] == Accept(offered.Keys)
    ensures AllOnTheirOwn(more) && NoneConsumes(more)
    ensures var w := RunWorld(hash, run); RunWorld(hash, run + more) == w.(srv := RunFrom(w.srv, steps))
    decreases |steps|
  {
    hide RunWorld, ApplyWorld, Plain;
    var w := RunWorld(hash, run);
    if steps == [] {
      more := [];
      NoMore(hash, run);
    } else {
      hide RunFrom;
      var step, rest := steps[0], steps[1..];
      PlainServerStep(hash, w, step, sid, offered, asked);
      NextWorld(hash, run, Server(step));
      var others := RunServer(hash, run + [Server(step)], rest, sid, offered, asked);
      assert steps == [step] + rest;
      UploadProgress.RunFirst(w.srv, step, rest);
      OneMoreFirst(hash, run, Server(step), others);
      more := [Server(step)] + others;
    }
  }

  lemma ConsumeLeavesServer(w: World, reaction: Reaction, body: seq<Frame>, verify: bool)
    requires w.cursor < |w.srv.events|
    ensures var v := DoConsume(w, reaction, body, verify); v.srv == w.srv && v.cursor == w.cursor + 1
  {
  }

  lemma KnowsEnd(hash: Bytes -> string, w: World, sid: SessionId)
    requires FullInv(hash, w) && Tracks(w.receive, sid)
    ensures w.cursor <= |w.srv.events|
    ensures w.receive.value.ended.Some? <==> Reported(Consumed(w), sid)
    ensures w.receive.value.ended.Some? ==> w.receive.value.inProgress != map[]
  {
    hide WorldInv, RetryInv, EndingInv, EntriesAwaited, UnansweredReceiving, AskedOnce, DecisionMade, Consumed;
    hide Reported;
    CursorPart(hash, w);
  }

  lemma AllConsumed(w: World)
    requires w.cursor == |w.srv.events|
    ensures Consumed(w) == w.srv.events
  {
  }

  function NextReaction(setting: Setting, event: Event): Reaction {
    if event.PrepareUpload? then setting.reactions(event.sid) else AskUser
  }

  ghost predicate AcceptsNothing(setting: Setting) {
    forall sid :: !setting.reactions(sid).AcceptPaired?
  }

  /** Consuming the events up to the report. */
  lemma {:induction false} ConsumeReport(hash: Bytes -> string, run: seq<WorldStep>, sid: SessionId, setting: Setting)
    returns (more: seq<WorldStep>)
    requires Reported(RunWorld(hash, run).srv.events, sid)
    ensures AllWithoutUser(more) && AllFollow(hash, setting, run, more)
    ensures AcceptsNothing(setting) ==> AllOnTheirOwn(more)
    ensures var receive := RunWorld(hash, run + more).receive;
      Tracks(receive, sid) ==> receive.value.ended.Some?
    decreases |RunWorld(hash, run).srv.events| - RunWorld(hash, run).cursor
  {
    var w := RunWorld(hash, run);
    ReachableOwn(hash, run);
    hide RunWorld, FullInv, Reported, Consumed, DoConsume, AllFollow;
    if !Tracks(w.receive, sid) {
      more := [];
      NoMore(hash, run);
      FollowNone(hash, setting, run, more);
    } else {
      KnowsEnd(hash, w, sid);
      if w.receive.value.ended.Some? {
        more := [];
        NoMore(hash, run);
        FollowNone(hash, setting, run, more);
      } else {
        if w.cursor == |w.srv.events| {
          AllConsumed(w);
        }
        var step := Consume(NextReaction(setting, w.srv.events[w.cursor]), [], setting.verify);
        ConsumeLeavesServer(w, step.reaction, [], setting.verify);
        NextWorld(hash, run, step);
        var others := ConsumeReport(hash, run + [step], sid, setting);
        OneMoreFirst(hash, run, step, others);
        FollowOne(hash, setting, run, step);
        FollowConcat(hash, setting, run, [step], others);
        more := [step] + others;
      }
    }
  }

  /** An entry and its result. */
  lemma EntryOf(hash: Bytes -> string, w: World, sid: SessionId, fid: FileId)
    requires FullInv(hash, w) && Tracks(w.receive, sid) && fid in w.receive.value.inProgress
    ensures var v := w.receive.value.inProgress[fid];
      && v in w.srv.uploads && IsFor(w.srv.uploads[v], sid, fid)
      && Undelivered(w.pipes, w.results, v)
      && (v in w.pipes && w.pipes[v].answer.None? ==> UploadAt(w.srv, v, Receiving))
  {
    hide WorldInv, RetryInv, EndingInv, EndedIffReported, AskedOnce, DecisionMade, Consumed, Undelivered;
    ReceivePart(hash, w);
  }

  predicate Draining(w: World, sid: SessionId) {
    Tracks(w.receive, sid) && w.receive.value.ended.Some?
  }

  lemma {:induction false} DeliverEntry(hash: Bytes -> string, w: World, sid: SessionId, fid: FileId, ok: bool)
    requires Draining(w, sid) && fid in w.receive.value.inProgress
    requires var v := w.receive.value.inProgress[fid];
      (v, ok) in w.results && v in w.srv.uploads && IsFor(w.srv.uploads[v], sid, fid)
    ensures var after := ApplyWorld(hash, w, DeliverResult(w.receive.value.inProgress[fid], ok));
      Tracks(after.receive, sid) ==>
        Draining(after, sid) && |after.receive.value.inProgress| < |w.receive.value.inProgress|
  {
    var before := w.receive.value.inProgress;
    assert (before - {fid}).Keys == before.Keys - {fid};
  }

  lemma {:induction false} DropEntry(hash: Bytes -> string, w: World, v: nat)
    requires v in w.pipes && UploadAt(w.srv, v, Receiving)
    ensures var after := ApplyWorld(hash, w, Server(Upload(v, DropUpload)));
      after.receive == w.receive && (v, false) in after.results && after.srv == WithUpload(w.srv, v, Dropped)
  {
    assert WithUpload(w.srv, v, Dropped).uploads[v].pc != w.srv.uploads[v].pc;
    hide ApplyPipe;
  }

  lemma {:induction false} DeliverAndDrain(hash: Bytes -> string, run: seq<WorldStep>, sid: SessionId, fid: FileId,
                                           ok: bool)
    returns (more: seq<WorldStep>)
    requires var w := RunWorld(hash, run);
      && Draining(w, sid) && fid in w.receive.value.inProgress
      && (w.receive.value.inProgress[fid], ok) in w.results
    ensures AllOnTheirOwn(more) && NoneConsumes(more) && !Tracks(RunWorld(hash, run + more).receive, sid)
    decreases |RunWorld(hash, run).receive.value.inProgress|, 0
  {
    var w := RunWorld(hash, run);
    ReachableOwn(hash, run);
    hide RunWorld, FullInv, ApplyWorld, Undelivered;
    EntryOf(hash, w, sid, fid);
    var step := DeliverResult(w.receive.value.inProgress[fid], ok);
    DeliverEntry(hash, w, sid, fid, ok);
    NextWorld(hash, run, step);
    var others: seq<WorldStep> := [];
    if Tracks(RunWorld(hash, run + [step]).receive, sid) {
      others := Drain(hash, run + [step], sid);
    } else {
      NoMore(hash, run + [step]);
    }
    OneMoreFirst(hash, run, step, others);
    more := [step] + others;
  }

  /** Once the session knows of its end, all its results can be delivered. */
  lemma {:induction false} Drain(hash: Bytes -> string, run: seq<WorldStep>,
                                 sid: SessionId) returns (more: seq<WorldStep>)
    requires Draining(RunWorld(hash, run), sid)
    ensures AllOnTheirOwn(more) && NoneConsumes(more) && !Tracks(RunWorld(hash, run + more).receive, sid)
    decreases |RunWorld(hash, run).receive.value.inProgress|, 1
  {
    var w := RunWorld(hash, run);
    ReachableOwn(hash, run);
    hide RunWorld, FullInv, ApplyWorld, Consumed, Reported;
    KnowsEnd(hash, w, sid);
    var fid :| fid in w.receive.value.inProgress;
    var v := w.receive.value.inProgress[fid];
    EntryOf(hash, w, sid, fid);
    if ok :| (v, ok) in w.results {
      more := DeliverAndDrain(hash, run, sid, fid, ok);
    } else {
      var step := Server(Upload(v, DropUpload));
      DropEntry(hash, w, v);
      NextWorld(hash, run, step);
      var others := DeliverAndDrain(hash, run + [step], sid, fid, false);
      OneMoreFirst(hash, run, step, others);
      more := [step] + others;
    }
  }

  lemma TrackedAsked(hash: Bytes -> string, w: World, sid: SessionId)
    requires FullInv(hash, w) && Tracks(w.receive, sid)
    ensures Inv(w.srv) && EndingInv(w.srv)
    ensures sid in w.srv.prepares && !w.srv.prepares[sid].pc.Announcing?
    ensures w.srv.prepares[sid].pc.Deciding? ==>
      sid in w.decisions && w.decisions[sid] == Accept(w.srv.prepares[sid].offered.Keys)
  {
    hide WorldInv, RetryInv, Inv, EndingInv, EntriesAwaited, UnansweredReceiving, EndedIffReported, Consumed;
    hide LogOrdered, LogPrepares, LogEnds, AskedIn;
    ServerInv(hash, w);
    CursorPart(hash, w);
    LogParts(w.srv);
    ConsumedIsPrefix(w);
    AskedIsAnnounced(w.srv, Consumed(w), sid);
  }

  lemma {:induction false} Appended(hash: Bytes -> string, run: seq<WorldStep>, a: seq<WorldStep>, b: seq<WorldStep>)
    ensures RunWorld(hash, run + (a + b)) == RunWorld(hash, run + a + b)
  {
    assert run + (a + b) == run + a + b;
  }

  lemma OwnIsWithoutUser(steps: seq<WorldStep>)
    requires AllOnTheirOwn(steps)
    ensures AllWithoutUser(steps)
  {
  }

  /**
   * A session that continues on the server can end without the user, whatever
   * the application does with other requests; if it accepts none, the session
   * ends on its own.
   */
  lemma {:induction false} EndsWithoutUser(hash: Bytes -> string, run: seq<WorldStep>, sid: SessionId, setting: Setting)
    returns (more: seq<WorldStep>)
    requires Tracks(RunWorld(hash, run).receive, sid) && Continues(RunWorld(hash, run).srv, sid)
    ensures AllWithoutUser(more) && AllFollow(hash, setting, run, more)
    ensures AcceptsNothing(setting) ==> AllOnTheirOwn(more)
    ensures !Tracks(RunWorld(hash, run + more).receive, sid)
  {
    var w := RunWorld(hash, run);
    ReachableOwn(hash, run);
    hide RunWorld, RunFrom, FullInv, Inv, EndingInv, Reported, AllPlain, Continues, AllFollow, OnItsOwn, WithoutUser;
    hide AcceptsNothing;
    TrackedAsked(hash, w, sid);
    var offered, asked := w.srv.prepares[sid].offered, w.srv.prepares[sid].pc.Deciding?;
    var steps := ReportSession(w.srv, sid);
    var first := RunServer(hash, run, steps, sid, offered, asked);
    var second := ConsumeReport(hash, run + first, sid, setting);
    OwnIsWithoutUser(first);
    FollowNone(hash, setting, run, first);
    FollowConcat(hash, setting, run, first, second);
    Appended(hash, run, first, second);
    more := first + second;
    if Tracks(RunWorld(hash, run + more).receive, sid) {
      var third := Drain(hash, run + more, sid);
      OwnIsWithoutUser(third);
      FollowNone(hash, setting, run + more, third);
      FollowConcat(hash, setting, run, more, third);
      Appended(hash, run, more, third);
      more := more + third;
    }
  }

  // Sessions that do not

  lemma StuckUnended(hash: Bytes -> string, w: World, sid: SessionId)
    requires FullInv(hash, w) && Tracks(w.receive, sid) && Stuck(w.srv, sid)
    ensures w.receive.value.ended.None? && !Reported(w.srv.events, sid)
  {
    hide FullInv, Inv, EndingInv, Stuck, Reported, Consumed;
    TrackedAsked(hash, w, sid);
    StuckIsUnreported(w.srv, sid);
    KnowsEnd(hash, w, sid);
    ConsumedIsPrefix(w);
    UnreportedPrefix(w.srv.events, Consumed(w), sid);
  }

  lemma ResultKeepsTracking(receive: Option<Receive>, sid: SessionId, id: SessionId, fid: FileId, ok: bool)
    requires Tracks(receive, sid) && receive.value.ended.None?
    ensures Tracks(OnResult(receive, id, fid, ok), sid)
  {
  }

  lemma OwnStepAcceptsNothing(w: World, step: WorldStep)
    requires OnItsOwn(step)
    ensures AcceptedBy(w, step) == None
  {
  }

  lemma OtherEndKeepsTracking(hash: Bytes -> string, w: World, step: WorldStep, sid: SessionId)
    requires ConsumesEnd(w, step) && Tracks(w.receive, sid) && !Reported(w.srv.events, sid)
    ensures Tracks(ApplyWorld(hash, w, step).receive, sid)
  {
    assert !IsEndOf(w.srv.events[w.cursor], sid);
  }

  lemma StuckKeepsTracking(hash: Bytes -> string, w: World, step: WorldStep, sid: SessionId)
    requires FullInv(hash, w) && Tracks(w.receive, sid) && Stuck(w.srv, sid) && OnItsOwn(step)
    ensures Tracks(ApplyWorld(hash, w, step).receive, sid)
  {
    hide FullInv, Stuck, Reported, AcceptedBy;
    StuckUnended(hash, w, sid);
    if step.DeliverResult? {
      if (step.u, step.ok) in w.results && step.u in w.srv.uploads {
        ResultKeepsTracking(w.receive, sid, w.srv.uploads[step.u].sid, w.srv.uploads[step.u].fid, step.ok);
      }
      hide OnResult;
    } else if ConsumesEnd(w, step) {
      hide ApplyWorld;
      OtherEndKeepsTracking(hash, w, step, sid);
    } else {
      hide ApplyWorld;
      OwnStepAcceptsNothing(w, step);
      OnlyTheseDrop(hash, w, step);
    }
  }

  /** Every step moves the server by at most one of its own steps. */
  lemma ServerMoves(hash: Bytes -> string, w: World, step: WorldStep) returns (s: Option<Step>)
    ensures ApplyWorld(hash, w, step).srv == if s.Some? then Apply(w.srv, s.value) else w.srv
  {
    hide Apply, ApplyPipe, DoCollect;
    match step {
      case Server(st) => s := if Allowed(w, st) then Some(st) else None;
      case Complete(u) =>
        if u in w.pipes && w.pipes[u].forwarder.Awaiting? && w.pipes[u].writer.Stopped?
           && UploadAt(w.srv, u, Receiving)
        {
          CollectedPipe(hash, w.pipes, u);
          s := Some(Upload(u, FinishUpload(DoCollect(hash, w.pipes[u]).forwarder.result)));
        } else {
          s := None;
        }
      case _ => s := None;
    }
  }

  lemma StuckStaysStuck(hash: Bytes -> string, w: World, step: WorldStep, sid: SessionId)
    requires Inv(w.srv) && Stuck(w.srv, sid)
    ensures Stuck(ApplyWorld(hash, w, step).srv, sid)
  {
    hide Inv, Stuck, ApplyWorld, Apply;
    var s := ServerMoves(hash, w, step);
    if s.Some? {
      StepKeepsStuck(w.srv, s.value, sid);
    }
  }

  lemma {:induction false} StuckNeverEnds(hash: Bytes -> string, run: seq<WorldStep>, sid: SessionId,
                                          more: seq<WorldStep>)
    requires Tracks(RunWorld(hash, run).receive, sid) && Stuck(RunWorld(hash, run).srv, sid) && AllOnTheirOwn(more)
    ensures Tracks(RunWorld(hash, run + more).receive, sid) && Stuck(RunWorld(hash, run + more).srv, sid)
    decreases |more|
  {
    hide RunWorld, ApplyWorld, Stuck, FullInv, Inv, OnItsOwn;
    if more == [] {
      NoMore(hash, run);
    } else {
      var before, step := more[..|more| - 1], more[|more| - 1];
      StuckNeverEnds(hash, run, sid, before);
      var w := RunWorld(hash, run + before);
      ReachableOwn(hash, run + before);
      TrackedAsked(hash, w, sid);
      StuckKeepsTracking(hash, w, step, sid);
      StuckStaysStuck(hash, w, step, sid);
      NextWorld(hash, run + before, step);
      assert run + more == run + before + [step];
    }
  }

  lemma NotContinuingIsStuck(s: State, sid: SessionId)
    requires sid in s.prepares && !s.prepares[sid].pc.Announcing? && !Continues(s, sid)
    ensures Stuck(s, sid)
  {
  }

  /**
   * A receive session can end without the user, and without another request
   * being accepted, exactly if its session continues on the server: its request
   * was not given up before it became active, and the application did not end
   * it there.
   */
  lemma {:induction false} ReceiveEndsIff(hash: Bytes -> string, run: seq<WorldStep>, sid: SessionId)
    requires Tracks(RunWorld(hash, run).receive, sid)
    ensures (exists more :: AllOnTheirOwn(more) && !Tracks(RunWorld(hash, run + more).receive, sid)) <==>
      Continues(RunWorld(hash, run).srv, sid)
  {
    var w := RunWorld(hash, run);
    if Continues(w.srv, sid) {
      var more := EndsWithoutUser(hash, run, sid, Setting(_ => AskUser, false));
      assert AllOnTheirOwn(more);
    } else {
      ReachableOwn(hash, run);
      hide FullInv, Inv, EndingInv;
      TrackedAsked(hash, w, sid);
      NotContinuingIsStuck(w.srv, sid);
      forall more | AllOnTheirOwn(more) ensures Tracks(RunWorld(hash, run + more).receive, sid) {
        StuckNeverEnds(hash, run, sid, more);
      }
    }
  }
}
