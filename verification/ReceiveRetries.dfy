/**
 * What late results do to the receive session. Results are keyed by file and
 * not by request, so the result of an earlier attempt can remove the entry of
 * a retry. This happens only after a checksum mismatch.
 */
module ReceiveRetries {
  import opened Wrappers
  import opened Text
  import opened Session
  import opened UploadProtocol
  import opened UploadInvariants
  import opened UploadRetries
  import opened SavePipeline
  import opened ReceiveTracker
  import opened ReceiveComposition

  /** The requests whose pipeline reported a checksum mismatch. */
  function Mismatched(pipes: map<nat, Pipe>): set<nat> {
    set u | u in pipes && pipes[u].forwarder == Answered(HashMismatch)
  }

  /** The request of the last upload of the file among the events. */
  function LastShown(events: seq<Event>, sid: SessionId, fid: FileId): Option<nat> {
    if events == [] then None
    else if AnnouncesFor(events[|events| - 1], sid, fid) then Some(events[|events| - 1].request)
    else LastShown(events[..|events| - 1], sid, fid)
  }

  function Consumed(w: World): seq<Event> {
    if w.cursor <= |w.srv.events| then w.srv.events[..w.cursor] else w.srv.events
  }

  /** The files shown as in progress. */
  function Entries(receive: Option<Receive>): map<FileId, nat> {
    if receive.Some? then receive.value.inProgress else map[]
  }

  /** The application has not been given the result of this request. */
  predicate Undelivered(pipes: map<nat, Pipe>, results: set<(nat, bool)>, v: nat) {
    (v in pipes && pipes[v].answer.None?) || (v, true) in results || (v, false) in results
  }

  // Invariant

  /** An entry shows the last upload of its file that was consumed. */
  ghost predicate EntriesLatest(receive: Option<Receive>, consumed: seq<Event>) {
    receive.Some? ==>
      forall fid :: fid in receive.value.inProgress ==>
        LastShown(consumed, receive.value.sid, fid) == Some(receive.value.inProgress[fid])
  }

  predicate ShownIn(consumed: seq<Event>, uploads: Uploads, u: nat) {
    u in uploads && FileUpload(uploads[u].sid, uploads[u].fid, u) in consumed
  }

  /** Only uploads that were consumed have a pipeline or a result. */
  ghost predicate ShownFirst(consumed: seq<Event>, uploads: Uploads, pipes: map<nat, Pipe>, results: set<(nat, bool)>) {
    forall u :: u in pipes || (u, true) in results || (u, false) in results ==> ShownIn(consumed, uploads, u)
  }

  /** A result is the answer of its pipeline. */
  ghost predicate AnswersMatch(pipes: map<nat, Pipe>, results: set<(nat, bool)>) {
    forall u, ok :: (u, ok) in results ==> if u in pipes then pipes[u].answer == Some(ok) else !ok
  }

  ghost predicate AnsweredPast(pipes: map<nat, Pipe>, uploads: Uploads) {
    forall u :: u in pipes && u in uploads && pipes[u].answer.Some? ==> !StillReceiving(uploads[u].pc)
  }

  /** Some request for the file ended in a mismatch. */
  predicate FileMismatched(uploads: Uploads, mismatched: set<nat>, sid: SessionId, fid: FileId) {
    exists u :: u in uploads && IsFor(uploads[u], sid, fid) && u in mismatched
  }

  /** A shown upload without a delivered result keeps an entry for its file, unless the file was retried. */
  ghost predicate EntriesKept(receive: Option<Receive>, uploads: Uploads, pipes: map<nat, Pipe>,
                              results: set<(nat, bool)>) {
    receive.Some? ==>
      forall v :: v in uploads && uploads[v].sid == receive.value.sid && Undelivered(pipes, results, v) ==>
        || uploads[v].fid in receive.value.inProgress
        || FileMismatched(uploads, Mismatched(pipes), receive.value.sid, uploads[v].fid)
  }

  ghost predicate RetryInv(w: World) {
    && RetriesSound(w.srv, Mismatched(w.pipes))
    && EntriesLatest(w.receive, Consumed(w))
    && ShownFirst(Consumed(w), w.srv.uploads, w.pipes, w.results)
    && AnswersMatch(w.pipes, w.results)
    && AnsweredPast(w.pipes, w.srv.uploads)
    && EntriesKept(w.receive, w.srv.uploads, w.pipes, w.results)
  }

  // The log

  lemma {:induction false} LastShownNext(events: seq<Event>, event: Event, sid: SessionId, fid: FileId)
    ensures LastShown(events + [event], sid, fid) ==
      if AnnouncesFor(event, sid, fid) then Some(event.request) else LastShown(events, sid, fid)
  {
    assert (events + [event])[..|events|] == events;
  }

  /** A request that was shown, but not last, has a later attempt behind it. */
  lemma {:induction false} ShownEarlier(events: seq<Event>, sid: SessionId, fid: FileId, u: nat) returns (i: nat,
                                        j: nat)
    requires FileUpload(sid, fid, u) in events && LastShown(events, sid, fid) != Some(u)
    ensures i < j < |events| && events[i] == FileUpload(sid, fid, u) && SameFile(events[i], events[j])
    decreases |events|
  {
    var n := |events| - 1;
    if AnnouncesFor(events[n], sid, fid) {
      i :| 0 <= i < |events| && events[i] == FileUpload(sid, fid, u);
      j := n;
    } else {
      i, j := ShownEarlier(events[..n], sid, fid, u);
    }
  }

  /** So it ended in a mismatch. */
  lemma {:induction false} SupersededMismatched(w: World, u: nat)
    requires RetriesSound(w.srv, Mismatched(w.pipes)) && ShownIn(Consumed(w), w.srv.uploads, u)
    requires LastShown(Consumed(w), w.srv.uploads[u].sid, w.srv.uploads[u].fid) != Some(u)
    ensures u in Mismatched(w.pipes)
  {
    var i, j := ShownEarlier(Consumed(w), w.srv.uploads[u].sid, w.srv.uploads[u].fid, u);
    assert w.srv.events[i] == Consumed(w)[i] && w.srv.events[j] == Consumed(w)[j];
  }

  /** Two requests for one file: one of them ended in a mismatch. */
  lemma TwoRequests(srv: State, mismatched: set<nat>, u: nat, v: nat)
    requires OnlyMismatchesSuperseded(srv.uploads, srv.owner, mismatched) && u in srv.uploads && v in srv.uploads
    requires u != v
    requires IsFor(srv.uploads[u], srv.uploads[v].sid, srv.uploads[v].fid)
    ensures FileMismatched(srv.uploads, mismatched, srv.uploads[v].sid, srv.uploads[v].fid)
  {
    var key := (srv.uploads[v].sid, srv.uploads[v].fid);
    if srv.owner[key] != u {
      assert u in mismatched;
    } else {
      assert v in mismatched && IsFor(srv.uploads[v], key.0, key.1);
    }
  }

  // Server steps

  lemma ConsumedKept(w: World, t: State)
    requires w.cursor <= |w.srv.events| && EventsEvolve(w.srv, t)
    ensures w.cursor <= |t.events| && Consumed(w.(srv := t)) == Consumed(w)
  {
    assert t.events[..|w.srv.events|][..w.cursor] == t.events[..w.cursor];
  }

  lemma MismatchKept(before: Uploads, after: Uploads, mismatched: set<nat>, sid: SessionId, fid: FileId)
    requires UploadsEvolve(before, after) && FileMismatched(before, mismatched, sid, fid)
    ensures FileMismatched(after, mismatched, sid, fid)
  {
    var u :| u in before && IsFor(before[u], sid, fid) && u in mismatched;
    assert SameUpload(before[u], after[u]);
  }

  lemma EvolvingKeepsShown(w: World, after: Uploads)
    requires UploadsEvolve(w.srv.uploads, after)
    requires ShownFirst(Consumed(w), w.srv.uploads, w.pipes, w.results) && AnsweredPast(w.pipes, w.srv.uploads)
    ensures ShownFirst(Consumed(w), after, w.pipes, w.results) && AnsweredPast(w.pipes, after)
  {
    hide Consumed;
  }

  lemma EvolvingKeepsEntries(w: World, after: Uploads)
    requires UploadsEvolve(w.srv.uploads, after) && EntriesKept(w.receive, w.srv.uploads, w.pipes, w.results)
    requires ShownFirst(Consumed(w), w.srv.uploads, w.pipes, w.results)
    ensures EntriesKept(w.receive, after, w.pipes, w.results)
  {
    hide Consumed, Mismatched, FileMismatched;
    if w.receive.Some? {
      var r := w.receive.value;
      forall v | v in after && after[v].sid == r.sid && Undelivered(w.pipes, w.results, v)
        ensures after[v].fid in r.inProgress || FileMismatched(after, Mismatched(w.pipes), r.sid, after[v].fid)
      {
        assert ShownIn(Consumed(w), w.srv.uploads, v);
        if after[v].fid !in r.inProgress {
          MismatchKept(w.srv.uploads, after, Mismatched(w.pipes), r.sid, after[v].fid);
        }
      }
    }
  }

  /** The server moves on while the application and the pipelines do nothing. */
  lemma ServerMoveKeeps(w: World, t: State)
    requires RetryInv(w) && w.cursor <= |w.srv.events| && Evolves(w.srv, t) && RetriesSound(t, Mismatched(w.pipes))
    ensures RetryInv(w.(srv := t))
  {
    hide RetriesSound, EntriesLatest, ShownFirst, AnswersMatch, AnsweredPast, EntriesKept, Consumed, Mismatched;
    hide UploadsEvolve, EventsEvolve, PreparesEvolve;
    ConsumedKept(w, t);
    EvolvingKeepsShown(w, t.uploads);
    EvolvingKeepsEntries(w, t.uploads);
  }

  // Pipelines

  lemma SameAnswerKeepsShown(w: World, u: nat, pipe: Pipe)
    requires ShownFirst(Consumed(w), w.srv.uploads, w.pipes, w.results)
    requires AnswersMatch(w.pipes, w.results) && AnsweredPast(w.pipes, w.srv.uploads)
    requires u in w.pipes && pipe.answer == w.pipes[u].answer
    ensures ShownFirst(Consumed(w), w.srv.uploads, w.pipes[u := pipe], w.results)
    ensures AnswersMatch(w.pipes[u := pipe], w.results) && AnsweredPast(w.pipes[u := pipe], w.srv.uploads)
  {
    hide Consumed, ShownIn;
  }

  lemma SameAnswerKeepsEntries(w: World, u: nat, pipe: Pipe)
    requires EntriesKept(w.receive, w.srv.uploads, w.pipes, w.results)
    requires u in w.pipes && pipe.answer == w.pipes[u].answer && Mismatched(w.pipes[u := pipe]) == Mismatched(w.pipes)
    ensures EntriesKept(w.receive, w.srv.uploads, w.pipes[u := pipe], w.results)
  {
    hide Mismatched, FileMismatched;
    assert forall v :: Undelivered(w.pipes[u := pipe], w.results, v) <==> Undelivered(w.pipes, w.results, v);
  }

  lemma SameMismatches(pipes: map<nat, Pipe>, u: nat, pipe: Pipe)
    requires u in pipes
    requires pipe.forwarder == Answered(HashMismatch) <==> pipes[u].forwarder == Answered(HashMismatch)
    ensures Mismatched(pipes[u := pipe]) == Mismatched(pipes)
  {
  }

  lemma SameAnswerKeeps(w: World, u: nat, pipe: Pipe)
    requires RetryInv(w) && u in w.pipes && pipe.answer == w.pipes[u].answer
    requires pipe.forwarder == Answered(HashMismatch) <==> w.pipes[u].forwarder == Answered(HashMismatch)
    ensures RetryInv(w.(pipes := w.pipes[u := pipe]))
  {
    hide RetriesSound, EntriesLatest, ShownFirst, AnswersMatch, AnsweredPast, EntriesKept, Mismatched;
    SameMismatches(w.pipes, u, pipe);
    SameAnswerKeepsShown(w, u, pipe);
    SameAnswerKeepsEntries(w, u, pipe);
    assert Consumed(w.(pipes := w.pipes[u := pipe])) == Consumed(w);
    hide Consumed;
  }

  lemma MismatchGrows(uploads: Uploads, fewer: set<nat>, more: set<nat>, sid: SessionId, fid: FileId)
    requires FileMismatched(uploads, fewer, sid, fid) && fewer <= more
    ensures FileMismatched(uploads, more, sid, fid)
  {
  }

  lemma AnswerKeepsEntries(w: World, u: nat, pipe: Pipe, ok: bool)
    requires EntriesKept(w.receive, w.srv.uploads, w.pipes, w.results)
    requires u in w.pipes && w.pipes[u].answer.None? && pipe.answer == Some(ok)
    requires Mismatched(w.pipes) <= Mismatched(w.pipes[u := pipe])
    ensures EntriesKept(w.receive, w.srv.uploads, w.pipes[u := pipe], w.results + {(u, ok)})
  {
    hide Mismatched, FileMismatched;
    if w.receive.Some? {
      var r, uploads, pipes := w.receive.value, w.srv.uploads, w.pipes[u := pipe];
      forall v | v in uploads && uploads[v].sid == r.sid && Undelivered(pipes, w.results + {(u, ok)}, v)
        ensures uploads[v].fid in r.inProgress || FileMismatched(uploads, Mismatched(pipes), r.sid, uploads[v].fid)
      {
        assert Undelivered(w.pipes, w.results, v);
        if uploads[v].fid !in r.inProgress {
          MismatchGrows(uploads, Mismatched(w.pipes), Mismatched(pipes), r.sid, uploads[v].fid);
        }
      }
    }
  }

  lemma AnswerKeepsShown(w: World, u: nat, pipe: Pipe, ok: bool)
    requires ShownFirst(Consumed(w), w.srv.uploads, w.pipes, w.results)
    requires AnswersMatch(w.pipes, w.results) && AnsweredPast(w.pipes, w.srv.uploads)
    requires u in w.pipes && w.pipes[u].answer.None? && pipe.answer == Some(ok)
    requires u in w.srv.uploads && !StillReceiving(w.srv.uploads[u].pc)
    ensures ShownFirst(Consumed(w), w.srv.uploads, w.pipes[u := pipe], w.results + {(u, ok)})
    ensures AnswersMatch(w.pipes[u := pipe], w.results + {(u, ok)}) && AnsweredPast(w.pipes[u := pipe], w.srv.uploads)
  {
    hide Consumed, ShownIn;
  }

  /** A request that stopped receiving answers the application. */
  lemma AnswerKeeps(w: World, u: nat, pipe: Pipe, ok: bool)
    requires EntriesLatest(w.receive, Consumed(w)) && EntriesKept(w.receive, w.srv.uploads, w.pipes, w.results)
    requires ShownFirst(Consumed(w), w.srv.uploads, w.pipes, w.results)
    requires AnswersMatch(w.pipes, w.results) && AnsweredPast(w.pipes, w.srv.uploads)
    requires u in w.pipes && w.pipes[u].answer.None? && pipe.answer == Some(ok)
    requires u in w.srv.uploads && !StillReceiving(w.srv.uploads[u].pc)
    requires Mismatched(w.pipes) <= Mismatched(w.pipes[u := pipe])
    requires RetriesSound(w.srv, Mismatched(w.pipes[u := pipe]))
    ensures RetryInv(w.(pipes := w.pipes[u := pipe], results := w.results + {(u, ok)}))
  {
    AnswerKeepsShown(w, u, pipe, ok);
    AnswerKeepsEntries(w, u, pipe, ok);
    hide RetriesSound, EntriesLatest, ShownFirst, AnswersMatch, AnsweredPast, EntriesKept, Mismatched;
    assert Consumed(w.(pipes := w.pipes[u := pipe], results := w.results + {(u, ok)})) == Consumed(w);
    hide Consumed;
  }

  /** A pipeline without an answer is not answered. */
  lemma UnansweredPipe(hash: Bytes -> string, pipes: map<nat, Pipe>, u: nat, pipe: Pipe)
    requires u in pipes && PipeInv(hash, pipes[u]) && pipes[u].answer.None?
    ensures SenderOpen(pipes[u].forwarder) || pipes[u].forwarder.Awaiting?
    ensures Mismatched(pipes) <= Mismatched(pipes[u := pipe])
  {
    hide FileInv;
  }

  lemma CursorPart(hash: Bytes -> string, w: World)
    requires WorldInv(hash, w)
    ensures w.cursor <= |w.srv.events|
  {
    hide Inv, PipesSound, ProgressSound, ReceiveSound, ResultsSound, CountedSound, DeliveredSound, NoNewerUploads;
  }

  lemma PipeKnown(hash: Bytes -> string, w: World, u: nat)
    requires WorldInv(hash, w) && u in w.pipes
    ensures u in w.srv.uploads && PipeInv(hash, w.pipes[u])
  {
    hide Inv, PipeInv, ProgressSound, ReceiveSound, ResultsSound, CountedSound, DeliveredSound;
    hide NoStaleUploads, NoNewerUploads;
  }

  lemma ServerInv(hash: Bytes -> string, w: World)
    requires WorldInv(hash, w)
    ensures Inv(w.srv)
  {
    hide Inv;
  }

  lemma SilentStepRetries(hash: Bytes -> string, w: World, step: Step)
    requires WorldInv(hash, w) && RetryInv(w) && Allowed(w, step)
    ensures RetryInv(w.(srv := Apply(w.srv, step)))
  {
    hide WorldInv, Inv, Apply, Evolves, RetriesSound, EntriesLatest, ShownFirst, AnswersMatch, AnsweredPast;
    hide EntriesKept;
    hide Consumed, Mismatched;
    CursorPart(hash, w);
    ServerInv(hash, w);
    StepEvolves(w.srv, step);
    StepKeepsRetries(w.srv, step, Mismatched(w.pipes));
    ServerMoveKeeps(w, Apply(w.srv, step));
  }

  lemma EffectiveDrop(s: State, u: nat)
    requires Apply(s, Upload(u, DropUpload)) != s
    ensures u in s.uploads && StillReceiving(s.uploads[u].pc)
    ensures UploadAt(Apply(s, Upload(u, DropUpload)), u, Dropped)
  {
  }

  lemma DroppedPipe(hash: Bytes -> string, p: Pipe)
    requires SenderOpen(p.forwarder) || p.forwarder.Awaiting?
    ensures ApplyPipe(hash, p, DropRequest).answer == Some(false)
  {
  }

  lemma StillUnanswered(w: World, u: nat)
    requires RetryInv(w) && u in w.pipes && u in w.srv.uploads && StillReceiving(w.srv.uploads[u].pc)
    ensures w.pipes[u].answer.None?
  {
    hide RetriesSound, EntriesLatest, ShownFirst, AnswersMatch, EntriesKept, Consumed, Mismatched;
  }

  lemma DropAnswers(hash: Bytes -> string, v: World, u: nat)
    requires RetryInv(v) && u in v.pipes && v.pipes[u].answer.None? && PipeInv(hash, v.pipes[u])
    requires u in v.srv.uploads && !StillReceiving(v.srv.uploads[u].pc)
    ensures var pipe := ApplyPipe(hash, v.pipes[u], DropRequest);
      RetryInv(v.(pipes := v.pipes[u := pipe], results := v.results + {(u, false)}))
  {
    hide PipeInv, ApplyPipe, RetriesSound, EntriesLatest, ShownFirst, AnswersMatch, EntriesKept, AnsweredPast;
    hide Consumed, Mismatched;
    var pipe := ApplyPipe(hash, v.pipes[u], DropRequest);
    UnansweredPipe(hash, v.pipes, u, pipe);
    DroppedPipe(hash, v.pipes[u]);
    RetriesGrow(v.srv, Mismatched(v.pipes), Mismatched(v.pipes[u := pipe]));
    AnswerKeeps(v, u, pipe, false);
  }

  lemma ServerKeepsRetries(hash: Bytes -> string, w: World, step: Step)
    requires WorldInv(hash, w) && RetryInv(w) && Allowed(w, step)
    ensures RetryInv(DoServer(hash, w, step))
  {
    hide WorldInv, RetryInv, PipeInv, Apply, ApplyPipe;
    var v := w.(srv := Apply(w.srv, step));
    SilentStepRetries(hash, w, step);
    if step.Upload? && step.upload.DropUpload? && step.u in w.pipes && v.srv != w.srv {
      EffectiveDrop(w.srv, step.u);
      StillUnanswered(w, step.u);
      PipeKnown(hash, w, step.u);
      DropAnswers(hash, v, step.u);
    }
  }

  // Pipeline steps and results

  lemma MoveKeepsAnswer(hash: Bytes -> string, p: Pipe, step: PipeStep)
    requires !step.Collect? && !step.DropRequest?
    ensures var q := ApplyPipe(hash, p, step);
      q.answer == p.answer && (q.forwarder == Answered(HashMismatch) <==> p.forwarder == Answered(HashMismatch))
  {
  }

  lemma PipelineKeepsRetries(hash: Bytes -> string, w: World, u: nat, step: PipeStep)
    requires RetryInv(w) && u in w.pipes && !step.Collect? && !step.DropRequest?
    ensures RetryInv(w.(pipes := w.pipes[u := ApplyPipe(hash, w.pipes[u], step)]))
  {
    hide RetryInv, ApplyPipe;
    MoveKeepsAnswer(hash, w.pipes[u], step);
    SameAnswerKeeps(w, u, ApplyPipe(hash, w.pipes[u], step));
  }

  lemma CollectedPipe(hash: Bytes -> string, pipes: map<nat, Pipe>, u: nat)
    requires u in pipes && pipes[u].forwarder.Awaiting? && pipes[u].writer.Stopped?
    ensures var pipe := DoCollect(hash, pipes[u]);
      && pipe.forwarder.Answered? && pipe.answer == Some(pipe.forwarder.result.Success?)
      && Mismatched(pipes) <= Mismatched(pipes[u := pipe])
      && (pipe.forwarder.result.HashMismatch? ==> u in Mismatched(pipes[u := pipe]))
  {
  }

  lemma FinishStep(s: State, u: nat, result: SaveResult)
    requires UploadAt(s, u, Receiving)
    ensures UploadAt(Apply(s, Upload(u, FinishUpload(result))), u, Finishing(result))
  {
  }

  /** What answering needs of a world whose mismatches are about to grow. */
  ghost predicate ReadyToAnswer(w: World, more: set<nat>) {
    && RetriesSound(w.srv, more)
    && EntriesLatest(w.receive, Consumed(w)) && EntriesKept(w.receive, w.srv.uploads, w.pipes, w.results)
    && ShownFirst(Consumed(w), w.srv.uploads, w.pipes, w.results)
    && AnswersMatch(w.pipes, w.results) && AnsweredPast(w.pipes, w.srv.uploads)
  }

  lemma FinishGetsReady(w: World, u: nat, result: SaveResult, more: set<nat>)
    requires Inv(w.srv) && RetryInv(w) && w.cursor <= |w.srv.events|
    requires Mismatched(w.pipes) <= more && (result.HashMismatch? ==> u in more)
    ensures ReadyToAnswer(w.(srv := Apply(w.srv, Upload(u, FinishUpload(result)))), more)
  {
    hide Inv, Apply, Evolves, Consumed, Mismatched, UploadsEvolve, EventsEvolve;
    hide RetriesSound, EntriesLatest, ShownFirst, AnswersMatch, AnsweredPast, EntriesKept;
    var step := Upload(u, FinishUpload(result));
    var t := Apply(w.srv, step);
    RetriesGrow(w.srv, Mismatched(w.pipes), more);
    StepKeepsRetries(w.srv, step, more);
    StepEvolves(w.srv, step);
    EvolvesParts(w.srv, t);
    ConsumedKept(w, t);
    EvolvingKeepsShown(w, t.uploads);
    EvolvingKeepsEntries(w, t.uploads);
  }

  lemma CompleteKeepsRetries(hash: Bytes -> string, w: World, u: nat)
    requires WorldInv(hash, w) && RetryInv(w) && u in w.pipes && UploadAt(w.srv, u, Receiving)
    requires w.pipes[u].forwarder.Awaiting? && w.pipes[u].writer.Stopped?
    ensures RetryInv(DoComplete(hash, w, u))
  {
    hide WorldInv, RetryInv, Inv, Apply, DoCollect, Consumed, Mismatched;
    hide RetriesSound, EntriesLatest, ShownFirst, AnswersMatch, AnsweredPast, EntriesKept;
    StillUnanswered(w, u);
    CursorPart(hash, w);
    ServerInv(hash, w);
    var pipe := DoCollect(hash, w.pipes[u]);
    CollectedPipe(hash, w.pipes, u);
    var result := pipe.forwarder.result;
    FinishStep(w.srv, u, result);
    FinishGetsReady(w, u, result, Mismatched(w.pipes[u := pipe]));
    AnswerKeeps(w.(srv := Apply(w.srv, Upload(u, FinishUpload(result)))), u, pipe, result.Success?);
  }

  lemma EvolvesParts(s: State, t: State)
    requires Evolves(s, t)
    ensures UploadsEvolve(s.uploads, t.uploads) && EventsEvolve(s, t)
  {
  }

  /** After a result the request has nothing left to deliver. */
  lemma DeliveredOnce(pipes: map<nat, Pipe>, results: set<(nat, bool)>, u: nat, ok: bool)
    requires AnswersMatch(pipes, results) && (u, ok) in results
    ensures !Undelivered(pipes, results - {(u, ok)}, u)
  {
  }

  lemma CountKeepsEntries(w: World, u: nat, ok: bool)
    requires OnlyMismatchesSuperseded(w.srv.uploads, w.srv.owner, Mismatched(w.pipes))
    requires AnswersMatch(w.pipes, w.results) && EntriesKept(w.receive, w.srv.uploads, w.pipes, w.results)
    requires (u, ok) in w.results && u in w.srv.uploads && Tracks(w.receive, w.srv.uploads[u].sid)
    ensures var counted := CountResult(w.receive.value, w.srv.uploads[u].fid, ok);
      EntriesKept(Some(counted), w.srv.uploads, w.pipes, w.results - {(u, ok)})
  {
    hide Mismatched, FileMismatched, OnlyMismatchesSuperseded, AnswersMatch;
    var r, uploads, fid := w.receive.value, w.srv.uploads, w.srv.uploads[u].fid;
    forall v | v in uploads && uploads[v].sid == r.sid && Undelivered(w.pipes, w.results - {(u, ok)}, v)
      ensures
        || uploads[v].fid in r.inProgress - {fid}
        || FileMismatched(uploads, Mismatched(w.pipes), r.sid, uploads[v].fid)
    {
      DeliveredOnce(w.pipes, w.results, u, ok);
      if uploads[v].fid == fid {
        TwoRequests(w.srv, Mismatched(w.pipes), u, v);
      }
    }
  }

  lemma DeliverKeepsShown(w: World, u: nat, ok: bool)
    requires ShownFirst(Consumed(w), w.srv.uploads, w.pipes, w.results) && AnswersMatch(w.pipes, w.results)
    ensures ShownFirst(Consumed(w), w.srv.uploads, w.pipes, w.results - {(u, ok)})
    ensures AnswersMatch(w.pipes, w.results - {(u, ok)})
  {
    hide Consumed, ShownIn;
  }

  lemma DeliverKeepsReceive(w: World, u: nat, ok: bool)
    requires RetryInv(w) && (u, ok) in w.results && u in w.srv.uploads
    ensures var v := DoDeliverResult(w, u, ok);
      EntriesLatest(v.receive, Consumed(w)) && EntriesKept(v.receive, v.srv.uploads, v.pipes, v.results)
  {
    hide Consumed, ShownFirst, AnsweredPast, Mismatched, FileMismatched;
    if Tracks(w.receive, w.srv.uploads[u].sid) {
      CountKeepsEntries(w, u, ok);
    }
    hide RetriesSound, AnswersMatch;
  }

  lemma DeliverKeepsRetries(w: World, u: nat, ok: bool)
    requires RetryInv(w) && (u, ok) in w.results && u in w.srv.uploads
    ensures RetryInv(DoDeliverResult(w, u, ok))
  {
    hide RetriesSound, EntriesLatest, ShownFirst, AnswersMatch, AnsweredPast, EntriesKept, Mismatched, OnResult;
    DeliverKeepsShown(w, u, ok);
    DeliverKeepsReceive(w, u, ok);
    assert Consumed(DoDeliverResult(w, u, ok)) == Consumed(w);
    hide Consumed;
  }

  // Consuming server events

  lemma ConsumedNext(v: World, w: World)
    requires v.srv == w.srv && v.cursor == w.cursor + 1 && w.cursor < |w.srv.events|
    ensures Consumed(v) == Consumed(w) + [w.srv.events[w.cursor]]
  {
  }

  lemma MoreConsumedKeepsShown(w: World, event: Event)
    requires ShownFirst(Consumed(w), w.srv.uploads, w.pipes, w.results)
    ensures ShownFirst(Consumed(w) + [event], w.srv.uploads, w.pipes, w.results)
  {
    hide Consumed;
  }

  lemma OtherEventKeepsLatest(receive: Option<Receive>, consumed: seq<Event>, event: Event)
    requires EntriesLatest(receive, consumed) && !(event.FileUpload? && Tracks(receive, event.sid))
    ensures EntriesLatest(receive, consumed + [event])
  {
    hide LastShown;
    if receive.Some? {
      forall fid | fid in receive.value.inProgress
        ensures LastShown(consumed + [event], receive.value.sid, fid) == LastShown(consumed, receive.value.sid, fid)
      {
        LastShownNext(consumed, event, receive.value.sid, fid);
      }
    }
  }

  /** Moving past an event that is no upload of the tracked session. */
  lemma AdvanceKeepsRetries(w: World)
    requires RetryInv(w) && w.cursor < |w.srv.events|
    requires !(w.srv.events[w.cursor].FileUpload? && Tracks(w.receive, w.srv.events[w.cursor].sid))
    ensures RetryInv(w.(cursor := w.cursor + 1))
  {
    hide RetriesSound, EntriesLatest, ShownFirst, AnswersMatch, AnsweredPast, EntriesKept, Consumed, Mismatched;
    ConsumedNext(w.(cursor := w.cursor + 1), w);
    MoreConsumedKeepsShown(w, w.srv.events[w.cursor]);
    OtherEventKeepsLatest(w.receive, Consumed(w), w.srv.events[w.cursor]);
  }

  /** Nothing of a session that is being decided was uploaded. */
  lemma UndecidedHasNoUploads(s: State, sid: SessionId, u: nat)
    requires PreparesSound(s.prepares, s.accepted) && UploadsSound(s.uploads, s.owner, s.accepted)
    requires PrepareAt(s, sid, Deciding) && u in s.uploads
    ensures s.uploads[u].sid != sid
  {
  }

  lemma NewReceiveKeeps(w: World, receive: Receive)
    requires RetryInv(w) && receive.inProgress == map[]
    requires forall u :: u in w.srv.uploads ==> w.srv.uploads[u].sid != receive.sid
    ensures RetryInv(w.(receive := Some(receive)))
  {
    hide RetriesSound, ShownFirst, AnswersMatch, AnsweredPast, Mismatched, FileMismatched;
    assert Consumed(w.(receive := Some(receive))) == Consumed(w);
    hide Consumed, LastShown;
  }

  /** Fields the account of retries does not depend on. */
  lemma UnrelatedKeeps(w: World, v: World)
    requires RetryInv(w) && v.srv == w.srv && v.cursor == w.cursor && v.receive == w.receive
    requires v.pipes == w.pipes && v.results == w.results
    ensures RetryInv(v)
  {
    assert Consumed(v) == Consumed(w);
    hide RetriesSound, EntriesLatest, ShownFirst, AnswersMatch, AnsweredPast, EntriesKept, Mismatched, Consumed;
  }

  lemma AcceptKeepsRetries(hash: Bytes -> string, w: World, sid: SessionId)
    requires Inv(w.srv) && RetryInv(w)
    ensures RetryInv(DoAccept(w, sid))
  {
    hide Inv, RetryInv, PreparesSound, UploadsSound, ProgressOwned, ActiveSound, LogUploads;
    if PrepareAt(w.srv, sid, Deciding) {
      RetryParts(w.srv);
      forall u | u in w.srv.uploads ensures w.srv.uploads[u].sid != sid {
        UndecidedHasNoUploads(w.srv, sid, u);
      }
      var receive := NewReceive(sid, w.srv.prepares[sid].offered);
      NewReceiveKeeps(w, receive);
      UnrelatedKeeps(w.(receive := Some(receive)), DoAccept(w, sid));
    }
  }

  lemma PrepareUploadKeepsRetries(hash: Bytes -> string, w: World, sid: SessionId, reaction: Reaction)
    requires Inv(w.srv) && RetryInv(w)
    ensures RetryInv(DoPrepareUpload(w, sid, reaction))
  {
    AcceptKeepsRetries(hash, w, sid);
    hide Inv, RetryInv, DoAccept;
    match reaction {
      case AcceptPaired =>
      case _ => UnrelatedKeeps(w, DoPrepareUpload(w, sid, reaction));
    }
  }

  lemma AnswerPendingKeepsRetries(hash: Bytes -> string, w: World, accept: bool)
    requires Inv(w.srv) && RetryInv(w) && w.pending.Some?
    ensures RetryInv(DoAnswerPending(w, accept))
  {
    var v := w.(pending := None);
    hide Inv, RetryInv, DoAccept;
    UnrelatedKeeps(w, v);
    AcceptKeepsRetries(hash, v, w.pending.value);
    if !accept {
      UnrelatedKeeps(w, DoAnswerPending(w, accept));
    }
  }

  predicate SameEntries(before: Option<Receive>, after: Option<Receive>)
    requires after.Some?
  {
    before.Some? && before.value.sid == after.value.sid && before.value.inProgress == after.value.inProgress
  }

  lemma ReceiveKeepsRetries(w: World, receive: Option<Receive>)
    requires RetryInv(w) && (receive.Some? ==> SameEntries(w.receive, receive))
    ensures RetryInv(w.(receive := receive))
  {
    hide RetriesSound, ShownFirst, AnswersMatch, AnsweredPast, Mismatched, FileMismatched;
    assert Consumed(w.(receive := receive)) == Consumed(w);
    hide Consumed, LastShown;
  }

  lemma SessionEndKeepsRetries(w: World, sid: SessionId, reason: EndReason)
    requires RetryInv(w)
    ensures RetryInv(w.(receive := OnSessionEnd(w.receive, sid, reason)))
  {
    hide RetryInv;
    ReceiveKeepsRetries(w, OnSessionEnd(w.receive, sid, reason));
  }

  /** The upload about to be shown has neither a pipeline nor a result yet. */
  lemma NotShownBefore(w: World)
    requires RetryInv(w) && w.cursor < |w.srv.events| && w.srv.events[w.cursor].FileUpload?
    ensures var u := w.srv.events[w.cursor].request;
      u !in w.pipes && (u, true) !in w.results && (u, false) !in w.results
  {
    hide EntriesLatest, AnswersMatch, AnsweredPast, EntriesKept, Mismatched;
    hide OnlyMismatchesSuperseded, MismatchesKnown, PendingAfterMismatch, LogOfRetries;
    assert forall i :: 0 <= i < |Consumed(w)| ==> w.srv.events[i] == Consumed(w)[i];
  }

  lemma ShownEntryIsLatest(receive: Option<Receive>, consumed: seq<Event>, sid: SessionId, fid: FileId, u: nat)
    requires EntriesLatest(receive, consumed) && Tracks(receive, sid)
    ensures EntriesLatest(OnFileUpload(receive, sid, fid, u), consumed + [FileUpload(sid, fid, u)])
  {
    hide LastShown;
    var event := FileUpload(sid, fid, u);
    forall f
      ensures LastShown(consumed + [event], sid, f) == if f == fid then Some(u) else LastShown(consumed, sid, f)
    {
      LastShownNext(consumed, event, sid, f);
    }
  }

  predicate IsNew(w: World, sid: SessionId, fid: FileId, u: nat) {
    && u !in w.pipes && (u, true) !in w.results && (u, false) !in w.results
    && u in w.srv.uploads && IsFor(w.srv.uploads[u], sid, fid)
  }

  lemma ShowKeepsEntries(w: World, sid: SessionId, fid: FileId, u: nat, pipe: Pipe)
    requires EntriesKept(w.receive, w.srv.uploads, w.pipes, w.results) && Tracks(w.receive, sid)
    requires IsNew(w, sid, fid, u)
    requires pipe.answer.None? && Mismatched(w.pipes[u := pipe]) == Mismatched(w.pipes)
    ensures EntriesKept(OnFileUpload(w.receive, sid, fid, u), w.srv.uploads, w.pipes[u := pipe], w.results)
    ensures EntriesKept(OnFileUpload(w.receive, sid, fid, u), w.srv.uploads, w.pipes, w.results + {(u, false)})
  {
    hide Mismatched, FileMismatched;
    forall v | v != u
      ensures Undelivered(w.pipes[u := pipe], w.results, v) <==> Undelivered(w.pipes, w.results, v)
      ensures Undelivered(w.pipes, w.results + {(u, false)}, v) <==> Undelivered(w.pipes, w.results, v)
    {
    }
  }

  lemma ShowKeepsShown(w: World, sid: SessionId, fid: FileId, u: nat, pipe: Pipe)
    requires ShownFirst(Consumed(w), w.srv.uploads, w.pipes, w.results) && IsNew(w, sid, fid, u)
    requires AnswersMatch(w.pipes, w.results) && AnsweredPast(w.pipes, w.srv.uploads) && pipe.answer.None?
    ensures var consumed := Consumed(w) + [FileUpload(sid, fid, u)];
      && ShownFirst(consumed, w.srv.uploads, w.pipes[u := pipe], w.results)
      && ShownFirst(consumed, w.srv.uploads, w.pipes, w.results + {(u, false)})
    ensures AnswersMatch(w.pipes[u := pipe], w.results) && AnswersMatch(w.pipes, w.results + {(u, false)})
    ensures AnsweredPast(w.pipes[u := pipe], w.srv.uploads)
  {
    hide Consumed;
  }

  lemma FreshMismatches(pipes: map<nat, Pipe>, u: nat, size: nat, expected: Option<string>, body: seq<Frame>)
    requires u !in pipes
    ensures Mismatched(pipes[u := NewPipe(size, expected, body)]) == Mismatched(pipes)
    ensures NewPipe(size, expected, body).answer.None?
  {
  }

  predicate Shows(w: World, v: World, sid: SessionId, fid: FileId, u: nat) {
    && v.srv == w.srv && v.receive == OnFileUpload(w.receive, sid, fid, u)
    && Consumed(v) == Consumed(w) + [FileUpload(sid, fid, u)]
  }

  lemma ShowPipeKeeps(w: World, v: World, sid: SessionId, fid: FileId, u: nat, pipe: Pipe)
    requires RetryInv(w) && Tracks(w.receive, sid) && IsNew(w, sid, fid, u) && Shows(w, v, sid, fid, u)
    requires pipe.answer.None? && Mismatched(w.pipes[u := pipe]) == Mismatched(w.pipes)
    requires v.pipes == w.pipes[u := pipe] && v.results == w.results
    ensures RetryInv(v)
  {
    hide RetriesSound, EntriesLatest, ShownFirst, AnswersMatch, AnsweredPast, EntriesKept, Mismatched, Consumed;
    hide OnFileUpload;
    ShownEntryIsLatest(w.receive, Consumed(w), sid, fid, u);
    ShowKeepsEntries(w, sid, fid, u, pipe);
    ShowKeepsShown(w, sid, fid, u, pipe);
  }

  lemma ShowResultKeeps(w: World, v: World, sid: SessionId, fid: FileId, u: nat, pipe: Pipe)
    requires RetryInv(w) && Tracks(w.receive, sid) && IsNew(w, sid, fid, u) && Shows(w, v, sid, fid, u)
    requires pipe.answer.None? && Mismatched(w.pipes[u := pipe]) == Mismatched(w.pipes)
    requires v.pipes == w.pipes && v.results == w.results + {(u, false)}
    ensures RetryInv(v)
  {
    hide RetriesSound, EntriesLatest, ShownFirst, AnswersMatch, AnsweredPast, EntriesKept, Mismatched, Consumed;
    hide OnFileUpload;
    ShownEntryIsLatest(w.receive, Consumed(w), sid, fid, u);
    ShowKeepsEntries(w, sid, fid, u, pipe);
    ShowKeepsShown(w, sid, fid, u, pipe);
  }

  lemma FileUploadKeepsRetries(w: World, sid: SessionId, fid: FileId, u: nat, body: seq<Frame>, verify: bool)
    requires RetryInv(w) && w.cursor < |w.srv.events| && w.srv.events[w.cursor] == FileUpload(sid, fid, u)
    requires Tracks(w.receive, sid) && IsNew(w, sid, fid, u)
    ensures RetryInv(DoFileUpload(w.(cursor := w.cursor + 1), sid, fid, u, body, verify))
  {
    hide RetryInv, Mismatched, NewPipe, OnFileUpload, Consumed;
    var dto := w.srv.uploads[u].dto;
    var expected := if verify then dto.sha256 else None;
    var pipe := NewPipe(dto.size, expected, body);
    var v := DoFileUpload(w.(cursor := w.cursor + 1), sid, fid, u, body, verify);
    ConsumedNext(v, w);
    FreshMismatches(w.pipes, u, dto.size, expected, body);
    if UploadAt(w.srv, u, Receiving) {
      ShowPipeKeeps(w, v, sid, fid, u, pipe);
    } else {
      ShowResultKeeps(w, v, sid, fid, u, pipe);
    }
  }

  lemma ConsumeKeepsRetries(hash: Bytes -> string, w: World, reaction: Reaction, body: seq<Frame>, verify: bool)
    requires WorldInv(hash, w) && RetryInv(w) && w.cursor < |w.srv.events|
    ensures RetryInv(DoConsume(w, reaction, body, verify))
  {
    hide WorldInv, RetryInv, Inv, NoStaleUploads, DoPrepareUpload, DoFileUpload, OnSessionEnd;
    var v := w.(cursor := w.cursor + 1);
    NextUploadPart(hash, w);
    var event := w.srv.events[w.cursor];
    if event.FileUpload? && Tracks(w.receive, event.sid) {
      NextUpload(w);
      NotShownBefore(w);
      FileUploadKeepsRetries(w, event.sid, event.fid, event.request, body, verify);
    } else {
      AdvanceKeepsRetries(w);
      match event {
        case PrepareUpload(sid, _) => PrepareUploadKeepsRetries(hash, v, sid, reaction);
        case FileUpload(sid, fid, u) => UntrackedUpload(v, sid, fid, u, body, verify);
        case SessionEnd(sid, reason) => SessionEndKeepsRetries(v, sid, reason);
        case PrepareUploadAborted(_) => UnrelatedKeeps(v, DoConsume(w, reaction, body, verify));
        case CancelReceived(_, _) =>
      }
    }
  }

  lemma UntrackedUpload(v: World, sid: SessionId, fid: FileId, u: nat, body: seq<Frame>, verify: bool)
    requires !Tracks(v.receive, sid)
    ensures DoFileUpload(v, sid, fid, u, body, verify) == v
  {
  }

  lemma ResultIsKnown(hash: Bytes -> string, w: World, u: nat, ok: bool)
    requires WorldInv(hash, w) && (u, ok) in w.results
    ensures u in w.srv.uploads
    ensures ok ==> u in w.pipes && w.pipes[u].forwarder == Answered(Success)
  {
    hide Inv, PipesSound, ProgressSound, ReceiveSound, CountedSound, DeliveredSound, NoStaleUploads, NoNewerUploads;
  }

  lemma StepKeepsRetryInv(hash: Bytes -> string, w: World, step: WorldStep)
    requires WorldInv(hash, w) && RetryInv(w)
    ensures RetryInv(ApplyWorld(hash, w, step))
  {
    hide WorldInv, RetryInv, Inv, DoServer, DoConsume, DoAnswerPending, DoComplete, DoDeliverResult, ApplyPipe;
    match step {
      case Server(s) => if Allowed(w, s) { ServerKeepsRetries(hash, w, s); }
      case Consume(reaction, body, verify) =>
        if w.cursor < |w.srv.events| { ConsumeKeepsRetries(hash, w, reaction, body, verify); }
      case AnswerPending(accept) =>
        ServerInv(hash, w);
        if w.pending.Some? { AnswerPendingKeepsRetries(hash, w, accept); }
      case CancelReceive => ReceiveKeepsRetries(w, None);
      case Pipeline(u, pipe) =>
        if u in w.pipes && !pipe.Collect? && !pipe.DropRequest? { PipelineKeepsRetries(hash, w, u, pipe); }
      case Complete(u) =>
        if u in w.pipes && w.pipes[u].forwarder.Awaiting? && w.pipes[u].writer.Stopped?
           && UploadAt(w.srv, u, Receiving)
        {
          CompleteKeepsRetries(hash, w, u);
        }
      case DeliverProgress(_, _) => UnrelatedKeeps(w, ApplyWorld(hash, w, step));
      case DeliverResult(u, ok) =>
        if (u, ok) in w.results && u in w.srv.uploads { DeliverKeepsRetries(w, u, ok); }
    }
  }

  lemma StartRetries()
    ensures RetryInv(START)
  {
  }

  lemma {:induction false} ReachableRetries(hash: Bytes -> string, run: seq<WorldStep>)
    ensures RetryInv(RunWorld(hash, run))
    decreases |run|
  {
    hide WorldInv, RetryInv, ApplyWorld;
    if run == [] {
      StartRetries();
    } else {
      ReachableRetries(hash, run[..|run| - 1]);
      ReachableWorld(hash, run[..|run| - 1]);
      StepKeepsRetryInv(hash, RunWorld(hash, run[..|run| - 1]), run[|run| - 1]);
    }
  }

  // Theorems

  /** An entry that shows another request than `u` is gone. */
  predicate LosesOther(before: Option<Receive>, after: Option<Receive>, u: nat) {
    exists fid :: fid in Entries(before) && Entries(before)[fid] != u && fid !in Entries(after)
  }

  lemma ResultRemoves(receive: Option<Receive>, sid: SessionId, fid: FileId, u: nat, ok: bool)
    ensures LosesOther(receive, OnResult(receive, sid, fid, ok), u) <==>
      Tracks(receive, sid) && fid in Entries(receive) && Entries(receive)[fid] != u
  {
    if Tracks(receive, sid) {
      assert Entries(OnResult(receive, sid, fid, ok)) == Entries(receive) - {fid};
    }
  }

  /** A later attempt for the file of `u` was consumed and is still shown. */
  predicate RetryIsShown(w: World, u: nat)
    requires u in w.srv.uploads
  {
    var handler := w.srv.uploads[u];
    && Tracks(w.receive, handler.sid)
    && handler.fid in Entries(w.receive)
    && LastShown(Consumed(w), handler.sid, handler.fid) != Some(u)
  }

  lemma ShownResult(w: World, u: nat, ok: bool)
    requires RetryInv(w) && (u, ok) in w.results
    ensures ShownIn(Consumed(w), w.srv.uploads, u) && RetriesSound(w.srv, Mismatched(w.pipes))
    ensures EntriesLatest(w.receive, Consumed(w))
  {
    hide RetriesSound, EntriesLatest, AnswersMatch, AnsweredPast, EntriesKept, Consumed, Mismatched, ShownIn;
  }

  /**
   * A result removes the entry of another request exactly if a retry of its
   * file is shown; then the result is a failure and its request ended in a
   * checksum mismatch. In particular an Ok result never does.
   */
  lemma {:induction false} StaleResultIff(hash: Bytes -> string, run: seq<WorldStep>, u: nat, ok: bool)
    requires (u, ok) in RunWorld(hash, run).results
    ensures var w := RunWorld(hash, run);
      var after := ApplyWorld(hash, w, DeliverResult(u, ok));
      && u in w.srv.uploads
      && (LosesOther(w.receive, after.receive, u) <==> RetryIsShown(w, u))
      && (LosesOther(w.receive, after.receive, u) ==> !ok && u in Mismatched(w.pipes))
  {
    var w := RunWorld(hash, run);
    ReachableWorld(hash, run);
    ReachableRetries(hash, run);
    hide RunWorld, WorldInv, RetryInv, RetriesSound, Consumed, LastShown, LosesOther, OnResult;
    ResultIsKnown(hash, w, u, ok);
    ShownResult(w, u, ok);
    var handler := w.srv.uploads[u];
    ResultRemoves(w.receive, handler.sid, handler.fid, u, ok);
    if RetryIsShown(w, u) {
      SupersededMismatched(w, u);
    }
  }

  /** The result of request `v` of the session is still to come. */
  predicate StillToCome(w: World, sid: SessionId, v: nat) {
    v in w.srv.uploads && w.srv.uploads[v].sid == sid && Undelivered(w.pipes, w.results, v)
  }

  /** The session is given up although a result is still to come. */
  predicate DroppedEarly(w: World, after: World, v: nat) {
    && w.receive.Some? && !Tracks(after.receive, w.receive.value.sid)
    && StillToCome(after, w.receive.value.sid, v)
  }

  /** The request a step accepts while it waits for a decision. */
  function AcceptedBy(w: World, step: WorldStep): Option<SessionId> {
    match step
    case Consume(reaction, _, _) =>
      if w.cursor < |w.srv.events| && w.srv.events[w.cursor].PrepareUpload? && reaction.AcceptPaired?
         && PrepareAt(w.srv, w.srv.events[w.cursor].sid, Deciding)
      then Some(w.srv.events[w.cursor].sid) else None
    case AnswerPending(accept) =>
      if accept && w.pending.Some? && PrepareAt(w.srv, w.pending.value, Deciding) then w.pending else None
    case _ => None
  }

  /** Another request is accepted, which replaces the session. */
  predicate AcceptsOther(w: World, step: WorldStep) {
    w.receive.Some? && AcceptedBy(w, step).Some? && AcceptedBy(w, step).value != w.receive.value.sid
  }

  lemma KeptOrMismatched(receive: Option<Receive>, uploads: Uploads, pipes: map<nat, Pipe>, results: set<(nat, bool)>,
                         v: nat)
    requires receive.Some? && EntriesKept(receive, uploads, pipes, results) && receive.value.inProgress == map[]
    requires v in uploads && uploads[v].sid == receive.value.sid && Undelivered(pipes, results, v)
    ensures FileMismatched(uploads, Mismatched(pipes), uploads[v].sid, uploads[v].fid)
  {
  }

  lemma EndDropsEarly(w: World, after: World, sid: SessionId, reason: EndReason, v: nat)
    requires EntriesKept(w.receive, w.srv.uploads, w.pipes, w.results) && DroppedEarly(w, after, v)
    requires after.receive == OnSessionEnd(w.receive, sid, reason)
    requires after.srv == w.srv && after.pipes == w.pipes && after.results == w.results
    ensures FileMismatched(w.srv.uploads, Mismatched(w.pipes), w.srv.uploads[v].sid, w.srv.uploads[v].fid)
  {
    hide Mismatched, FileMismatched, EntriesKept;
    KeptOrMismatched(w.receive, w.srv.uploads, w.pipes, w.results, v);
  }

  lemma ResultDropsEarly(w: World, u: nat, ok: bool, v: nat)
    requires RetryInv(w) && (u, ok) in w.results && u in w.srv.uploads && DroppedEarly(w, DoDeliverResult(w, u, ok), v)
    ensures FileMismatched(w.srv.uploads, Mismatched(w.pipes), w.srv.uploads[v].sid, w.srv.uploads[v].fid)
  {
    hide Mismatched, FileMismatched, EntriesLatest, ShownFirst, AnsweredPast, Consumed, AnswersMatch, EntriesKept;
    hide OnlyMismatchesSuperseded, MismatchesKnown, PendingAfterMismatch, LogOfRetries, AnnouncedOnce;
    var handler := w.srv.uploads[u];
    CountKeepsEntries(w, u, ok);
    var counted := Some(CountResult(w.receive.value, handler.fid, ok));
    KeptOrMismatched(counted, w.srv.uploads, w.pipes, w.results - {(u, ok)}, v);
  }

  predicate ConsumesEnd(w: World, step: WorldStep) {
    step.Consume? && w.cursor < |w.srv.events| && w.srv.events[w.cursor].SessionEnd?
  }

  /** Accepting a request leaves everything but the tracked session alone. */
  lemma AcceptReplaces(w: World, sid: SessionId)
    ensures var v := DoAccept(w, sid);
      && v.srv == w.srv && v.pipes == w.pipes && v.results == w.results
      && if PrepareAt(w.srv, sid, Deciding) then Tracks(v.receive, sid) else v.receive == w.receive
  {
  }

  lemma ConsumeTracks(w: World, reaction: Reaction, body: seq<Frame>, verify: bool)
    requires w.cursor < |w.srv.events| && !w.srv.events[w.cursor].SessionEnd? && w.receive.Some?
    ensures var step := Consume(reaction, body, verify);
      var receive := DoConsume(w, reaction, body, verify).receive;
      if AcceptedBy(w, step).Some? then Tracks(receive, AcceptedBy(w, step).value)
      else Tracks(receive, w.receive.value.sid)
  {
    hide DoAccept;
    if w.srv.events[w.cursor].PrepareUpload? {
      AcceptReplaces(w.(cursor := w.cursor + 1), w.srv.events[w.cursor].sid);
    }
  }

  lemma AnswerTracks(w: World, accept: bool)
    requires w.pending.Some? && w.receive.Some?
    ensures var receive := DoAnswerPending(w, accept).receive;
      if AcceptedBy(w, AnswerPending(accept)).Some? then Tracks(receive, w.pending.value)
      else Tracks(receive, w.receive.value.sid)
  {
    hide DoAccept;
    AcceptReplaces(w.(pending := None), w.pending.value);
  }

  /** Besides the user, only a result, the end of the session or another accepted request gives a receive session up. */
  lemma OnlyTheseDrop(hash: Bytes -> string, w: World, step: WorldStep)
    requires w.receive.Some? && !step.CancelReceive? && !step.DeliverResult? && !ConsumesEnd(w, step)
    ensures Tracks(ApplyWorld(hash, w, step).receive, w.receive.value.sid) <==> !AcceptsOther(w, step)
  {
    hide DoConsume, DoAnswerPending, Apply, ApplyPipe, DoCollect, AcceptedBy;
    match step {
      case Consume(reaction, body, verify) =>
        if w.cursor < |w.srv.events| {
          ConsumeTracks(w, reaction, body, verify);
        } else {
          NothingAccepted(w, step);
        }
      case AnswerPending(accept) =>
        if w.pending.Some? {
          AnswerTracks(w, accept);
          PendingAccepted(w, accept);
        } else {
          NothingAccepted(w, step);
        }
      case _ => NothingAccepted(w, step);
    }
  }

  lemma NothingAccepted(w: World, step: WorldStep)
    requires step.Consume? ==> w.cursor >= |w.srv.events|
    requires step.AnswerPending? ==> w.pending.None?
    ensures AcceptedBy(w, step) == None
  {
  }

  lemma PendingAccepted(w: World, accept: bool)
    ensures AcceptedBy(w, AnswerPending(accept)).Some? ==> AcceptedBy(w, AnswerPending(accept)) == w.pending
  {
  }

  /** An accepting step touches neither the server nor pipelines or results. */
  lemma AcceptingLeavesRest(hash: Bytes -> string, w: World, step: WorldStep)
    requires AcceptedBy(w, step).Some?
    ensures var after := ApplyWorld(hash, w, step);
      after.srv == w.srv && after.pipes == w.pipes && after.results == w.results
  {
    hide DoAccept;
    AcceptReplaces(w.(cursor := w.cursor + 1), AcceptedBy(w, step).value);
    AcceptReplaces(w.(pending := None), AcceptedBy(w, step).value);
  }

  /** While a request waits for its decision the slot is its own. */
  lemma DecidingHoldsSlot(hash: Bytes -> string, w: World, step: WorldStep)
    requires WorldInv(hash, w) && AcceptsOther(w, step)
    ensures !w.srv.slot.IsActive(w.receive.value.sid)
  {
    hide WorldInv, Inv;
    ServerInv(hash, w);
    OwnerHasSlot(w.srv, AcceptedBy(w, step).value);
  }

  lemma EntriesPart(w: World)
    requires RetryInv(w)
    ensures EntriesKept(w.receive, w.srv.uploads, w.pipes, w.results)
  {
    hide EntriesKept;
  }

  /** A result or the end of the session gives it up early only after a mismatch of the file. */
  lemma DropStep(hash: Bytes -> string, w: World, step: WorldStep, v: nat)
    requires RetryInv(w) && DroppedEarly(w, ApplyWorld(hash, w, step), v)
    requires step.DeliverResult? || ConsumesEnd(w, step)
    ensures ApplyWorld(hash, w, step).srv == w.srv && ApplyWorld(hash, w, step).pipes == w.pipes
    ensures FileMismatched(w.srv.uploads, Mismatched(w.pipes), w.srv.uploads[v].sid, w.srv.uploads[v].fid)
  {
    hide RetryInv, EntriesKept, FileMismatched, Mismatched, Apply, ApplyPipe, DoCollect, DoPrepareUpload;
    hide DoFileUpload, OnResult, OnSessionEnd;
    if step.DeliverResult? {
      assert (step.u, step.ok) in w.results && step.u in w.srv.uploads;
      ResultDropsEarly(w, step.u, step.ok, v);
    } else {
      EntriesPart(w);
      EndDropsEarly(w, ApplyWorld(hash, w, step), w.srv.events[w.cursor].sid, w.srv.events[w.cursor].reason, v);
    }
  }

  /** No request of the session ended in a checksum mismatch. */
  predicate NoMismatch(w: World, sid: SessionId) {
    forall u :: u in Mismatched(w.pipes) && u in w.srv.uploads ==> w.srv.uploads[u].sid != sid
  }

  /**
   * Unless the user cancels, a session is given up with a result still to come
   * only after a mismatch of that file, or because another request is accepted
   * after the server dropped the session.
   */
  lemma {:induction false} EarlyDropCauses(hash: Bytes -> string, run: seq<WorldStep>, step: WorldStep, v: nat)
    requires !step.CancelReceive?
    requires DroppedEarly(RunWorld(hash, run), ApplyWorld(hash, RunWorld(hash, run), step), v)
    ensures var w := RunWorld(hash, run);
      && ApplyWorld(hash, w, step).srv == w.srv
      && (|| FileMismatched(w.srv.uploads, Mismatched(w.pipes), w.srv.uploads[v].sid, w.srv.uploads[v].fid)
          || (AcceptsOther(w, step) && !w.srv.slot.IsActive(w.receive.value.sid)))
  {
    ReachableRetries(hash, run);
    ReachableWorld(hash, run);
    hide RunWorld, RetryInv, WorldInv, ApplyWorld, FileMismatched, Mismatched, AcceptedBy;
    var w := RunWorld(hash, run);
    if step.DeliverResult? || ConsumesEnd(w, step) {
      DropStep(hash, w, step, v);
    } else {
      OnlyTheseDrop(hash, w, step);
      AcceptingLeavesRest(hash, w, step);
      DecidingHoldsSlot(hash, w, step);
    }
  }

  /** Accepting another request gives the session up with everything that is still to come. */
  lemma {:induction false} AcceptingOtherDropsEarly(hash: Bytes -> string, run: seq<WorldStep>, step: WorldStep, v: nat)
    requires var w := RunWorld(hash, run); AcceptsOther(w, step) && StillToCome(w, w.receive.value.sid, v)
    ensures DroppedEarly(RunWorld(hash, run), ApplyWorld(hash, RunWorld(hash, run), step), v)
  {
    hide RunWorld, ApplyWorld;
    var w := RunWorld(hash, run);
    AcceptingLeavesRest(hash, w, step);
    hide StillToCome, Undelivered;
    AcceptingIsNoEnd(w, step);
    hide AcceptedBy;
    OnlyTheseDrop(hash, w, step);
    SameToCome(w, ApplyWorld(hash, w, step), w.receive.value.sid, v);
  }

  lemma AcceptingIsNoEnd(w: World, step: WorldStep)
    requires AcceptedBy(w, step).Some?
    ensures !step.CancelReceive? && !step.DeliverResult? && !ConsumesEnd(w, step)
  {
  }

  lemma SameToCome(w: World, after: World, sid: SessionId, v: nat)
    requires after.srv == w.srv && after.pipes == w.pipes && after.results == w.results
    ensures StillToCome(after, sid, v) <==> StillToCome(w, sid, v)
  {
  }

  lemma {:induction false} NoMismatchNoStaleResult(hash: Bytes -> string, run: seq<WorldStep>, u: nat, ok: bool)
    requires var w := RunWorld(hash, run); w.receive.Some? && NoMismatch(w, w.receive.value.sid)
    ensures var w := RunWorld(hash, run);
      !LosesOther(w.receive, ApplyWorld(hash, w, DeliverResult(u, ok)).receive, u)
  {
    hide RunWorld, Mismatched, OnResult;
    if (u, ok) in RunWorld(hash, run).results {
      StaleResultIff(hash, run, u, ok);
      hide LosesOther, ApplyWorld;
    }
  }

  /**
   * Without a checksum mismatch a session is given up with a result still to
   * come exactly by accepting another request, unless the user cancels.
   */
  lemma {:induction false} NoMismatchDropIff(hash: Bytes -> string, run: seq<WorldStep>, step: WorldStep, v: nat)
    requires var w := RunWorld(hash, run); w.receive.Some? && NoMismatch(w, w.receive.value.sid)
    requires !step.CancelReceive?
    ensures var w := RunWorld(hash, run);
      DroppedEarly(w, ApplyWorld(hash, w, step), v) <==>
      AcceptsOther(w, step) && StillToCome(w, w.receive.value.sid, v)
  {
    hide RunWorld, ApplyWorld, Mismatched, Undelivered, AcceptedBy;
    var w := RunWorld(hash, run);
    if AcceptsOther(w, step) && StillToCome(w, w.receive.value.sid, v) {
      AcceptingOtherDropsEarly(hash, run, step, v);
    }
    if DroppedEarly(w, ApplyWorld(hash, w, step), v) {
      EarlyDropCauses(hash, run, step, v);
      if AcceptsOther(w, step) {
        AcceptingLeavesRest(hash, w, step);
        SameToCome(w, ApplyWorld(hash, w, step), w.receive.value.sid, v);
      }
    }
  }

  /** Without a checksum mismatch no entry is lost to a stale result, and only another request ends it early. */
  lemma {:induction false} NoMismatchNoLoss(hash: Bytes -> string, run: seq<WorldStep>, step: WorldStep)
    requires var w := RunWorld(hash, run); w.receive.Some? && NoMismatch(w, w.receive.value.sid)
    ensures var w, after := RunWorld(hash, run), ApplyWorld(hash, RunWorld(hash, run), step);
      && (step.DeliverResult? ==> !LosesOther(w.receive, after.receive, step.u))
      && (!step.CancelReceive? && !AcceptsOther(w, step) ==> forall v :: !DroppedEarly(w, after, v))
  {
    hide RunWorld, ApplyWorld, NoMismatch, LosesOther, DroppedEarly, AcceptsOther, StillToCome;
    var w := RunWorld(hash, run);
    if step.DeliverResult? {
      NoMismatchNoStaleResult(hash, run, step.u, step.ok);
    }
    if !step.CancelReceive? && !AcceptsOther(w, step) {
      forall v ensures !DroppedEarly(w, ApplyWorld(hash, w, step), v) {
        NoMismatchDropIff(hash, run, step, v);
      }
    }
  }
}
