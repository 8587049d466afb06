/**
 * Runs of the receive session, for any hash function: it is given up early by
 * the late failure of a first attempt and by accepting another request, and it
 * stays forever when its request is dropped after it was accepted, or when the
 * report of its end is lost.
 */
module ReceiveRuns {
  import opened Wrappers
  import opened Text
  import opened Session
  import opened UploadProtocol
  import opened SavePipeline
  import opened ReceiveTracker
  import opened ReceiveComposition
  import opened ReceiveRetries
  import opened UploadEnding
  import opened ReceiveEnding

  const SESSION: SessionId := "session"
  const OTHER: SessionId := "other"
  const SENDER: PeerIp := "sender"
  const FILE: FileId := "file"
  const TOKEN: Token := "token"

  /** An empty file with a checksum it does not have. */
  function Promised(hash: Bytes -> string): FileDto {
    FileDto(0, Some(hash([]) + "x"))
  }

  function Offered(hash: Bytes -> string): map<FileId, FileDto> {
    map[FILE := Promised(hash)]
  }

  /** The session of the one file, with the file in the given state. */
  function OneFile(hash: Bytes -> string, status: FileStatus, attempts: nat): Slot {
    ActiveSession(UploadSession(SESSION, SENDER, map[FILE := SessionFile(Promised(hash), TOKEN, status, attempts)]))
  }

  predicate Tracking(receive: Option<Receive>) {
    receive.Some? && receive.value.sid == SESSION && receive.value.ended.None?
  }

  /** The sender may send the file with request `u`, and everything sent so far was consumed. */
  predicate Ready(hash: Bytes -> string, w: World, u: nat, attempts: nat) {
    && w.srv.slot == OneFile(hash, Pending, attempts)
    && u !in w.srv.uploads && u !in w.pipes && OTHER !in w.srv.prepares
    && w.cursor == |w.srv.events|
    && Tracking(w.receive) && w.receive.value.inProgress.Keys <= {FILE}
  }

  /** The application shows request `u` and waits for its body. */
  predicate Showing(hash: Bytes -> string, w: World, u: nat, attempts: nat) {
    && w.srv.slot == OneFile(hash, InProgress, attempts)
    && u in w.srv.uploads && w.srv.uploads[u] == UploadHandler(SESSION, FILE, Promised(hash), Receiving)
    && w.cursor == |w.srv.events| && w.cursor > 0 && w.srv.events[w.cursor - 1] == FileUpload(SESSION, FILE, u)
    && Tracking(w.receive) && w.receive.value.inProgress == map[FILE := u]
    && u in w.pipes && w.pipes[u] == NewPipe(0, Promised(hash).sha256, [])
    && OTHER !in w.srv.prepares
  }

  /** Only request `u` moved. */
  predicate Elsewhere(w: World, v: World, u: nat) {
    && v.results == w.results && v.srv.cancels == w.srv.cancels
    && v.srv.uploads.Keys == w.srv.uploads.Keys + {u} && v.pipes.Keys == w.pipes.Keys + {u}
    && forall other :: other != u && other in w.srv.uploads ==> v.srv.uploads[other] == w.srv.uploads[other]
  }

  function WithClaim(hash: Bytes -> string, s: State, u: nat, attempts: nat): State {
    s.(slot := OneFile(hash, InProgress, attempts + 1),
       uploads := s.uploads[u := UploadHandler(SESSION, FILE, Promised(hash), Claimed)],
       owner := s.owner[(SESSION, FILE) := u])
  }

  lemma {:induction false} ClaimFile(hash: Bytes -> string, s: State, u: nat, attempts: nat)
    requires s.slot == OneFile(hash, Pending, attempts) && u !in s.uploads && attempts < 255
    ensures Apply(s, Upload(u, ClaimUpload(SESSION, FILE, TOKEN, SENDER))) == WithClaim(hash, s, u, attempts)
  {
    var file := SessionFile(Promised(hash), TOKEN, InProgress, attempts + 1);
    assert s.slot.session.files[FILE := file] == map[FILE := file];
  }

  lemma {:induction false} AnnounceFile(s: State, u: nat)
    requires UploadAt(s, u, Claimed)
    ensures Apply(s, Upload(u, AnnounceUpload)) == s.(
      uploads := s.uploads[u := s.uploads[u].(pc := Receiving)],
      events := s.events + [FileUpload(s.uploads[u].sid, s.uploads[u].fid, u)])
  {
  }

  lemma {:induction false} ConsumeUpload(hash: Bytes -> string, w: World, u: nat)
    requires w.cursor + 1 == |w.srv.events| && w.srv.events[w.cursor] == FileUpload(SESSION, FILE, u)
    requires Tracking(w.receive) && w.receive.value.inProgress.Keys <= {FILE} && u !in w.pipes
    requires u in w.srv.uploads && w.srv.uploads[u] == UploadHandler(SESSION, FILE, Promised(hash), Receiving)
    ensures var v := ApplyWorld(hash, w, Consume(AskUser, [], true));
      && v == w.(cursor := w.cursor + 1, receive := v.receive, progress := v.progress,
                 pipes := w.pipes[u := NewPipe(0, Promised(hash).sha256, [])])
      && Tracking(v.receive) && v.receive.value.inProgress == map[FILE := u]
  {
    assert w.receive.value.inProgress[FILE := u] == map[FILE := u];
  }

  lemma {:induction false} ShowAttempt(hash: Bytes -> string, run: seq<WorldStep>, u: nat, attempts: nat)
    returns (next: seq<WorldStep>)
    requires Ready(hash, RunWorld(hash, run), u, attempts) && attempts < 255
    ensures Showing(hash, RunWorld(hash, next), u, attempts + 1)
    ensures Elsewhere(RunWorld(hash, run), RunWorld(hash, next), u)
  {
    hide RunWorld, Apply, DoConsume, NewPipe;
    var w := RunWorld(hash, run);
    var claim := Server(Upload(u, ClaimUpload(SESSION, FILE, TOKEN, SENDER)));
    var announce := Server(Upload(u, AnnounceUpload));
    var consume := Consume(AskUser, [], true);
    NextWorld(hash, run, claim);
    ClaimFile(hash, w.srv, u, attempts);
    var claimed := WithClaim(hash, w.srv, u, attempts);
    assert RunWorld(hash, run + [claim]) == w.(srv := claimed);
    NextWorld(hash, run + [claim], announce);
    AnnounceFile(claimed, u);
    var announced := RunWorld(hash, run + [claim] + [announce]);
    assert announced == w.(srv := Apply(claimed, Upload(u, AnnounceUpload)));
    NextWorld(hash, run + [claim] + [announce], consume);
    ConsumeUpload(hash, announced, u);
    hide ApplyWorld;
    next := run + [claim] + [announce] + [consume];
  }

  // The first attempt

  function Written(hash: Bytes -> string): Pipe {
    NewPipe(0, Promised(hash).sha256, []).(forwarder := Awaiting(false), writer := Stopped(true))
  }

  lemma {:induction false} PipeMismatches(hash: Bytes -> string)
    ensures var begun := ApplyPipe(hash, NewPipe(0, Promised(hash).sha256, []), ReadFrame);
      ApplyPipe(hash, ApplyPipe(hash, begun, OpenFile(true)), EndOfStream(true)) == Written(hash)
    ensures DoCollect(hash, Written(hash)).forwarder == Answered(HashMismatch)
  {
  }

  lemma {:induction false} MovePipe(hash: Bytes -> string, run: seq<WorldStep>, u: nat, step: PipeStep)
    requires u in RunWorld(hash, run).pipes && !step.Collect? && !step.DropRequest?
    ensures var w := RunWorld(hash, run);
      RunWorld(hash, run + [Pipeline(u, step)]) == w.(pipes := w.pipes[u := ApplyPipe(hash, w.pipes[u], step)])
  {
    hide RunWorld;
    NextWorld(hash, run, Pipeline(u, step));
  }

  lemma {:induction false} WriteAttempt(hash: Bytes -> string, run: seq<WorldStep>,
                                        u: nat) returns (next: seq<WorldStep>)
    requires u in RunWorld(hash, run).pipes && RunWorld(hash, run).pipes[u] == NewPipe(0, Promised(hash).sha256, [])
    ensures var w, v := RunWorld(hash, run), RunWorld(hash, next);
      && v == w.(pipes := v.pipes) && v.pipes.Keys == w.pipes.Keys
      && v.pipes[u] == Written(hash)
  {
    hide RunWorld, ApplyPipe, Written, NewPipe;
    PipeMismatches(hash);
    MovePipe(hash, run, u, ReadFrame);
    MovePipe(hash, run + [Pipeline(u, ReadFrame)], u, OpenFile(true));
    MovePipe(hash, run + [Pipeline(u, ReadFrame)] + [Pipeline(u, OpenFile(true))], u, EndOfStream(true));
    next := run + [Pipeline(u, ReadFrame)] + [Pipeline(u, OpenFile(true))] + [Pipeline(u, EndOfStream(true))];
  }

  lemma {:induction false} CompleteAttempt(hash: Bytes -> string, w: World, u: nat)
    requires u in w.pipes && w.pipes[u] == Written(hash) && UploadAt(w.srv, u, Receiving)
    ensures var v := ApplyWorld(hash, w, Complete(u));
      && v.srv == Apply(w.srv, Upload(u, FinishUpload(HashMismatch)))
      && v == w.(srv := v.srv, pipes := v.pipes, results := w.results + {(u, false)})
      && v.pipes.Keys == w.pipes.Keys
  {
    PipeMismatches(hash);
    hide Apply, DoCollect, ApplyPipe;
  }

  lemma {:induction false} FinishFile(s: State, u: nat)
    requires UploadAt(s, u, Receiving)
    ensures Apply(s, Upload(u, FinishUpload(HashMismatch))) == s.(
      uploads := s.uploads[u := s.uploads[u].(pc := Finishing(HashMismatch))])
  {
  }

  lemma {:induction false} FinalizeFile(hash: Bytes -> string, s: State, u: nat, attempts: nat)
    requires u in s.uploads && s.uploads[u].sid == SESSION && s.uploads[u].fid == FILE
    requires s.uploads[u].pc == Finishing(HashMismatch)
    requires s.slot == OneFile(hash, InProgress, attempts) && attempts < MAX_UPLOAD_ATTEMPTS
    ensures var t := Apply(s, Upload(u, Finalize));
      && t.slot == OneFile(hash, Pending, attempts)
      && t.events == s.events && t.cancels == s.cancels && t.uploads.Keys == s.uploads.Keys && t.prepares == s.prepares
      && t.uploads[u].sid == SESSION && t.uploads[u].fid == FILE
  {
    var file := SessionFile(Promised(hash), TOKEN, Pending, attempts);
    assert s.slot.session.files[FILE := file] == map[FILE := file];
    assert FILE in map[FILE := file];
  }

  lemma {:induction false} MismatchAttempt(hash: Bytes -> string, run: seq<WorldStep>, u: nat, attempts: nat)
    returns (next: seq<WorldStep>)
    requires Showing(hash, RunWorld(hash, run), u, attempts) && attempts < MAX_UPLOAD_ATTEMPTS
    ensures var w, v := RunWorld(hash, run), RunWorld(hash, next);
      && v.srv.slot == OneFile(hash, Pending, attempts)
      && v.cursor == |v.srv.events| && v.srv.cancels == w.srv.cancels && v.srv.prepares == w.srv.prepares
      && v.srv.uploads.Keys == w.srv.uploads.Keys && v.pipes.Keys == w.pipes.Keys
      && v.srv.uploads[u].sid == SESSION && v.srv.uploads[u].fid == FILE
      && v.receive == w.receive && v.results == w.results + {(u, false)}
  {
    hide RunWorld, Apply, ApplyPipe, Written, NewPipe, OneFile;
    var w := RunWorld(hash, run);
    var written := WriteAttempt(hash, run, u);
    NextWorld(hash, written, Complete(u));
    CompleteAttempt(hash, RunWorld(hash, written), u);
    FinishFile(w.srv, u);
    var completed := written + [Complete(u)];
    var finalize := Server(Upload(u, Finalize));
    NextWorld(hash, completed, finalize);
    FinalizeFile(hash, RunWorld(hash, completed).srv, u, attempts);
    next := completed + [finalize];
  }

  // The session is accepted

  lemma {:induction false} ClaimAndAnnounce(offered: map<FileId, FileDto>)
    requires offered != map[]
    ensures var claimed := Apply(INITIAL, Prepare(SESSION, ClaimSlot(SENDER, offered)));
      && claimed == DoClaimSlot(INITIAL, SESSION, SENDER, offered)
      && Apply(claimed, Prepare(SESSION, AnnouncePrepare)) == INITIAL.(
           slot := PendingSession(SESSION, SENDER),
           prepares := map[SESSION := PrepareHandler(SENDER, offered, Deciding)],
           events := [PrepareUpload(SESSION, offered)])
  {
  }

  lemma {:induction false} EmptyRun(hash: Bytes -> string)
    ensures RunWorld(hash, []) == START
  {
  }

  lemma {:induction false} Announce(hash: Bytes -> string)
    ensures var run := [] + [Server(Prepare(SESSION, ClaimSlot(SENDER, Offered(hash))))]
                       + [Server(Prepare(SESSION, AnnouncePrepare))];
      RunWorld(hash, run) == START.(srv := INITIAL.(
        slot := PendingSession(SESSION, SENDER),
        prepares := map[SESSION := PrepareHandler(SENDER, Offered(hash), Deciding)],
        events := [PrepareUpload(SESSION, Offered(hash))]))
  {
    hide RunWorld, Apply;
    var claim := Server(Prepare(SESSION, ClaimSlot(SENDER, Offered(hash))));
    var announce := Server(Prepare(SESSION, AnnouncePrepare));
    assert FILE in Offered(hash);
    ClaimAndAnnounce(Offered(hash));
    EmptyRun(hash);
    NextWorld(hash, [], claim);
    NextWorld(hash, [] + [claim], announce);
  }

  lemma {:induction false} DecideAndActivate(hash: Bytes -> string, s: State)
    requires PrepareAt(s, SESSION, Deciding) && s.prepares[SESSION] == PrepareHandler(SENDER, Offered(hash), Deciding)
    ensures var t := Apply(s, Prepare(SESSION, Decide(Accept({FILE}), map[FILE := TOKEN])));
      Apply(t, Prepare(SESSION, Activate)).slot == OneFile(hash, Pending, 0)
    ensures var decided := Apply(s, Prepare(SESSION, Decide(Accept({FILE}), map[FILE := TOKEN])));
      var t := Apply(decided, Prepare(SESSION, Activate));
      && t.uploads == s.uploads && t.events == s.events && t.cancels == s.cancels
      && t.prepares.Keys == s.prepares.Keys
  {
    var files := map[FILE := SessionFile(Promised(hash), TOKEN, Pending, 0)];
    assert AcceptedFiles(Offered(hash), {FILE}, map[FILE := TOKEN]) == files;
    assert FILE in files;
  }

  /** The application accepts, and the server has not heard of it yet. */
  lemma {:induction false} AcceptInTime(hash: Bytes -> string) returns (run: seq<WorldStep>)
    ensures var w := RunWorld(hash, run);
      && Tracking(w.receive) && w.receive.value.inProgress == map[]
      && PrepareAt(w.srv, SESSION, Deciding)
      && w.srv.prepares == map[SESSION := PrepareHandler(SENDER, Offered(hash), Deciding)]
      && w.srv.accepted == map[] && w.srv.ends == map[]
      && SESSION in w.decisions && w.decisions[SESSION] == Accept({FILE})
      && w.srv.uploads == map[] && w.pipes == map[] && w.srv.cancels == map[] && w.results == {}
      && w.cursor == |w.srv.events|
  {
    var asked := [] + [Server(Prepare(SESSION, ClaimSlot(SENDER, Offered(hash))))]
                 + [Server(Prepare(SESSION, AnnouncePrepare))];
    Announce(hash);
    hide RunWorld, Apply;
    var consume := Consume(AcceptPaired, [], true);
    NextWorld(hash, asked, consume);
    run := asked + [consume];
    assert Offered(hash).Keys == {FILE};
  }

  lemma {:induction false} AcceptSession(hash: Bytes -> string) returns (run: seq<WorldStep>)
    ensures var w := RunWorld(hash, run);
      && Ready(hash, w, 1, 0)
      && w.srv.uploads == map[] && w.pipes == map[] && w.srv.cancels == map[] && w.results == {}
  {
    hide RunWorld, Apply;
    var accepted := AcceptInTime(hash);
    var w := RunWorld(hash, accepted);
    var decide := Server(Prepare(SESSION, Decide(Accept({FILE}), map[FILE := TOKEN])));
    var activate := Server(Prepare(SESSION, Activate));
    NextWorld(hash, accepted, decide);
    NextWorld(hash, accepted + [decide], activate);
    DecideAndActivate(hash, w.srv);
    run := accepted + [decide] + [activate];
  }

  // The sender cancels

  lemma {:induction false} BeginCancelling(hash: Bytes -> string, s: State, attempts: nat)
    requires s.slot == OneFile(hash, InProgress, attempts) && 0 !in s.cancels
    ensures Apply(s, Cancel(0, BeginCancel(SENDER, Some(SESSION)))) ==
      s.(cancels := s.cancels[0 := CheckingActive(SENDER, SESSION)])
  {
  }

  lemma {:induction false} EndCancelled(hash: Bytes -> string, s: State, attempts: nat)
    requires s.slot == OneFile(hash, InProgress, attempts)
    requires 0 in s.cancels && s.cancels[0] == CheckingActive(SENDER, SESSION)
    ensures Apply(s, Cancel(0, CancelActiveSession)) ==
      s.(slot := NoSession, cancels := s.cancels[0 := Notifying(SESSION)], ends := s.ends[SESSION := ByCancel(0)])
  {
  }

  lemma {:induction false} ReportCancelled(s: State)
    requires 0 in s.cancels && s.cancels[0] == Notifying(SESSION)
    ensures Apply(s, Cancel(0, ReportCancel)) ==
      s.(cancels := s.cancels[0 := Notified], events := s.events + [SessionEnd(SESSION, CancelledBySender)])
  {
  }

  lemma {:induction false} CancelSession(hash: Bytes -> string, s: State, attempts: nat)
    requires s.slot == OneFile(hash, InProgress, attempts) && 0 !in s.cancels
    ensures var asked := Apply(s, Cancel(0, BeginCancel(SENDER, Some(SESSION))));
      var ended := Apply(asked, Cancel(0, CancelActiveSession));
      var t := Apply(ended, Cancel(0, ReportCancel));
      && t.uploads == s.uploads && t.events == s.events + [SessionEnd(SESSION, CancelledBySender)]
      && t.slot == NoSession && t.prepares == s.prepares
  {
    hide Apply;
    BeginCancelling(hash, s, attempts);
    var asked := Apply(s, Cancel(0, BeginCancel(SENDER, Some(SESSION))));
    EndCancelled(hash, asked, attempts);
    ReportCancelled(Apply(asked, Cancel(0, CancelActiveSession)));
  }

  lemma {:induction false} CancelShowing(hash: Bytes -> string, run: seq<WorldStep>, u: nat, attempts: nat)
    returns (next: seq<WorldStep>)
    requires Showing(hash, RunWorld(hash, run), u, attempts) && 0 !in RunWorld(hash, run).srv.cancels
    ensures var w, v := RunWorld(hash, run), RunWorld(hash, next);
      && v.srv.uploads == w.srv.uploads && v.pipes == w.pipes && v.results == w.results
      && v.srv.slot == NoSession && v.srv.prepares == w.srv.prepares
      && v.srv.events == w.srv.events + [SessionEnd(SESSION, CancelledBySender)] && v.cursor == |v.srv.events|
      && v.receive.Some? && v.receive.value.sid == SESSION && v.receive.value.ended.Some?
      && v.receive.value.inProgress == map[FILE := u]
  {
    hide RunWorld, Apply, NewPipe, OneFile;
    var begin := Server(Cancel(0, BeginCancel(SENDER, Some(SESSION))));
    var end := Server(Cancel(0, CancelActiveSession));
    var report := Server(Cancel(0, ReportCancel));
    var consume := Consume(AskUser, [], true);
    NextWorld(hash, run, begin);
    NextWorld(hash, run + [begin], end);
    NextWorld(hash, run + [begin] + [end], report);
    NextWorld(hash, run + [begin] + [end] + [report], consume);
    CancelSession(hash, RunWorld(hash, run).srv, attempts);
    assert FILE in map[FILE := u];
    next := run + [begin] + [end] + [report] + [consume];
  }

  // All together

  lemma {:induction false} LastIsShown(events: seq<Event>, u: nat)
    requires events != [] && events[|events| - 1] == FileUpload(SESSION, FILE, u)
    ensures LastShown(events + [SessionEnd(SESSION, CancelledBySender)], SESSION, FILE) == Some(u)
  {
    LastShownNext(events, SessionEnd(SESSION, CancelledBySender), SESSION, FILE);
  }

  /** The failure of the first attempt is on its way. */
  predicate FirstFailed(w: World) {
    && (1, false) in w.results
    && 1 in w.srv.uploads && w.srv.uploads[1].sid == SESSION && w.srv.uploads[1].fid == FILE
  }

  lemma {:induction false} FailFirst(hash: Bytes -> string) returns (run: seq<WorldStep>)
    ensures var w := RunWorld(hash, run);
      FirstFailed(w) && Ready(hash, w, 2, 1) && 0 !in w.srv.cancels
  {
    hide RunWorld, OneFile;
    var accepted := AcceptSession(hash);
    var first := ShowAttempt(hash, accepted, 1, 0);
    run := MismatchAttempt(hash, first, 1, 1);
  }

  lemma {:induction false} ShowRetry(hash: Bytes -> string) returns (run: seq<WorldStep>)
    ensures var w := RunWorld(hash, run);
      FirstFailed(w) && Showing(hash, w, 2, 2) && 0 !in w.srv.cancels
  {
    hide RunWorld, Showing;
    var failed := FailFirst(hash);
    run := ShowAttempt(hash, failed, 2, 1);
  }

  /** The session has ended, and its one entry is the retry. */
  predicate EndedWithRetry(w: World) {
    && w.receive.Some? && w.receive.value.sid == SESSION && w.receive.value.ended.Some?
    && w.receive.value.inProgress == map[FILE := 2]
    && UploadAt(w.srv, 2, Receiving) && w.srv.uploads[2].sid == SESSION
    && 2 in w.pipes && w.pipes[2].answer.None?
  }

  lemma {:induction false} RetryWithStaleResult(hash: Bytes -> string) returns (run: seq<WorldStep>)
    ensures var w := RunWorld(hash, run);
      FirstFailed(w) && EndedWithRetry(w) && RetryIsShown(w, 1)
  {
    hide RunWorld, OneFile, LastShown;
    var retried := ShowRetry(hash);
    run := CancelShowing(hash, retried, 2, 2);
    var w := RunWorld(hash, run);
    LastIsShown(RunWorld(hash, retried).srv.events, 2);
    assert Consumed(w) == w.srv.events;
    assert FILE in map[FILE := 2];
  }

  /** Delivering that failure gives the session up while the retry is still being received. */
  lemma {:induction false} StaleFailureEndsSession(hash: Bytes -> string) returns (run: seq<WorldStep>)
    ensures var w := RunWorld(hash, run);
      var after := ApplyWorld(hash, w, DeliverResult(1, false));
      && (1, false) in w.results
      && LosesOther(w.receive, after.receive, 1)
      && DroppedEarly(w, after, 2)
      && UploadAt(after.srv, 2, Receiving)
  {
    run := RetryWithStaleResult(hash);
    StaleResultIff(hash, run, 1, false);
    hide RunWorld, LosesOther;
    var r := RunWorld(hash, run).receive.value;
    assert r.inProgress - {FILE} == map[];
  }

  // Another request

  lemma {:induction false} OtherAnnounced(s: State, offered: map<FileId, FileDto>)
    requires s.slot == NoSession && OTHER !in s.prepares && offered != map[]
    ensures var t := Apply(Apply(s, Prepare(OTHER, ClaimSlot(SENDER, offered))), Prepare(OTHER, AnnouncePrepare));
      && t.uploads == s.uploads && t.events == s.events + [PrepareUpload(OTHER, offered)]
      && PrepareAt(t, OTHER, Deciding)
  {
  }

  /** The tracked session waits for the result of request `u`, and another request waits for its decision. */
  predicate Overtaken(w: World, u: nat) {
    && Tracks(w.receive, SESSION) && w.receive.value.inProgress == map[FILE := u]
    && UploadAt(w.srv, u, Receiving) && w.srv.uploads[u].sid == SESSION
    && u in w.pipes && w.pipes[u].answer.None?
    && w.cursor < |w.srv.events| && w.srv.events[w.cursor].PrepareUpload? && w.srv.events[w.cursor].sid == OTHER
    && PrepareAt(w.srv, OTHER, Deciding)
  }

  lemma {:induction false} Overtake(hash: Bytes -> string, run: seq<WorldStep>, u: nat) returns (next: seq<WorldStep>)
    requires var w := RunWorld(hash, run);
      && w.srv.slot == NoSession && OTHER !in w.srv.prepares && w.cursor == |w.srv.events|
      && Tracks(w.receive, SESSION) && w.receive.value.inProgress == map[FILE := u]
      && UploadAt(w.srv, u, Receiving) && w.srv.uploads[u].sid == SESSION
      && u in w.pipes && w.pipes[u].answer.None?
    ensures Overtaken(RunWorld(hash, next), u)
    ensures RunWorld(hash, next).pipes == RunWorld(hash, run).pipes
  {
    hide RunWorld, Apply;
    var claim := Server(Prepare(OTHER, ClaimSlot(SENDER, Offered(hash))));
    var announce := Server(Prepare(OTHER, AnnouncePrepare));
    NextWorld(hash, run, claim);
    NextWorld(hash, run + [claim], announce);
    assert FILE in Offered(hash);
    OtherAnnounced(RunWorld(hash, run).srv, Offered(hash));
    next := run + [claim] + [announce];
  }

  lemma {:induction false} ShowFirst(hash: Bytes -> string) returns (run: seq<WorldStep>)
    ensures var w := RunWorld(hash, run);
      Showing(hash, w, 1, 1) && 0 !in w.srv.cancels && w.pipes.Keys == {1}
  {
    hide RunWorld, OneFile;
    var accepted := AcceptSession(hash);
    run := ShowAttempt(hash, accepted, 1, 0);
  }

  /**
   * Accepting another request gives the session up while its upload is still
   * being received, without any checksum mismatch.
   */
  lemma {:induction false} OtherRequestEndsSession(hash: Bytes -> string) returns (run: seq<WorldStep>)
    ensures var w := RunWorld(hash, run);
      var step := Consume(AcceptPaired, [], true);
      var after := ApplyWorld(hash, w, step);
      && Tracks(w.receive, SESSION) && NoMismatch(w, SESSION)
      && AcceptsOther(w, step)
      && DroppedEarly(w, after, 1)
      && UploadAt(after.srv, 1, Receiving)
  {
    hide RunWorld;
    var first := ShowFirst(hash);
    var cancelled := CancelShowing(hash, first, 1, 1);
    run := Overtake(hash, cancelled, 1);
    var w := RunWorld(hash, run);
    assert Mismatched(w.pipes) == {};
    AcceptingOtherDropsEarly(hash, run, Consume(AcceptPaired, [], true), 1);
  }

  // An abandoned session

  lemma {:induction false} DropAccepted(s: State)
    requires PrepareAt(s, SESSION, Deciding) && s.accepted == map[] && s.ends == map[]
    ensures !Continues(Apply(s, Prepare(SESSION, DropPrepare)), SESSION)
  {
  }

  /** A request that is dropped after it was accepted leaves a receive session that never ends on its own. */
  lemma {:induction false} AbandonedSessionStays(hash: Bytes -> string) returns (run: seq<WorldStep>)
    ensures Tracks(RunWorld(hash, run).receive, SESSION)
    ensures forall more :: AllOnTheirOwn(more) ==> Tracks(RunWorld(hash, run + more).receive, SESSION)
  {
    var accepted := AcceptInTime(hash);
    var drop := Server(Prepare(SESSION, DropPrepare));
    hide RunWorld, Apply;
    NextWorld(hash, accepted, drop);
    DropAccepted(RunWorld(hash, accepted).srv);
    run := accepted + [drop];
    ReceiveEndsIff(hash, run, SESSION);
  }

  /**
   * A session whose end was not reported, because the cancelling request was
   * dropped while it sent the report, leaves a receive session that never ends
   * on its own.
   */
  lemma {:induction false} UnreportedSessionStays(hash: Bytes -> string) returns (run: seq<WorldStep>)
    ensures var w := RunWorld(hash, run); Tracks(w.receive, SESSION) && w.srv.slot == NoSession
    ensures forall more :: AllOnTheirOwn(more) ==> Tracks(RunWorld(hash, run + more).receive, SESSION)
  {
    var accepted := AcceptSession(hash);
    var begin := Server(Cancel(0, BeginCancel(SENDER, Some(SESSION))));
    var end, drop := Server(Cancel(0, CancelActiveSession)), Server(Cancel(0, DropInNotify));
    hide RunWorld, Apply, Continues;
    NextWorld(hash, accepted, begin);
    NextWorld(hash, accepted + [begin], end);
    NextWorld(hash, accepted + [begin] + [end], drop);
    MuteCancel(RunWorld(hash, accepted).srv, SESSION, SENDER);
    run := accepted + [begin] + [end] + [drop];
    ReceiveEndsIff(hash, run, SESSION);
  }
}
