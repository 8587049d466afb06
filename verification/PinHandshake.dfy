/**
 * The PIN challenge between two WebRTC peers (webrtc.rs). `verify_pin` runs on
 * one side and `handle_pin` on the other, connected by two message queues. A
 * step is one send or one receive of either side; every sequence of steps is a
 * run, a side that has to wait does nothing.
 */
module PinHandshake {
  datatype Reply = PinRequired | TooManyAttempts | Ok

  /**
   * `notice` is set when the sender verifies: it announces the challenge and
   * the receiver reads that announcement first. When the receiver verifies, the
   * token exchange announced the challenge already. The user types `guesses`
   * and then closes the prompt.
   */
  datatype Challenge = Challenge(pin: string, maxTries: nat, notice: bool, guesses: seq<string>)

  datatype VerifierPc =
    | Checking
    | Waiting
    | Accepted
    | Refused
    | Abandoned   // the channel closed while waiting for a PIN

  datatype ProverPc =
    | Starting      // waiting for the first status of the verifying sender
    | Asking
    | Answering
    | Proceeding
    | Rejected
    | Unexpected    // told TooManyAttempts before sending anything
    | GaveUp        // the user closed the prompt
    | Disconnected  // the channel closed while waiting for a reply

  datatype State = State(
    verifier: VerifierPc,
    notice: bool,
    remotePin: string,
    tries: nat,
    prover: ProverPc,
    sent: nat,
    toVerifier: seq<string>,
    toProver: seq<Reply>)

  function Initial(c: Challenge): State {
    State(Checking, c.notice, "", 0, if c.notice then Starting else Asking, 0, [], [])
  }

  /** One turn of the loop in verify_pin, up to its next receive. */
  function Check(c: Challenge, s: State): State {
    if s.remotePin == c.pin then s.(verifier := Accepted, toProver := s.toProver + [Ok])
    else if s.tries >= c.maxTries then s.(verifier := Refused, toProver := s.toProver + [TooManyAttempts])
    else if s.notice || s.tries > 0 then
      s.(verifier := Waiting, notice := false, toProver := s.toProver + [PinRequired])
    else s.(verifier := Waiting)
  }

  function VerifierStep(c: Challenge, s: State): State {
    match s.verifier
    case Checking => Check(c, s)
    case Waiting =>
      if s.toVerifier != [] then
        s.(verifier := Checking, remotePin := s.toVerifier[0], tries := s.tries + 1, toVerifier := s.toVerifier[1..])
      else if s.prover.GaveUp? then s.(verifier := Abandoned)
      else s
    case _ => s
  }

  function ProverStep(c: Challenge, s: State): State {
    match s.prover
    case Starting =>
      if s.toProver == [] then s
      else s.(prover := match s.toProver[0]
                        case Ok => Proceeding
                        case PinRequired => Asking
                        case TooManyAttempts => Unexpected,
              toProver := s.toProver[1..])
    case Asking =>
      if s.sent < |c.guesses| then
        s.(prover := Answering, sent := s.sent + 1, toVerifier := s.toVerifier + [c.guesses[s.sent]])
      else s.(prover := GaveUp)
    case Answering =>
      if s.toProver == [] then s
      else s.(prover := match s.toProver[0]
                        case Ok => Proceeding
                        case PinRequired => Asking
                        case TooManyAttempts => Rejected,
              toProver := s.toProver[1..])
    case _ => s
  }

  datatype Side = Verifier | Prover

  function Apply(c: Challenge, s: State, side: Side): State {
    match side
    case Verifier => VerifierStep(c, s)
    case Prover => ProverStep(c, s)
  }

  function Run(c: Challenge, schedule: seq<Side>): State
    decreases |schedule|
  {
    if schedule == [] then Initial(c) else Apply(c, Run(c, schedule[..|schedule| - 1]), schedule[|schedule| - 1])
  }

  predicate Finished(s: State) {
    && (s.verifier.Accepted? || s.verifier.Refused? || s.verifier.Abandoned?)
    && !s.prover.Starting? && !s.prover.Asking? && !s.prover.Answering?
  }

  // What should happen

  /** The position of the first right guess, or the number of guesses. */
  function FirstMatch(pin: string, guesses: seq<string>): (m: nat)
    ensures m <= |guesses|
    ensures m < |guesses| ==> guesses[m] == pin
    ensures forall i :: 0 <= i < m ==> guesses[i] != pin
  {
    if guesses == [] then 0
    else if guesses[0] == pin then 0
    else 1 + FirstMatch(pin, guesses[1..])
  }

  /** One of the guesses the verifier reads is right. */
  predicate Guessed(c: Challenge) {
    exists i :: 0 <= i < c.maxTries && i < |c.guesses| && c.guesses[i] == c.pin
  }

  /** The verifier compares before it reads anything, so the empty PIN needs no guess. */
  predicate Passes(c: Challenge) {
    c.pin == "" || Guessed(c)
  }

  /** Nobody reads the first guess although it was sent. */
  predicate GuessIgnored(c: Challenge) {
    !c.notice && (c.pin == "" || c.maxTries == 0)
  }

  /** Nobody waits for the prover, whose user closes the prompt before it reads the decision. */
  predicate LeftAlone(c: Challenge) {
    GuessIgnored(c) && c.guesses == []
  }

  // Invariant

  predicate MissedBefore(c: Challenge, n: nat) {
    n <= |c.guesses| && forall i :: 0 <= i < n ==> c.guesses[i] != c.pin
  }

  /** The prover waits for a reply: for the first status before any guess, for a verdict after one. */
  predicate Expecting(c: Challenge, s: State) {
    if s.sent == 0 then c.notice && s.prover.Starting? else s.prover.Answering?
  }

  function LastRead(c: Challenge, n: nat): string
    requires n <= |c.guesses|
  {
    if n == 0 then "" else c.guesses[n - 1]
  }

  /** All guesses sent were read; the verifier is about to judge the last one. */
  predicate Judging(c: Challenge, s: State) {
    && s.verifier.Checking? && Expecting(c, s) && s.toVerifier == [] && s.toProver == []
    && s.tries == s.sent && s.tries <= c.maxTries && s.sent <= |c.guesses|
    && MissedBefore(c, if s.sent == 0 then 0 else s.sent - 1)
    && s.remotePin == LastRead(c, s.sent) && (s.sent > 0 ==> c.pin != "")
    && s.notice == (c.notice && s.sent == 0)
  }

  /** The verifier waits for the next guess: the prover was told, or is about to send, or has sent it. */
  predicate Prompting(c: Challenge, s: State) {
    && s.verifier.Waiting? && !s.notice && s.tries < c.maxTries && MissedBefore(c, s.tries) && c.pin != ""
    && ( (s.tries == s.sent && s.toVerifier == [] && s.toProver == [PinRequired] && Expecting(c, s))
      || (s.tries == s.sent && s.toVerifier == [] && s.toProver == [] && s.prover.Asking?)
      || (s.tries == s.sent == |c.guesses| && s.toVerifier == [] && s.toProver == [] && s.prover.GaveUp?)
      || (s.tries + 1 == s.sent <= |c.guesses| && s.toVerifier == [c.guesses[s.tries]] && s.toProver == []
          && s.prover.Answering?))
  }

  predicate Settling(c: Challenge, s: State) {
    && s.toVerifier == [] && s.tries == s.sent && s.tries <= c.maxTries && s.sent <= |c.guesses|
    && match s.verifier
       case Accepted =>
         && MissedBefore(c, if s.sent == 0 then 0 else s.sent - 1)
         && LastRead(c, s.sent) == c.pin && (s.sent > 0 ==> c.pin != "")
         && ((s.toProver == [Ok] && Expecting(c, s)) || (s.toProver == [] && s.prover.Proceeding?))
       case Refused =>
         && MissedBefore(c, s.sent) && s.tries == c.maxTries && c.pin != ""
         && ( (s.toProver == [TooManyAttempts] && Expecting(c, s))
           || (s.toProver == [] && s.prover == if s.sent == 0 then Unexpected else Rejected))
       case Abandoned =>
         && MissedBefore(c, s.sent) && s.sent == |c.guesses| && s.tries < c.maxTries && c.pin != ""
         && s.toProver == [] && s.prover.GaveUp?
       case _ => false
  }

  /** The receiver verifies and both sides start at the same time. */
  predicate Opening(c: Challenge, s: State) {
    && !c.notice && !s.notice && s.verifier.Checking? && s.remotePin == "" && s.tries == 0 && s.toProver == []
    && ProverAhead(c, s)
  }

  /** The prover's first turn, taken without waiting for anything. */
  predicate ProverAhead(c: Challenge, s: State) {
    || (s.prover.Asking? && s.sent == 0 && s.toVerifier == [])
    || (s.prover.Answering? && s.sent == 1 <= |c.guesses| && s.toVerifier == [c.guesses[0]])
    || (s.prover.GaveUp? && s.sent == 0 == |c.guesses| && s.toVerifier == [])
  }

  /** What the verifier decides when it does not read a guess at all. */
  predicate Ignoring(c: Challenge, s: State) {
    && GuessIgnored(c) && s.tries == 0
    && s.verifier == (if c.pin == "" then Accepted else Refused)
    && ( (ProverAhead(c, s) && s.toProver == [if c.pin == "" then Ok else TooManyAttempts])
      || (s.toProver == [] && s.sent == 1 <= |c.guesses| && s.toVerifier == [c.guesses[0]]
          && s.prover == if c.pin == "" then Proceeding else Rejected))
  }

  predicate Inv(c: Challenge, s: State) {
    Opening(c, s) || Ignoring(c, s) || (!GuessIgnored(c) && (Judging(c, s) || Prompting(c, s) || Settling(c, s)))
  }

  lemma CheckKeeps(c: Challenge, s: State)
    requires Inv(c, s) && s.verifier.Checking?
    ensures Inv(c, Check(c, s))
  {
    if Judging(c, s) && s.sent > 0 && s.remotePin != c.pin {
      assert MissedBefore(c, s.sent);
    }
  }

  lemma ReadKeeps(c: Challenge, s: State)
    requires Inv(c, s) && s.verifier.Waiting?
    ensures Inv(c, VerifierStep(c, s))
  {
    assert Prompting(c, s);
  }

  lemma ProverKeepsPrompting(c: Challenge, s: State)
    requires Prompting(c, s)
    ensures Prompting(c, ProverStep(c, s))
  {
  }

  lemma ProverKeepsSettling(c: Challenge, s: State)
    requires Settling(c, s)
    ensures Settling(c, ProverStep(c, s))
  {
    hide MissedBefore;
  }

  lemma ProverKeepsEarly(c: Challenge, s: State)
    requires Opening(c, s) || Ignoring(c, s)
    ensures Opening(c, ProverStep(c, s)) || Ignoring(c, ProverStep(c, s))
  {
  }

  lemma ProverKeeps(c: Challenge, s: State)
    requires Inv(c, s)
    ensures Inv(c, ProverStep(c, s))
  {
    hide Opening, Ignoring, Prompting, Settling;
    if Opening(c, s) || Ignoring(c, s) {
      ProverKeepsEarly(c, s);
    } else if Prompting(c, s) {
      ProverKeepsPrompting(c, s);
    } else if Settling(c, s) {
      ProverKeepsSettling(c, s);
    } else {
      assert ProverStep(c, s) == s;
    }
  }

  lemma {:induction false} ReachableInv(c: Challenge, schedule: seq<Side>)
    ensures Inv(c, Run(c, schedule))
    decreases |schedule|
  {
    if schedule != [] {
      var s := Run(c, schedule[..|schedule| - 1]);
      ReachableInv(c, schedule[..|schedule| - 1]);
      hide Inv, Apply;
      StepKeeps(c, s, schedule[|schedule| - 1]);
    } else if c.notice {
      assert Judging(c, Initial(c));
    }
  }

  lemma StepKeeps(c: Challenge, s: State, side: Side)
    requires Inv(c, s)
    ensures Inv(c, Apply(c, s, side))
  {
    hide Inv, Check;
    if side.Prover? {
      ProverKeeps(c, s);
    } else if s.verifier.Checking? {
      CheckKeeps(c, s);
    } else if s.verifier.Waiting? {
      ReadKeeps(c, s);
    }
  }

  // Theorems

  /**
   * Whatever the interleaving, once both sides are done, the verifier proceeds
   * exactly if the PIN is empty or was guessed within the allowed tries, and
   * so does the prover, unless it was left alone. Hence they agree exactly if
   * it is not so that a receiver verifies the empty PIN and the user closes
   * the prompt at once.
   */
  lemma {:induction false} BothProceedIffPasses(c: Challenge, schedule: seq<Side>)
    requires Finished(Run(c, schedule))
    ensures var s := Run(c, schedule);
      && (s.verifier.Accepted? <==> Passes(c))
      && (s.prover.Proceeding? <==> Passes(c) && !LeftAlone(c))
      && ((s.verifier.Accepted? <==> s.prover.Proceeding?) <==> !(c.pin == "" && LeftAlone(c)))
  {
    ReachableInv(c, schedule);
    var s := Run(c, schedule);
    if s.verifier.Accepted? && s.sent > 0 && Settling(c, s) {
      assert c.guesses[s.sent - 1] == c.pin;
    }
  }

  /** The verifier can proceed alone. */
  lemma {:induction false} VerifierProceedsAlone(maxTries: nat)
    ensures var s := Run(Challenge("", maxTries, false, []), [Verifier, Prover]);
      Finished(s) && s.verifier.Accepted? && s.prover.GaveUp? && s.toProver == [Ok]
  {
    var c := Challenge("", maxTries, false, []);
    assert [Verifier, Prover][..1] == [Verifier];
    assert [Verifier][..0] == [];
    assert Run(c, [Verifier]) == Check(c, Initial(c));
  }

  /**
   * If the verifier does not proceed, both fail: with too many attempts if the
   * user kept guessing, with an abandoned challenge if the prompt was closed
   * in time.
   */
  lemma {:induction false} BothFailAlike(c: Challenge, schedule: seq<Side>)
    requires Finished(Run(c, schedule)) && !Passes(c)
    ensures var s := Run(c, schedule);
      if |c.guesses| < c.maxTries then s.verifier.Abandoned? && s.prover.GaveUp?
      else
        && s.verifier.Refused?
        && s.prover == if c.notice && c.maxTries == 0 then Unexpected else if LeftAlone(c) then GaveUp else Rejected
  {
    ReachableInv(c, schedule);
  }

  /** The guesses read: up to the first right one, and never more than allowed. */
  function GuessesRead(c: Challenge): nat {
    var m := FirstMatch(c.pin, c.guesses);
    if c.pin == "" then 0
    else if m < |c.guesses| && m < c.maxTries then m + 1
    else if |c.guesses| < c.maxTries then |c.guesses|
    else c.maxTries
  }

  /** The outcome and the number of guesses read do not depend on the interleaving. */
  lemma {:induction false} ReadsExactly(c: Challenge, schedule: seq<Side>)
    requires Finished(Run(c, schedule))
    ensures var s := Run(c, schedule); s.tries == GuessesRead(c) && s.tries <= c.maxTries
  {
    ReachableInv(c, schedule);
  }

  /**
   * No message stays unread in either role, except where a receiver verifies
   * the empty PIN or allows no tries: then the first guess is not read, or, if
   * there is none, the decision.
   */
  lemma {:induction false} NothingUnreadIff(c: Challenge, schedule: seq<Side>)
    requires Finished(Run(c, schedule))
    ensures var s := Run(c, schedule);
      && s.toProver == (if LeftAlone(c) then [if c.pin == "" then Ok else TooManyAttempts] else [])
      && s.toVerifier == (if GuessIgnored(c) && c.guesses != [] then [c.guesses[0]] else [])
  {
    ReachableInv(c, schedule);
  }

  /** The two sides run in lockstep: never more than one guess and one reply in flight, and not both if all are read. */
  lemma {:induction false} Lockstep(c: Challenge, schedule: seq<Side>)
    ensures var s := Run(c, schedule);
      && |s.toVerifier| + |s.toProver| <= (if GuessIgnored(c) then 2 else 1)
      && s.tries <= s.sent <= s.tries + 1
      && s.tries <= c.maxTries
  {
    ReachableInv(c, schedule);
  }

  // Progress

  function VerifierWork(pc: VerifierPc): nat {
    match pc case Checking => 2 case Waiting => 1 case _ => 0
  }

  function ProverWork(pc: ProverPc): nat {
    match pc case Starting => 2 case Asking => 1 case Answering => 2 case _ => 0
  }

  /** Every guess costs at most four more steps. */
  function Work(c: Challenge, s: State): int {
    4 * (|c.guesses| - s.sent) + 2 * |s.toVerifier| + VerifierWork(s.verifier) + ProverWork(s.prover)
  }

  /** A step that does anything uses up work, and while a side is not done some side can move. */
  lemma {:induction false} StepsUseUpWork(c: Challenge, schedule: seq<Side>, side: Side)
    ensures var s := Run(c, schedule);
      && Work(c, s) >= 0
      && (Apply(c, s, side) == s || Work(c, Apply(c, s, side)) < Work(c, s))
  {
    ReachableInv(c, schedule);
  }

  lemma {:induction false} SomeSideCanMove(c: Challenge, schedule: seq<Side>)
    requires !Finished(Run(c, schedule))
    ensures exists side :: Apply(c, Run(c, schedule), side) != Run(c, schedule)
  {
    var s := Run(c, schedule);
    ReachableInv(c, schedule);
    assert Apply(c, s, Verifier) != s || Apply(c, s, Prover) != s;
  }

  /** From every reachable state both sides can come to an end. */
  lemma {:induction false} CanFinish(c: Challenge, schedule: seq<Side>) returns (rest: seq<Side>)
    ensures Finished(Run(c, schedule + rest))
    decreases Work(c, Run(c, schedule))
  {
    StepsUseUpWork(c, schedule, Prover);
    if Finished(Run(c, schedule)) {
      rest := [];
      assert schedule + [] == schedule;
    } else {
      SomeSideCanMove(c, schedule);
      var side :| Apply(c, Run(c, schedule), side) != Run(c, schedule);
      StepsUseUpWork(c, schedule, side);
      var next := schedule + [side];
      assert next[..|schedule|] == schedule;
      hide Work, Apply;
      var more := CanFinish(c, next);
      rest := [side] + more;
      assert schedule + rest == next + more;
    }
  }

  // The two loops on their own

  predicate AllPinRequired(replies: seq<Reply>) {
    forall i :: 0 <= i < |replies| ==> replies[i].PinRequired?
  }

  /** The prompts sent for the given number of reads, the first of which is left out without a notice. */
  function Prompts(c: Challenge, attempts: nat): nat {
    if c.notice || attempts == 0 then attempts else attempts - 1
  }

  /** verify_pin on a channel that delivers `c.guesses` and then closes; success is answered by its caller. */
  method VerifyPin(c: Challenge) returns (outcome: VerifierPc, replies: seq<Reply>, tries: nat)
    ensures outcome == if Passes(c) then Accepted else if |c.guesses| < c.maxTries then Abandoned else Refused
    ensures tries == GuessesRead(c)
    ensures outcome.Refused? ==> replies != [] && replies[|replies| - 1].TooManyAttempts?
    ensures AllPinRequired(if outcome.Refused? then replies[..|replies| - 1] else replies)
    ensures |replies| == match outcome
      case Accepted => Prompts(c, tries)
      case Refused => Prompts(c, tries) + 1
      case _ => Prompts(c, tries + 1)
  {
    var notice := c.notice;
    var remotePin := "";
    tries, replies := 0, [];
    while true
      invariant tries <= |c.guesses| && tries <= c.maxTries
      invariant remotePin == LastRead(c, tries) && MissedBefore(c, if tries == 0 then 0 else tries - 1)
      invariant tries > 0 ==> c.pin != "" && !notice
      invariant tries == 0 ==> notice == c.notice
      invariant AllPinRequired(replies) && |replies| == Prompts(c, tries)
      decreases c.maxTries - tries
    {
      if remotePin == c.pin {
        if tries > 0 {
          assert c.guesses[tries - 1] == c.pin;
        }
        return Accepted, replies, tries;
      }
      assert MissedBefore(c, tries);
      if tries >= c.maxTries {
        return Refused, replies + [TooManyAttempts], tries;
      }
      if notice || tries > 0 {
        notice := false;
        replies := replies + [PinRequired];
      }
      if tries == |c.guesses| {
        return Abandoned, replies, tries;
      }
      remotePin := c.guesses[tries];
      tries := tries + 1;
    }
  }

  /** handle_pin on a channel that delivers `replies` and then closes. */
  method HandlePin(guesses: seq<string>, replies: seq<Reply>) returns (outcome: ProverPc, sent: nat)
    ensures sent <= |guesses| && sent <= |replies| + 1
    ensures forall i :: 0 <= i < sent - 1 ==> replies[i].PinRequired?
    ensures match outcome
      case Proceeding => 0 < sent <= |replies| && replies[sent - 1].Ok?
      case Rejected => 0 < sent <= |replies| && replies[sent - 1].TooManyAttempts?
      case GaveUp => sent == |guesses| <= |replies| && AllPinRequired(replies[..sent])
      case Disconnected => sent == |replies| + 1 && AllPinRequired(replies)
      case _ => false
  {
    sent := 0;
    while true
      invariant sent <= |guesses| && sent <= |replies| && AllPinRequired(replies[..sent])
      decreases |guesses| - sent
    {
      if sent == |guesses| {
        return GaveUp, sent;
      }
      sent := sent + 1;
      if sent > |replies| {
        return Disconnected, sent;
      }
      assert replies[..sent - 1] + [replies[sent - 1]] == replies[..sent];
      match replies[sent - 1] {
        case Ok => return Proceeding, sent;
        case PinRequired =>
        case TooManyAttempts => return Rejected, sent;
      }
    }
  }
}
