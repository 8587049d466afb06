/**
 * Bounded remote file system requests: the core admits requests by permits
 * (firebox.rs), the application bridge keeps one responder per request it was
 * told about (server.rs of the isolates package) and has a bound of its own.
 * A step is one lock-held block, one message, or one request ending; every
 * sequence of steps is a run.
 */
module RemoteFs {
  import opened Sums

  const DEFAULT_MAX_CONCURRENT_REQUESTS: nat := 64

  /** A request holds its permit until it has ended, a read until its body was sent. */
  datatype Phase = Sending | Waiting | Transferring | Ended

  /** The permits of the core and the responder bound of the bridge. */
  datatype Config = Config(permits: nat, bound: nat)

  const DEFAULT_CONFIG: Config := Config(DEFAULT_MAX_CONCURRENT_REQUESTS, DEFAULT_MAX_CONCURRENT_REQUESTS)

  /** `channel` holds the events on their way to the bridge, `pending` its responders. */
  datatype State = State(available: nat, phases: map<nat, Phase>, channel: seq<nat>, pending: set<nat>)

  function Initial(c: Config): State {
    State(c.permits, map[], [], {})
  }

  predicate IsActive(phases: map<nat, Phase>, r: nat) {
    r in phases && !phases[r].Ended?
  }

  /** A responder is open while its handler waits for the answer. */
  predicate IsWaiting(phases: map<nat, Phase>, r: nat) {
    r in phases && phases[r].Waiting?
  }

  function Active(phases: map<nat, Phase>): set<nat> {
    set r | r in phases && !phases[r].Ended?
  }

  /** prune_closed_remote_fs_responders. */
  function Pruned(phases: map<nat, Phase>, pending: set<nat>): set<nat> {
    set r | r in pending && IsWaiting(phases, r)
  }

  datatype Step =
    | Admit(r: nat)
    | Emit(r: nat)
    | Deliver(shown: bool)
    | Respond(r: nat)
    | End(r: nat)
    | Prune

  /** handle_remote_fs_event: prunes, refuses beyond the bound, and forgets a request it cannot show. */
  function DoDeliver(c: Config, s: State, shown: bool): State
    requires s.channel != []
  {
    var waiting := Pruned(s.phases, s.pending);
    s.(channel := s.channel[1..],
       pending := if |waiting| >= c.bound || !shown then waiting else waiting + {s.channel[0]})
  }

  function Apply(c: Config, s: State, step: Step): State {
    match step
    case Admit(r) =>
      // Without a free permit the request is answered as busy.
      if r !in s.phases && s.available > 0
      then s.(available := s.available - 1, phases := s.phases[r := Sending]) else s
    case Emit(r) =>
      if r in s.phases && s.phases[r].Sending?
      then s.(phases := s.phases[r := Waiting], channel := s.channel + [r]) else s
    case Deliver(shown) => if s.channel != [] then DoDeliver(c, s, shown) else s
    case Respond(r) =>
      if r in s.pending
      then s.(pending := s.pending - {r},
              phases := if IsWaiting(s.phases, r) then s.phases[r := Transferring] else s.phases)
      else s
    case End(r) =>
      // Answered, timed out or disconnected.
      if IsActive(s.phases, r) then s.(available := s.available + 1, phases := s.phases[r := Ended]) else s
    case Prune => s.(pending := Pruned(s.phases, s.pending))
  }

  function RunFrom(c: Config, s: State, run: seq<Step>): State
    decreases |run|
  {
    if run == [] then s else Apply(c, RunFrom(c, s, run[..|run| - 1]), run[|run| - 1])
  }

  function Run(c: Config, run: seq<Step>): State {
    RunFrom(c, Initial(c), run)
  }

  // Invariant

  /** Every event and every responder belongs to a request of its own that was announced once. */
  ghost predicate Announced(phases: map<nat, Phase>, channel: seq<nat>, pending: set<nat>) {
    && (forall i :: 0 <= i < |channel| ==>
          channel[i] in phases && !phases[channel[i]].Sending? && channel[i] !in pending)
    && (forall i, j :: 0 <= i < j < |channel| ==> channel[i] != channel[j])
    && (forall r :: r in pending ==> r in phases && !phases[r].Sending?)
  }

  ghost predicate Inv(c: Config, s: State) {
    && s.available + |Active(s.phases)| == c.permits
    && Announced(s.phases, s.channel, s.pending)
    && |s.pending| <= c.bound
  }

  lemma {:induction false} ActiveAfter(phases: map<nat, Phase>, r: nat, phase: Phase)
    ensures var after := Active(phases[r := phase]);
      && (IsActive(phases, r) && !phase.Ended? ==> after == Active(phases))
      && (!IsActive(phases, r) && !phase.Ended? ==> |after| == |Active(phases)| + 1)
      && (IsActive(phases, r) && phase.Ended? ==> |after| == |Active(phases)| - 1)
  {
    var after := Active(phases[r := phase]);
    if IsActive(phases, r) && !phase.Ended? {
      assert after == Active(phases);
    } else if !IsActive(phases, r) && !phase.Ended? {
      assert after == Active(phases) + {r};
    } else if IsActive(phases, r) {
      assert after == Active(phases) - {r};
    }
  }

  lemma {:induction false} DeliverKeeps(c: Config, s: State, shown: bool)
    requires Inv(c, s) && s.channel != []
    ensures Inv(c, DoDeliver(c, s, shown))
  {
    SubsetSize(Pruned(s.phases, s.pending), s.pending);
  }

  lemma {:induction false} PruneKeeps(c: Config, s: State)
    requires Inv(c, s)
    ensures Inv(c, s.(pending := Pruned(s.phases, s.pending)))
  {
    SubsetSize(Pruned(s.phases, s.pending), s.pending);
  }

  lemma {:induction false} StepKeeps(c: Config, s: State, step: Step)
    requires Inv(c, s)
    ensures Inv(c, Apply(c, s, step))
  {
    hide DoDeliver, Active, Pruned;
    match step {
      case Admit(r) => ActiveAfter(s.phases, r, Sending);
      case Emit(r) => ActiveAfter(s.phases, r, Waiting);
      case Deliver(shown) => if s.channel != [] { DeliverKeeps(c, s, shown); }
      case Respond(r) => ActiveAfter(s.phases, r, Transferring);
      case End(r) => ActiveAfter(s.phases, r, Ended);
      case Prune => PruneKeeps(c, s);
    }
  }

  lemma {:induction false} RunKeeps(c: Config, s: State, run: seq<Step>)
    requires Inv(c, s)
    ensures Inv(c, RunFrom(c, s, run))
    decreases |run|
  {
    if run != [] {
      RunKeeps(c, s, run[..|run| - 1]);
      hide Inv, Apply;
      StepKeeps(c, RunFrom(c, s, run[..|run| - 1]), run[|run| - 1]);
    }
  }

  lemma {:induction false} ReachableInv(c: Config, run: seq<Step>)
    ensures Inv(c, Run(c, run))
  {
    assert Active(Initial(c).phases) == {};
    RunKeeps(c, Initial(c), run);
  }

  // Theorems

  /** Permits are neither lost nor created, and open responders never outnumber the requests that hold one. */
  lemma {:induction false} RespondersWithinPermits(c: Config, run: seq<Step>)
    ensures var s := Run(c, run);
      && s.available + |Active(s.phases)| == c.permits
      && |Pruned(s.phases, s.pending)| <= |Active(s.phases)| <= c.permits
      && |s.pending| <= c.bound
  {
    ReachableInv(c, run);
    var s := Run(c, run);
    hide Run, RunFrom;
    SubsetSize(Pruned(s.phases, s.pending), Active(s.phases));
  }

  /** If the core has no more permits than the bridge has room, no waiting request is ever refused. */
  lemma {:induction false} WaitingRequestIsShown(c: Config, run: seq<Step>)
    requires c.permits <= c.bound
    requires Run(c, run).channel != [] && IsWaiting(Run(c, run).phases, Run(c, run).channel[0])
    ensures Run(c, run).channel[0] in Apply(c, Run(c, run), Deliver(true)).pending
  {
    ReachableInv(c, run);
    var s := Run(c, run);
    hide Run, RunFrom;
    var r, waiting := s.channel[0], Pruned(s.phases, s.pending);
    assert r !in s.pending;
    SubsetSize(waiting + {r}, Active(s.phases));
  }

  // Shown and answered once

  /** The step shows the event of `r` to the application. */
  predicate Shows(s: State, step: Step, r: nat) {
    step == Deliver(true) && s.channel != [] && s.channel[0] == r
  }

  lemma StepShows(c: Config, s: State, step: Step, r: nat)
    requires r in Apply(c, s, step).pending
    ensures r in s.pending || Shows(s, step, r)
  {
  }

  /** Every responder the bridge keeps was shown: what could not be shown is forgotten. */
  lemma {:induction false} ResponderWasShown(c: Config, run: seq<Step>, r: nat) returns (k: nat)
    requires r in Run(c, run).pending
    ensures k < |run| && Shows(Run(c, run[..k]), run[k], r)
    decreases |run|
  {
    var n := |run| - 1;
    var before := run[..n];
    assert Run(c, run) == Apply(c, Run(c, before), run[n]);
    hide Run, Apply;
    StepShows(c, Run(c, before), run[n], r);
    if r in Run(c, before).pending {
      k := ResponderWasShown(c, before, r);
      assert before[..k] == run[..k];
    } else {
      k := n;
    }
  }

  /** The request was announced, and neither its event nor its responder is left. */
  predicate Forgotten(s: State, r: nat) {
    r in s.phases && !s.phases[r].Sending? && r !in s.channel && r !in s.pending
  }

  lemma StaysForgotten(c: Config, s: State, step: Step, r: nat)
    requires Forgotten(s, r)
    ensures Forgotten(Apply(c, s, step), r)
  {
    if s.channel != [] {
      assert s.channel[0] in s.channel;
      assert forall x :: x in s.channel[1..] ==> x in s.channel;
    }
  }

  lemma {:induction false} StaysForgottenAlong(c: Config, s: State, run: seq<Step>, r: nat)
    requires Forgotten(s, r)
    ensures Forgotten(RunFrom(c, s, run), r)
    decreases |run|
  {
    if run != [] {
      StaysForgottenAlong(c, s, run[..|run| - 1], r);
      hide Apply, Forgotten;
      StaysForgotten(c, RunFrom(c, s, run[..|run| - 1]), run[|run| - 1], r);
    }
  }

  /** An answered request, and one that could not be shown, never gets a responder again. */
  lemma {:induction false} AnsweredOnce(c: Config, run: seq<Step>, r: nat, step: Step, rest: seq<Step>)
    requires var s := Run(c, run);
      || (step == Respond(r) && r in s.pending)
      || (step == Deliver(false) && s.channel != [] && s.channel[0] == r)
    ensures r !in RunFrom(c, Apply(c, Run(c, run), step), rest).pending
  {
    ReachableInv(c, run);
    var s := Run(c, run);
    hide Run;
    assert Forgotten(Apply(c, s, step), r) by {
      if step.Deliver? {
        assert forall x :: x in s.channel[1..] ==> exists i :: 0 < i < |s.channel| && s.channel[i] == x;
      }
    }
    StaysForgottenAlong(c, Apply(c, s, step), rest, r);
  }

  // Permits come back

  /** A request that ends gives its permit back, once. */
  lemma EndReleases(c: Config, s: State, r: nat)
    ensures var t := Apply(c, s, End(r));
      if IsActive(s.phases, r) then
        t.available == s.available + 1 && !IsActive(t.phases, r) && Active(t.phases) == Active(s.phases) - {r}
      else t == s
  {
  }

  /** Once the requests of a state have ended, all permits are free again. */
  lemma {:induction false} PermitsComeBack(c: Config, s: State) returns (rest: seq<Step>)
    requires s.available + |Active(s.phases)| == c.permits
    ensures RunFrom(c, s, rest).available == c.permits && Active(RunFrom(c, s, rest).phases) == {}
    ensures |rest| == |Active(s.phases)| && forall i :: 0 <= i < |rest| ==> rest[i].End?
    decreases |Active(s.phases)|
  {
    if Active(s.phases) == {} {
      rest := [];
    } else {
      var r :| r in Active(s.phases);
      var t := Apply(c, s, End(r));
      EndReleases(c, s, r);
      hide Apply, Active;
      var others := PermitsComeBack(c, t);
      FirstStep(c, s, End(r), others);
      rest := [End(r)] + others;
    }
  }

  lemma {:induction false} FirstStep(c: Config, s: State, step: Step, rest: seq<Step>)
    ensures RunFrom(c, s, [step] + rest) == RunFrom(c, Apply(c, s, step), rest)
    decreases |rest|
  {
    hide Apply;
    var run := [step] + rest;
    if rest == [] {
      assert run[..0] == [] && RunFrom(c, s, run[..0]) == s;
    } else {
      FirstStep(c, s, step, rest[..|rest| - 1]);
      assert run[..|run| - 1] == [step] + rest[..|rest| - 1];
    }
  }

  /** In every run the permits can all come back, whatever happened to the responders. */
  lemma {:induction false} NoPermitIsLost(c: Config, run: seq<Step>)
    ensures exists rest :: RunFrom(c, Run(c, run), rest).available == c.permits
  {
    ReachableInv(c, run);
    hide Run, RunFrom, Apply;
    var rest := PermitsComeBack(c, Run(c, run));
  }

  // Crowds

  /** `n` requests admitted, announced and shown one after the other. */
  function Crowd(n: nat): seq<Step> {
    if n == 0 then [] else Crowd(n - 1) + [Admit(n - 1), Emit(n - 1), Deliver(true)]
  }

  function Below(n: nat): set<nat> {
    if n == 0 then {} else Below(n - 1) + {n - 1}
  }

  function AllWaiting(n: nat): map<nat, Phase> {
    map r | r in Below(n) :: Waiting
  }

  /** The first `n` requests wait and the bridge has a responder for each. */
  function Crowded(c: Config, n: nat): State
    requires n <= c.permits
  {
    State(c.permits - n, AllWaiting(n), [], Below(n))
  }

  lemma {:induction false} BelowContents(n: nat)
    ensures |Below(n)| == n && forall r :: r in Below(n) ==> r < n
    decreases n
  {
    if n > 0 {
      BelowContents(n - 1);
    }
  }

  lemma {:induction false} OneStep(c: Config, s: State, run: seq<Step>, step: Step)
    ensures RunFrom(c, s, run + [step]) == Apply(c, RunFrom(c, s, run), step)
  {
    assert (run + [step])[..|run|] == run;
  }

  lemma {:induction false} ThreeSteps(c: Config, s: State, run: seq<Step>, a: Step, b: Step, d: Step)
    ensures RunFrom(c, s, run + [a, b, d]) == Apply(c, Apply(c, Apply(c, RunFrom(c, s, run), a), b), d)
  {
    hide RunFrom, Apply;
    assert run + [a, b, d] == run + [a] + [b] + [d];
    OneStep(c, s, run, a);
    OneStep(c, s, run + [a], b);
    OneStep(c, s, run + [a] + [b], d);
  }

  lemma {:induction false} AddOne(c: Config, n: nat)
    requires n < c.bound && n < c.permits
    ensures Apply(c, Apply(c, Apply(c, Crowded(c, n), Admit(n)), Emit(n)), Deliver(true)) == Crowded(c, n + 1)
  {
    BelowContents(n);
    assert AllWaiting(n)[n := Sending][n := Waiting] == AllWaiting(n + 1);
    assert Pruned(AllWaiting(n + 1), Below(n)) == Below(n);
    assert ([] + [n])[1..] == [];
  }

  lemma {:induction false} EmptyCrowd(c: Config)
    ensures Run(c, Crowd(0)) == Crowded(c, 0)
  {
    assert AllWaiting(0) == map[];
  }

  lemma {:induction false} CrowdFills(c: Config, n: nat)
    requires n <= c.bound && n <= c.permits
    ensures Run(c, Crowd(n)) == Crowded(c, n)
    decreases n
  {
    hide RunFrom, Apply, Crowded, Initial;
    if n == 0 {
      EmptyCrowd(c);
    } else {
      CrowdFills(c, n - 1);
      ThreeSteps(c, Initial(c), Crowd(n - 1), Admit(n - 1), Emit(n - 1), Deliver(true));
      AddOne(c, n - 1);
    }
  }

  /** With more permits than room the bridge does refuse a waiting request. */
  lemma {:induction false} WaitingRequestRefused(c: Config)
    requires c.permits > c.bound
    ensures var s := Run(c, Crowd(c.bound) + [Admit(c.bound), Emit(c.bound), Prune]);
      && s.channel == [c.bound] && IsWaiting(s.phases, c.bound)
      && c.bound !in Apply(c, s, Deliver(true)).pending
  {
    var n := c.bound;
    CrowdFills(c, n);
    ThreeSteps(c, Initial(c), Crowd(n), Admit(n), Emit(n), Prune);
    hide RunFrom, Crowd;
    BelowContents(n);
    assert AllWaiting(n)[n := Sending][n := Waiting] == AllWaiting(n + 1);
    assert Pruned(AllWaiting(n + 1), Below(n)) == Below(n);
  }

  /** Whenever the event of a waiting request reaches the bridge, its responder is kept. */
  ghost predicate RefusesNobody(c: Config) {
    forall run ::
      var s := Run(c, run);
      s.channel != [] && IsWaiting(s.phases, s.channel[0]) ==> s.channel[0] in Apply(c, s, Deliver(true)).pending
  }

  lemma {:induction false} RefusesNobodyIff(c: Config)
    ensures RefusesNobody(c) <==> c.permits <= c.bound
  {
    if c.permits <= c.bound {
      forall run | Run(c, run).channel != [] && IsWaiting(Run(c, run).phases, Run(c, run).channel[0])
        ensures Run(c, run).channel[0] in Apply(c, Run(c, run), Deliver(true)).pending
      {
        WaitingRequestIsShown(c, run);
      }
    } else {
      WaitingRequestRefused(c);
    }
  }

  /** The configuration both sides use by default. */
  lemma DefaultRefusesNobody()
    ensures RefusesNobody(DEFAULT_CONFIG)
  {
    RefusesNobodyIff(DEFAULT_CONFIG);
  }

  // The bridge's map, updated in place

  datatype Kind = Roots | List | Entry | Delete | Read | Write

  class Bridge {
    const bound: nat

    /** The kind of responder kept for each request. */
    var pending: map<nat, Kind>

    constructor (bound: nat)
      ensures this.bound == bound && pending == map[]
    {
      this.bound := bound;
      pending := map[];
    }

    method PruneClosed(phases: map<nat, Phase>) returns (removed: nat)
      modifies this
      ensures pending.Keys == Pruned(phases, old(pending.Keys))
      ensures forall r :: r in pending ==> pending[r] == old(pending)[r]
      ensures removed + |pending| == |old(pending)|
    {
      var before := |pending|;
      SubsetSize(Pruned(phases, pending.Keys), pending.Keys);
      pending := map r | r in pending && IsWaiting(phases, r) :: pending[r];
      assert pending.Keys == Pruned(phases, old(pending.Keys));
      removed := before - |pending|;
    }

    method HandleEvent(phases: map<nat, Phase>, r: nat, kind: Kind, shown: bool)
      modifies this
      requires r !in pending
      ensures pending.Keys == DoDeliver(Config(0, bound), State(0, phases, [r], old(pending.Keys)), shown).pending
      ensures forall other :: other in pending ==> pending[other] == if other == r then kind else old(pending)[other]
      ensures forall other :: other != r ==>
        (other in pending <==> other in old(pending) && other in phases && phases[other] == Waiting)
      ensures r in pending <==> shown && |Pruned(phases, old(pending.Keys))| < bound
    {
      var removed := PruneClosed(phases);
      assert pending.Keys == Pruned(phases, old(pending.Keys)) && |pending| == |pending.Keys|;
      if |pending| >= bound {
        return;
      }
      pending := pending[r := kind];
      if !shown {
        pending := pending - {r};
      }
    }

    /** take_remote_fs_responder: an answer of the wrong kind leaves the responder in place. */
    method Take(r: nat, expected: Kind) returns (taken: bool)
      modifies this
      ensures taken <==> r in old(pending) && old(pending)[r] == expected
      ensures pending == if taken then old(pending) - {r} else old(pending)
    {
      if r !in pending || pending[r] != expected {
        return false;
      }
      pending := pending - {r};
      return true;
    }
  }
}
