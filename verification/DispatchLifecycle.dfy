/** What becomes of a request: which way it can leave the buffer, how it ends, and
    that it is served when an agent has room. */
module DispatchLifecycle {
  import opened Options
  import opened Dispatch
  import opened DispatchSlots
  import opened DispatchWakeup
  import opened DispatchProgress

  predicate Moves(step: Step, r: nat) {
    MovesRequest(step) && step.r == r
  }

  lemma OthersStay(cfg: Config, s: State, step: Step, r: nat)
    requires WellFormed(s) && Enabled(cfg, s, step) && !Moves(step, r)
    ensures var t := Apply(cfg, s, step);
            (r in t.requests <==> r in s.requests) && (r in s.requests ==> t.requests[r] == s.requests[r])
  {
    if MovesRequest(step) {
      MovesOneRequest(cfg, s, step);
    } else {
      assert Apply(cfg, s, step).requests == s.requests;
    }
  }

  ghost predicate OwnsSomething(pc: Pc) {
    exists c :: Owns(pc, c)
  }

  /** A buffered request leaves the buffer only with a slot, or by giving up. */
  lemma CountEndsOnly(cfg: Config, s: State, step: Step, r: nat)
    requires WellFormed(s) && Enabled(cfg, s, step) && r in s.requests && s.requests[r].counted
    ensures var t := Apply(cfg, s, step);
            && r in t.requests
            && (!t.requests[r].counted ==>
                  step == GiveUp(r) || (step == LeaveBuffer(r) && OwnsSomething(t.requests[r].pc)))
  {
    assert Sound(s, s.requests[r]);
    if step == LeaveBuffer(r) {
      assert Owns(Apply(cfg, s, step).requests[r].pc, s.requests[r].pc.controller);
    }
  }

  lemma {:induction false} RunKeepsCounted(cfg: Config, s: State, steps: seq<Step>, r: nat)
    requires WellFormed(s) && Run(cfg, s, steps) && r in s.requests && s.requests[r].counted
    requires LeaveBuffer(r) !in steps && GiveUp(r) !in steps
    ensures var t := After(cfg, s, steps); r in t.requests && t.requests[r].counted
    decreases |steps|
  {
    if steps != [] {
      ApplyKeepsWellFormed(cfg, s, steps[0]);
      CountEndsOnly(cfg, s, steps[0], r);
      RunKeepsCounted(cfg, Apply(cfg, s, steps[0]), steps[1..], r);
    }
  }

  /** A request is turned away only by the full buffer, times out only when it gives
      up, and finishes only when it has told the others of its release. */
  lemma RequestEndsIff(cfg: Config, s: State, step: Step, r: nat, outcome: Outcome)
    requires WellFormed(s) && Enabled(cfg, s, step) && r in s.requests && !s.requests[r].pc.Done?
    ensures var t := Apply(cfg, s, step);
            && r in t.requests
            && (t.requests[r].pc == Done(outcome) <==>
                match outcome
                case Overflow => step == CheckBuffer(r) && s.buffered >= cfg.maxBuffered
                case GaveUp => step == GiveUp(r)
                case Finished => step == SendRelease(r))
  {
    if step.CheckBuffer? && step.r == r {
      assert Apply(cfg, s, step).requests[r].pc == if s.buffered >= cfg.maxBuffered then Done(Overflow) else Admitted;
    } else if !(step.GiveUp? && step.r == r) && !(step.SendRelease? && step.r == r) {
      OtherStepsEndNothing(cfg, s, step, r);
    }
  }

  lemma OtherStepsEndNothing(cfg: Config, s: State, step: Step, r: nat)
    requires WellFormed(s) && Enabled(cfg, s, step) && r in s.requests && !s.requests[r].pc.Done?
    requires step != CheckBuffer(r) && step != GiveUp(r) && step != SendRelease(r)
    ensures var t := Apply(cfg, s, step); r in t.requests && !t.requests[r].pc.Done?
  {
    if !Moves(step, r) {
      OthersStay(cfg, s, step, r);
    }
  }

  /** Searching, waiting, owning a slot, having given it back, done. */
  function Stage(q: Request): nat {
    match q.pc
    case Scanning(_, _) => if q.counted then 2 else 0
    case Comparing(_, _, _) => if q.counted then 2 else 0
    case Claiming(_) => if q.counted then 2 else 0
    case Refused => 1
    case Admitted => 1
    case Subscribing => 2
    case Polling => 2
    case Parked => 2
    case Claimed(_) => 3
    case Returning(_) => 3
    case Holding(_) => 3
    case Released(_) => 4
    case Done(_) => 5
  }

  lemma StepNeverGoesBack(cfg: Config, s: State, step: Step, r: nat)
    requires WellFormed(s) && Enabled(cfg, s, step) && r in s.requests
    ensures var t := Apply(cfg, s, step);
            && r in t.requests && Stage(s.requests[r]) <= Stage(t.requests[r])
            && (s.requests[r].pc.Done? ==> t.requests[r] == s.requests[r])
  {
    assert Sound(s, s.requests[r]);
    if !Moves(step, r) {
      OthersStay(cfg, s, step, r);
    }
  }

  /** No request searches again after it has waited, or waits after it has had a slot. */
  lemma {:induction false} RunNeverGoesBack(cfg: Config, s: State, steps: seq<Step>, r: nat)
    requires WellFormed(s) && Run(cfg, s, steps) && r in s.requests
    ensures var t := After(cfg, s, steps);
            && r in t.requests && Stage(s.requests[r]) <= Stage(t.requests[r])
            && (s.requests[r].pc.Done? ==> t.requests[r] == s.requests[r])
    decreases |steps|
  {
    if steps != [] {
      ApplyKeepsWellFormed(cfg, s, steps[0]);
      StepNeverGoesBack(cfg, s, steps[0], r);
      RunNeverGoesBack(cfg, Apply(cfg, s, steps[0]), steps[1..], r);
    }
  }

  predicate Claims(s: State, step: Step, r: nat) {
    step == CompareAndSwap(r) && r in s.requests && s.requests[r].pc.Claiming?
    && Fresh(s, s.requests[r].pc.candidate)
  }

  ghost function ClaimCount(cfg: Config, s: State, steps: seq<Step>, r: nat): nat
    requires WellFormed(s) && Run(cfg, s, steps)
    decreases |steps|
  {
    if steps == [] then 0
    else
      ApplyKeepsWellFormed(cfg, s, steps[0]);
      Tally(Claims(s, steps[0], r)) + ClaimCount(cfg, Apply(cfg, s, steps[0]), steps[1..], r)
  }

  function ReleaseCount(steps: seq<Step>, r: nat): nat {
    if steps == [] then 0 else Tally(steps[0] == Release(r)) + ReleaseCount(steps[1..], r)
  }

  predicate HasReleased(s: State, r: nat) {
    r in s.requests && (s.requests[r].pc.Released? || s.requests[r].pc == Done(Finished))
  }

  predicate HasClaimed(s: State, r: nat) {
    HasReleased(s, r) ||
    (r in s.requests && (s.requests[r].pc.Claimed? || s.requests[r].pc.Returning? || s.requests[r].pc.Holding?))
  }

  lemma StepClaimsSlot(cfg: Config, s: State, step: Step, r: nat)
    requires WellFormed(s) && Enabled(cfg, s, step)
    ensures Tally(HasClaimed(Apply(cfg, s, step), r)) == Tally(HasClaimed(s, r)) + Tally(Claims(s, step, r))
  {
    if !Moves(step, r) {
      OthersStay(cfg, s, step, r);
    }
  }

  lemma StepReleasesSlot(cfg: Config, s: State, step: Step, r: nat)
    requires WellFormed(s) && Enabled(cfg, s, step)
    ensures Tally(HasReleased(Apply(cfg, s, step), r)) == Tally(HasReleased(s, r)) + Tally(step == Release(r))
  {
    if !Moves(step, r) {
      OthersStay(cfg, s, step, r);
    }
  }

  lemma {:induction false} RunMovesSlot(cfg: Config, s: State, steps: seq<Step>, r: nat)
    requires WellFormed(s) && Run(cfg, s, steps)
    ensures var t := After(cfg, s, steps);
            && Tally(HasClaimed(t, r)) == Tally(HasClaimed(s, r)) + ClaimCount(cfg, s, steps, r)
            && Tally(HasReleased(t, r)) == Tally(HasReleased(s, r)) + ReleaseCount(steps, r)
    decreases |steps|
  {
    if steps != [] {
      ApplyKeepsWellFormed(cfg, s, steps[0]);
      StepClaimsSlot(cfg, s, steps[0], r);
      StepReleasesSlot(cfg, s, steps[0], r);
      RunMovesSlot(cfg, Apply(cfg, s, steps[0]), steps[1..], r);
    }
  }

  /** In every interleaving a request claims at most one slot and gives back exactly
      what it claimed: it has finished only after one claim and one release. */
  lemma OneSlotPerRequest(cfg: Config, steps: seq<Step>, r: nat)
    requires Run(cfg, Initial, steps)
    ensures var s := After(cfg, Initial, steps);
            && ReleaseCount(steps, r) <= ClaimCount(cfg, Initial, steps, r) <= 1
            && (ClaimCount(cfg, Initial, steps, r) == 1 <==> HasClaimed(s, r))
            && (ReleaseCount(steps, r) == 1 <==> HasReleased(s, r))
  {
    RunMovesSlot(cfg, Initial, steps, r);
  }

  /** The steps after which a request looks at every agent afresh. */
  predicate StartsScan(s: State, step: Step) {
    match step
    case Arrive(_) => true
    case Subscribe(_) => true
    case Wake(_) => true
    case PollChanged(r) => r in s.requests && s.requests[r].seen != s.version
    case CompareAndSwap(r) =>
      r in s.requests && s.requests[r].pc.Claiming? && !Fresh(s, s.requests[r].pc.candidate)
    case _ => false
  }

  predicate Searching(pc: Pc) {
    pc.Scanning? || pc.Comparing?
  }

  /** It starts from nothing, has lost neither its place in the buffer nor a version,
      and has read all there was to read before it looks. */
  lemma ScanStartsAfresh(cfg: Config, s: State, step: Step)
    requires WellFormed(s) && Enabled(cfg, s, step) && StartsScan(s, step)
    ensures var t := Apply(cfg, s, step);
            && step.r in t.requests && t.requests[step.r].pc == Scanning(t.Tenancies(), None)
            && t.agents == s.agents && t.controllers == s.controllers
            && t.requests[step.r].counted == (step.r in s.requests && s.requests[step.r].counted)
            && (!step.Arrive? && !step.CompareAndSwap? ==> t.requests[step.r].seen == s.version == t.version)
  {
    assert step.r in s.requests ==> Sound(s, s.requests[step.r]);
    assert Apply(cfg, s, step).Tenancies() == s.Tenancies();
  }

  /** `t` is `s` but for request `r`. */
  predicate OnlyRequest(s: State, t: State, r: nat) {
    && t.requests.Keys == s.requests.Keys + {r}
    && forall q :: q in s.requests && q != r ==> t.requests[q] == s.requests[q]
  }

  predicate Decided(pc: Pc) {
    pc.Claiming? || pc.Refused? || pc.Polling?
  }

  lemma OwnScanStepMovesOnly(cfg: Config, s: State, step: Step, r: nat)
    requires WellFormed(s) && Enabled(cfg, s, step) && OwnScanStep(step, r)
    ensures var t := Apply(cfg, s, step);
            && OnlyRequest(s, t, r) && t.agents == s.agents && t.controllers == s.controllers
            && t.version == s.version && t.owed == s.owed && t.buffered == s.buffered
            && t.requests[r].counted == s.requests[r].counted
            && (Searching(t.requests[r].pc) || Decided(t.requests[r].pc))
  {
  }

  /** A scan moves its own request only, and leaves it searching or decided. */
  lemma {:induction false} OwnScanMovesOnly(cfg: Config, s: State, steps: seq<Step>, r: nat)
    requires WellFormed(s) && Run(cfg, s, steps) && r in s.requests
    requires Searching(s.requests[r].pc) || Decided(s.requests[r].pc)
    requires forall step :: step in steps ==> OwnScanStep(step, r)
    ensures var t := After(cfg, s, steps);
            && OnlyRequest(s, t, r) && t.agents == s.agents && t.controllers == s.controllers
            && t.version == s.version && t.owed == s.owed && t.buffered == s.buffered
            && t.requests[r].counted == s.requests[r].counted
            && (Searching(t.requests[r].pc) || Decided(t.requests[r].pc))
    decreases |steps|
  {
    if steps != [] {
      assert OwnScanStep(steps[0], r);
      ApplyKeepsWellFormed(cfg, s, steps[0]);
      OwnScanStepMovesOnly(cfg, s, steps[0], r);
      OwnScanMovesOnly(cfg, Apply(cfg, s, steps[0]), steps[1..], r);
    }
  }

  /** Whoever starts a scan, by arriving, by waking, by finding a version unread or by
      losing a race, ends it undisturbed with a claim that succeeds if an agent has
      room; if none has, a newcomer is refused and a buffered request goes on waiting. */
  lemma FreshScanClaims(cfg: Config, s: State, step: Step, steps: seq<Step>)
    requires WellFormed(s) && Enabled(cfg, s, step) && StartsScan(s, step)
    requires WellFormed(Apply(cfg, s, step)) && Run(cfg, Apply(cfg, s, step), steps)
    requires forall own :: own in steps ==> OwnScanStep(own, step.r)
    requires var t := After(cfg, Apply(cfg, s, step), steps);
             step.r in t.requests && !Searching(t.requests[step.r].pc)
    ensures var t := After(cfg, Apply(cfg, s, step), steps);
            var q := t.requests[step.r];
            && t.agents == s.agents && t.controllers == s.controllers
            && q.counted == (step.r in s.requests && s.requests[step.r].counted)
            && (HasRoom(s) ==>
                  && q.pc.Claiming? && !t.controllers[q.pc.candidate.controller].Full()
                  && Owns(Apply(cfg, t, CompareAndSwap(step.r)).requests[step.r].pc, q.pc.candidate.controller))
            && (!HasRoom(s) ==> q.pc == if q.counted then Polling else Refused)
  {
    ScanStartsAfresh(cfg, s, step);
    var u := Apply(cfg, s, step);
    OwnScanMovesOnly(cfg, u, steps, step.r);
    UndisturbedScanSelectsLeastBusy(cfg, u, steps, step.r);
    assert HasRoom(u) <==> HasRoom(s);
    var t := After(cfg, u, steps);
    assert Sound(t, t.requests[step.r]);
  }

  lemma {:induction false} RunConcat(cfg: Config, s: State, a: seq<Step>, b: seq<Step>)
    requires WellFormed(s) && Run(cfg, s, a) && Run(cfg, After(cfg, s, a), b)
    ensures Run(cfg, s, a + b) && After(cfg, s, a + b) == After(cfg, After(cfg, s, a), b)
    decreases |a|
  {
    if a == [] {
      assert a + b == b;
    } else {
      ApplyKeepsWellFormed(cfg, s, a[0]);
      RunConcat(cfg, Apply(cfg, s, a[0]), a[1..], b);
      assert (a + b)[1..] == a[1..] + b;
    }
  }

  function ToVisit(s: State, r: nat): nat
    requires r in s.requests
  {
    match s.requests[r].pc
    case Scanning(unvisited, _) => 2 * |unvisited * s.Tenancies()| + 1
    case Comparing(unvisited, _, _) => 2 * |unvisited * s.Tenancies()| + 2
    case _ => 0
  }

  lemma VisitOne(cfg: Config, s: State, r: nat, id: string)
    requires WellFormed(s) && r in s.requests && s.requests[r].pc.Scanning?
    requires id in s.agents && s.agents[id].tenancy in s.requests[r].pc.unvisited
    ensures Enabled(cfg, s, ReadProcessing(r, id))
    ensures var t := Apply(cfg, s, ReadProcessing(r, id)); r in t.requests && ToVisit(t, r) < ToVisit(s, r)
  {
    var t := Apply(cfg, s, ReadProcessing(r, id));
    var unvisited, tenancy := s.requests[r].pc.unvisited, s.agents[id].tenancy;
    assert t.Tenancies() == s.Tenancies() && tenancy in s.Tenancies();
    assert unvisited * s.Tenancies() == (unvisited - {tenancy}) * s.Tenancies() + {tenancy};
  }

  lemma NextScanStep(cfg: Config, s: State, r: nat) returns (step: Step)
    requires WellFormed(s) && r in s.requests && Searching(s.requests[r].pc)
    ensures Enabled(cfg, s, step) && OwnScanStep(step, r)
    ensures var t := Apply(cfg, s, step); r in t.requests && ToVisit(t, r) < ToVisit(s, r)
  {
    var pc := s.requests[r].pc;
    if pc.Comparing? {
      step := ReadTotal(r);
      assert Apply(cfg, s, step).Tenancies() == s.Tenancies();
    } else if pc.unvisited !! s.Tenancies() {
      step := FinishScan(r);
    } else {
      var tenancy :| tenancy in pc.unvisited && tenancy in s.Tenancies();
      var id :| id in s.agents && s.agents[id].tenancy == tenancy;
      step := ReadProcessing(r, id);
      VisitOne(cfg, s, r, id);
    }
  }

  /** A scan left to itself comes to an end. */
  lemma {:induction false} ScanCanFinish(cfg: Config, s: State, r: nat) returns (steps: seq<Step>)
    requires WellFormed(s) && r in s.requests
    ensures Run(cfg, s, steps) && forall step :: step in steps ==> OwnScanStep(step, r)
    ensures var t := After(cfg, s, steps); r in t.requests && !Searching(t.requests[r].pc)
    decreases ToVisit(s, r)
  {
    if !Searching(s.requests[r].pc) {
      steps := [];
    } else {
      var step := NextScanStep(cfg, s, r);
      ApplyKeepsWellFormed(cfg, s, step);
      var rest := ScanCanFinish(cfg, Apply(cfg, s, step), r);
      steps := [step] + rest;
      assert steps[1..] == rest;
    }
  }

  /** A request with a current candidate claims it and comes to hold the slot. */
  lemma ClaimToHold(cfg: Config, s: State, r: nat) returns (steps: seq<Step>)
    requires WellFormed(s) && r in s.requests && s.requests[r].pc.Claiming? && Fresh(s, s.requests[r].pc.candidate)
    ensures Run(cfg, s, steps)
    ensures var t := After(cfg, s, steps);
            var candidate := s.requests[r].pc.candidate;
            && t.requests == s.requests[r := Request(Holding(candidate.controller), false, s.requests[r].seen)]
            && t.controllers == s.Occupied(candidate.controller, candidate.snapshot + 1).controllers
            && t.agents == s.agents && t.owed == s.owed
            && t.version == s.version + 1 && t.buffered == s.buffered - Tally(s.requests[r].counted)
  {
    assert Run(cfg, s, []) && After(cfg, s, []) == s;
    RunSnoc(cfg, s, [], CompareAndSwap(r));
    steps := [] + [CompareAndSwap(r)];
    RunSnoc(cfg, s, steps, SendClaim(r));
    steps := steps + [SendClaim(r)];
    if s.requests[r].counted {
      RunSnoc(cfg, s, steps, LeaveBuffer(r));
      steps := steps + [LeaveBuffer(r)];
    }
  }

  /** A request that holds a slot gives it back and is done. */
  lemma HoldToEnd(cfg: Config, s: State, r: nat) returns (steps: seq<Step>)
    requires WellFormed(s) && r in s.requests && s.requests[r].pc.Holding? && |RunningRequests(s)| < cfg.workers
    ensures Run(cfg, s, steps)
    ensures var t := After(cfg, s, steps);
            var c := s.requests[r].pc.controller;
            && t.requests == s.requests[r := s.requests[r].(pc := Done(Finished))]
            && c in s.controllers && t.controllers == s.Occupied(c, s.controllers[c].processing - 1).controllers
            && t.agents == s.agents && t.owed == s.owed
            && t.version == s.version + 1 && t.buffered == s.buffered
  {
    assert Sound(s, s.requests[r]);
    assert Run(cfg, s, []) && After(cfg, s, []) == s;
    RunSnoc(cfg, s, [], Release(r));
    steps := [] + [Release(r)];
    RunSnoc(cfg, s, steps, SendRelease(r));
    steps := steps + [SendRelease(r)];
  }

  lemma ClaimToEnd(cfg: Config, s: State, r: nat) returns (steps: seq<Step>)
    requires WellFormed(s) && r in s.requests && s.requests[r].pc.Claiming? && Fresh(s, s.requests[r].pc.candidate)
    requires |RunningRequests(s) - {r}| < cfg.workers
    ensures Run(cfg, s, steps)
    ensures var t := After(cfg, s, steps);
            && t.requests == s.requests[r := Request(Done(Finished), false, s.requests[r].seen)]
            && t.controllers == s.controllers && t.agents == s.agents && t.owed == s.owed
            && t.version == s.version + 2 && t.buffered == s.buffered - Tally(s.requests[r].counted)
  {
    var claim := ClaimToHold(cfg, s, r);
    var holding := After(cfg, s, claim);
    assert RunningRequests(holding) == RunningRequests(s) - {r};
    var rest := HoldToEnd(cfg, holding, r);
    RunConcat(cfg, s, claim, rest);
    steps := claim + rest;
  }

  /** Started with room somewhere, a scan leads to a current candidate. */
  lemma StartedScanSelects(cfg: Config, s: State, step: Step) returns (steps: seq<Step>)
    requires WellFormed(s) && Enabled(cfg, s, step) && StartsScan(s, step) && HasRoom(s)
    ensures Run(cfg, s, steps) && [step] <= steps
    ensures var t := After(cfg, s, steps);
            && OnlyRequest(s, t, step.r) && t.agents == s.agents && t.controllers == s.controllers
            && t.version == s.version && t.buffered == s.buffered
            && t.requests[step.r].counted == (step.r in s.requests && s.requests[step.r].counted)
            && t.requests[step.r].pc.Claiming? && Fresh(t, t.requests[step.r].pc.candidate)
  {
    ApplyKeepsWellFormed(cfg, s, step);
    var u := Apply(cfg, s, step);
    ScanStartsAfresh(cfg, s, step);
    StartMovesOnly(cfg, s, step);
    var scan := ScanCanFinish(cfg, u, step.r);
    FreshScanClaims(cfg, s, step, scan);
    OwnScanMovesOnly(cfg, u, scan, step.r);
    steps := [step] + scan;
    assert steps[1..] == scan;
  }

  lemma RunningBut(s: State, t: State, r: nat)
    requires OnlyRequest(s, t, r)
    ensures RunningRequests(t) - {r} == RunningRequests(s) - {r}
  {
  }

  lemma OnlyRequestTwice(s: State, t: State, u: State, r: nat)
    requires OnlyRequest(s, t, r) && r in t.requests && r in u.requests && u.requests == t.requests[r := u.requests[r]]
    ensures OnlyRequest(s, u, r)
  {
  }

  /** From any state with room, a request that starts a scan can be served to the end
      by steps that leave everything else as it was. */
  lemma StartedScanIsServed(cfg: Config, s: State, step: Step) returns (steps: seq<Step>)
    requires WellFormed(s) && Enabled(cfg, s, step) && StartsScan(s, step) && HasRoom(s)
    requires |RunningRequests(s) - {step.r}| < cfg.workers
    ensures Run(cfg, s, steps) && [step] <= steps
    ensures var t := After(cfg, s, steps);
            && OnlyRequest(s, t, step.r) && t.requests[step.r].pc == Done(Finished)
            && t.controllers == s.controllers && t.agents == s.agents && t.version == s.version + 2
            && t.buffered == s.buffered - Tally(step.r in s.requests && s.requests[step.r].counted)
  {
    var scan := StartedScanSelects(cfg, s, step);
    var t := After(cfg, s, scan);
    RunningBut(s, t, step.r);
    var rest := ClaimToEnd(cfg, t, step.r);
    RunConcat(cfg, s, scan, rest);
    OnlyRequestTwice(s, t, After(cfg, t, rest), step.r);
    steps := scan + rest;
  }

  lemma StartMovesOnly(cfg: Config, s: State, step: Step)
    requires WellFormed(s) && Enabled(cfg, s, step) && StartsScan(s, step)
    ensures var t := Apply(cfg, s, step);
            OnlyRequest(s, t, step.r) && t.version == s.version && t.buffered == s.buffered
  {
  }

  /** The wakeup guarantee to its end: a parked request that can be woken while an
      agent has room can take a slot and finish. */
  lemma WokenRequestIsServed(cfg: Config, s: State, r: nat) returns (steps: seq<Step>)
    requires WellFormed(s) && Enabled(cfg, s, Wake(r)) && HasRoom(s)
    ensures Run(cfg, s, steps) && [Wake(r)] <= steps
    ensures var t := After(cfg, s, steps);
            && OnlyRequest(s, t, r) && t.requests[r].pc == Done(Finished)
            && t.controllers == s.controllers && t.buffered == s.buffered - 1
  {
    assert Sound(s, s.requests[r]);
    assert RunningRequests(s) - {r} == RunningRequests(s);
    steps := StartedScanIsServed(cfg, s, Wake(r));
  }

  /** So can a newcomer, if a worker is free. */
  lemma NewcomerIsServed(cfg: Config, s: State, r: nat) returns (steps: seq<Step>)
    requires WellFormed(s) && Enabled(cfg, s, Arrive(r)) && HasRoom(s)
    ensures Run(cfg, s, steps) && [Arrive(r)] <= steps
    ensures var t := After(cfg, s, steps);
            && OnlyRequest(s, t, r) && t.requests[r].pc == Done(Finished)
            && t.controllers == s.controllers && t.buffered == s.buffered
  {
    assert RunningRequests(s) - {r} == RunningRequests(s);
    steps := StartedScanIsServed(cfg, s, Arrive(r));
  }

  /** The whole promise to a waiting request: if an agent has room, no send is owed and
      no registration has stranded anyone, it can be woken and served. */
  lemma ParkedRequestIsServed(cfg: Config, steps: seq<Step>, r: nat, claims: bool) returns (more: seq<Step>)
    requires Run(cfg, Initial, steps) && !Stranded(cfg, Initial, steps, false, claims)
    requires var s := After(cfg, Initial, steps);
             && HasRoom(s) && Quiet(s, claims) && |RunningRequests(s)| < cfg.workers
             && r in s.requests && s.requests[r].pc.Parked?
    ensures var s := After(cfg, Initial, steps);
            && Run(cfg, s, more)
            && var t := After(cfg, s, more);
               && OnlyRequest(s, t, r) && t.requests[r].pc == Done(Finished)
               && t.controllers == s.controllers && t.buffered == s.buffered - 1
  {
    WakeupsAreNotLost(cfg, steps, r, claims);
    more := WokenRequestIsServed(cfg, After(cfg, Initial, steps), r);
  }

  /** No request is ever stuck: given a free worker it has a step to take. */
  lemma RequestCanMove(cfg: Config, s: State, r: nat) returns (step: Step)
    requires WellFormed(s) && r in s.requests && !s.requests[r].pc.Done?
    requires Running(s.requests[r]) || |RunningRequests(s)| < cfg.workers
    ensures Enabled(cfg, s, step) && Moves(step, r)
  {
    match s.requests[r].pc
    case Scanning(_, _) => step := NextScanStep(cfg, s, r);
    case Comparing(_, _, _) => step := ReadTotal(r);
    case Claiming(_) => step := CompareAndSwap(r);
    case Claimed(_) => step := SendClaim(r);
    case Returning(_) => step := LeaveBuffer(r);
    case Holding(_) => step := Release(r);
    case Released(_) => step := SendRelease(r);
    case Refused => step := CheckBuffer(r);
    case Admitted => step := EnterBuffer(r);
    case Subscribing => step := Subscribe(r);
    case Polling => step := PollChanged(r);
    case Parked => step := GiveUp(r);
  }
}
