/** Lock-freedom of the claim loop: a failed compare-and-swap is always somebody
    else's progress. */
module DispatchProgress {
  import opened Options
  import opened Dispatch
  import opened DispatchSlots
  import opened DispatchWakeup

  /** The controller still holds what the candidate recorded. */
  predicate Fresh(s: State, candidate: Candidate) {
    candidate.controller in s.controllers &&
    s.controllers[candidate.controller].processing == candidate.snapshot
  }

  /** Some value that request `r` has read, and may still act on, is out of date. */
  predicate Stale(s: State, r: nat) {
    r in s.requests &&
    match s.requests[r].pc
    case Scanning(_, best) => best.Some? && !Fresh(s, best.value)
    case Comparing(_, best, read) => (best.Some? && !Fresh(s, best.value)) || !Fresh(s, read)
    case Claiming(candidate) => !Fresh(s, candidate)
    case _ => false
  }

  /** The step is a failed compare-and-swap of request `r`. */
  predicate Fails(s: State, step: Step, r: nat) {
    step == CompareAndSwap(r) && r in s.requests && s.requests[r].pc.Claiming? &&
    !Fresh(s, s.requests[r].pc.candidate)
  }

  /** The request still acts on a count of controller `c` that it has read. */
  predicate HasRead(pc: Pc, c: nat) {
    match pc
    case Scanning(_, best) => best.Some? && best.value.controller == c
    case Comparing(_, best, read) => read.controller == c || (best.Some? && best.value.controller == c)
    case Claiming(candidate) => candidate.controller == c
    case _ => false
  }

  /** Another request takes or gives back a slot of a controller whose count
      request `r` has read. */
  predicate Interferes(s: State, step: Step, r: nat) {
    && (step.CompareAndSwap? || step.Release?)
    && step.r != r && r in s.requests && step.r in s.requests
    && match s.requests[step.r].pc {
         case Claiming(candidate) =>
           step.CompareAndSwap? && Fresh(s, candidate) && HasRead(s.requests[r].pc, candidate.controller)
         case Holding(c) => step.Release? && HasRead(s.requests[r].pc, c)
         case _ => false
       }
  }

  ghost function Failures(cfg: Config, s: State, steps: seq<Step>, r: nat): nat
    requires WellFormed(s) && Run(cfg, s, steps)
    decreases |steps|
  {
    if steps == [] then 0
    else
      ApplyKeepsWellFormed(cfg, s, steps[0]);
      (if Fails(s, steps[0], r) then 1 else 0) + Failures(cfg, Apply(cfg, s, steps[0]), steps[1..], r)
  }

  ghost function Interference(cfg: Config, s: State, steps: seq<Step>, r: nat): nat
    requires WellFormed(s) && Run(cfg, s, steps)
    decreases |steps|
  {
    if steps == [] then 0
    else
      ApplyKeepsWellFormed(cfg, s, steps[0]);
      (if Interferes(s, steps[0], r) then 1 else 0) + Interference(cfg, Apply(cfg, s, steps[0]), steps[1..], r)
  }

  lemma OwnStepCharge(cfg: Config, s: State, step: Step, r: nat)
    requires WellFormed(s) && Enabled(cfg, s, step) && MovesRequest(step) && step.r == r
    ensures var t := Apply(cfg, s, step);
            && (Fails(s, step, r) ==> Stale(s, r) && !Stale(t, r))
            && (Stale(t, r) ==> Stale(s, r))
  {
    if r in s.requests {
      assert Sound(s, s.requests[r]);
    }
  }

  lemma OtherStepCharge(cfg: Config, s: State, step: Step, r: nat)
    requires WellFormed(s) && Enabled(cfg, s, step) && !(MovesRequest(step) && step.r == r)
    ensures var t := Apply(cfg, s, step); Stale(t, r) && !Stale(s, r) ==> Interferes(s, step, r)
  {
    var t := Apply(cfg, s, step);
    if r in s.requests {
      assert Sound(s, s.requests[r]);
      assert t.requests[r] == s.requests[r];
    }
  }

  /** One step: a failure spends staleness, and only interference creates it. */
  lemma StepCharge(cfg: Config, s: State, step: Step, r: nat)
    requires WellFormed(s) && Enabled(cfg, s, step)
    ensures var t := Apply(cfg, s, step);
            && (Fails(s, step, r) ==> Stale(s, r) && !Stale(t, r))
            && (Stale(t, r) && !Stale(s, r) ==> Interferes(s, step, r))
  {
    if MovesRequest(step) && step.r == r {
      OwnStepCharge(cfg, s, step, r);
    } else {
      OtherStepCharge(cfg, s, step, r);
    }
  }

  /** Each failed attempt of a request is paid for by a distinct claim or release,
      by another request, of a slot whose controller it had read; one more can come
      from what was already out of date. */
  lemma {:induction false} RetriesAreBounded(cfg: Config, s: State, steps: seq<Step>, r: nat)
    requires WellFormed(s) && Run(cfg, s, steps)
    ensures Failures(cfg, s, steps, r) + (if Stale(After(cfg, s, steps), r) then 1 else 0)
            <= Interference(cfg, s, steps, r) + (if Stale(s, r) then 1 else 0)
    decreases |steps|
  {
    if steps == [] {
    } else {
      ApplyKeepsWellFormed(cfg, s, steps[0]);
      StepCharge(cfg, s, steps[0], r);
      RetriesAreBounded(cfg, Apply(cfg, s, steps[0]), steps[1..], r);
    }
  }

  /** A request that starts clean and is not interfered with claims at its first
      attempt. */
  lemma UndisturbedClaimSucceeds(cfg: Config, s: State, steps: seq<Step>, r: nat)
    requires WellFormed(s) && Run(cfg, s, steps) && !Stale(s, r)
    requires Interference(cfg, s, steps, r) == 0
    ensures Failures(cfg, s, steps, r) == 0
    ensures var t := After(cfg, s, steps);
            Enabled(cfg, t, CompareAndSwap(r)) ==>
              Owns(Apply(cfg, t, CompareAndSwap(r)).requests[r].pc, t.requests[r].pc.candidate.controller)
  {
    RetriesAreBounded(cfg, s, steps, r);
  }

  predicate OwnScanStep(step: Step, r: nat) {
    (step.ReadProcessing? || step.ReadTotal? || step.FinishScan?) && step.r == r
  }

  ghost predicate Listed(s: State, c: nat) {
    exists id :: id in s.agents && s.agents[id].controller == c
  }

  /** `best` had room when it was read, and no agent outside `unvisited`, but for the
      one being read, is now less busy with room than `best` was then. */
  ghost predicate Leads(s: State, best: Option<Candidate>, unvisited: set<nat>, reading: Option<Candidate>)
    requires WellFormed(s)
  {
    && (reading.Some? ==>
          && Listed(s, reading.value.controller)
          && reading.value.snapshot <= s.controllers[reading.value.controller].processing)
    && (best.Some? ==>
          && Listed(s, best.value.controller)
          && best.value.snapshot < s.controllers[best.value.controller].total)
    && forall id :: id in s.agents && s.agents[id].tenancy !in unvisited ==>
         var controller := s.controllers[s.agents[id].controller];
         || controller.Full()
         || (reading.Some? && s.agents[id].controller == reading.value.controller)
         || (best.Some? && best.value.snapshot <= controller.processing)
  }

  ghost predicate Selecting(s: State, r: nat)
    requires WellFormed(s) && r in s.requests
  {
    match s.requests[r].pc
    case Scanning(unvisited, best) => Leads(s, best, unvisited, None)
    case Comparing(unvisited, best, read) => Leads(s, best, unvisited, Some(read))
    case Claiming(candidate) => Leads(s, Some(candidate), {}, None)
    case Refused => Leads(s, None, {}, None)
    case Polling => Leads(s, None, {}, None)
    case _ => true
  }

  lemma FinishSelects(cfg: Config, s: State, r: nat)
    requires WellFormed(s) && Enabled(cfg, s, FinishScan(r)) && Selecting(s, r)
    ensures WellFormed(Apply(cfg, s, FinishScan(r))) && Selecting(Apply(cfg, s, FinishScan(r)), r)
  {
    ApplyKeepsWellFormed(cfg, s, FinishScan(r));
    forall id | id in s.agents ensures s.agents[id].tenancy !in s.requests[r].pc.unvisited {
      assert s.agents[id].tenancy in s.Tenancies();
    }
  }

  lemma ReadSelects(cfg: Config, s: State, r: nat, id: string)
    requires WellFormed(s) && Enabled(cfg, s, ReadProcessing(r, id)) && Selecting(s, r)
    ensures WellFormed(Apply(cfg, s, ReadProcessing(r, id))) && Selecting(Apply(cfg, s, ReadProcessing(r, id)), r)
  {
    ApplyKeepsWellFormed(cfg, s, ReadProcessing(r, id));
  }

  /** What a scan knows grows with every step of its own, whatever has changed meanwhile. */
  lemma ScanStepSelects(cfg: Config, s: State, step: Step, r: nat)
    requires WellFormed(s) && Enabled(cfg, s, step) && OwnScanStep(step, r) && Selecting(s, r)
    ensures WellFormed(Apply(cfg, s, step)) && Selecting(Apply(cfg, s, step), r)
  {
    ApplyKeepsWellFormed(cfg, s, step);
    if step.FinishScan? {
      FinishSelects(cfg, s, r);
    } else if step.ReadProcessing? {
      ReadSelects(cfg, s, r, step.id);
    }
  }

  lemma ScanStepKeepsSelecting(cfg: Config, s: State, step: Step, r: nat)
    requires WellFormed(s) && Enabled(cfg, s, step) && OwnScanStep(step, r)
    requires Selecting(s, r) && !Stale(s, r)
    ensures WellFormed(Apply(cfg, s, step))
    ensures var t := Apply(cfg, s, step);
            && t.agents == s.agents && t.controllers == s.controllers
            && r in t.requests && Selecting(t, r) && !Stale(t, r)
  {
    ScanStepSelects(cfg, s, step, r);
    OwnStepCharge(cfg, s, step, r);
  }

  lemma {:induction false} OwnScanKeepsSelecting(cfg: Config, s: State, steps: seq<Step>, r: nat)
    requires WellFormed(s) && Run(cfg, s, steps) && r in s.requests
    requires Selecting(s, r) && !Stale(s, r)
    requires forall step :: step in steps ==> OwnScanStep(step, r)
    ensures var t := After(cfg, s, steps);
            && t.agents == s.agents && t.controllers == s.controllers
            && r in t.requests && Selecting(t, r) && !Stale(t, r)
    decreases |steps|
  {
    if steps == [] {
    } else {
      ScanStepKeepsSelecting(cfg, s, steps[0], r);
      OwnScanKeepsSelecting(cfg, Apply(cfg, s, steps[0]), steps[1..], r);
    }
  }

  /** An undisturbed scan, in whatever order it visits the map, ends with a
      candidate exactly when some agent has room; the candidate is a least busy
      one with room and its claim succeeds at once. */
  lemma UndisturbedScanSelectsLeastBusy(cfg: Config, s: State, steps: seq<Step>, r: nat)
    requires WellFormed(s) && Run(cfg, s, steps) && r in s.requests
    requires s.requests[r].pc == Scanning(s.Tenancies(), None)
    requires forall step :: step in steps ==> OwnScanStep(step, r)
    requires r in After(cfg, s, steps).requests
    requires var pc := After(cfg, s, steps).requests[r].pc; pc.Claiming? || pc.Refused? || pc.Polling?
    ensures var t := After(cfg, s, steps);
            var pc := t.requests[r].pc;
            && t.agents == s.agents && t.controllers == s.controllers
            && (pc.Claiming? <==> HasRoom(s))
            && (pc.Claiming? ==>
                 && Apply(cfg, t, CompareAndSwap(r)).requests[r].pc == Claimed(pc.candidate.controller)
                 && !t.controllers[pc.candidate.controller].Full()
                 && forall id :: id in t.agents && !t.controllers[t.agents[id].controller].Full() ==>
                      pc.candidate.snapshot <= t.controllers[t.agents[id].controller].processing)
  {
    assert Selecting(s, r) by {
      forall id | id in s.agents ensures s.agents[id].tenancy in s.Tenancies() {
      }
    }
    OwnScanKeepsSelecting(cfg, s, steps, r);
  }
}
