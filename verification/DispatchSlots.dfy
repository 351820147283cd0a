/** Slot accounting: what every interleaving keeps about `slots_processing`. */
module DispatchSlots {
  import opened Options
  import opened Dispatch

  ghost predicate Accounted(s: State) {
    forall c :: c in s.controllers ==>
      s.controllers[c].processing == s.controllers[c].initial + |Owners(s, c)|
  }

  function Owned(s: State, r: nat, c: nat): int {
    Tally(r in s.requests && Owns(s.requests[r].pc, c))
  }

  /** Moving one request changes the owners of a controller by that request only. */
  lemma OwnersAfterMove(s: State, t: State, r: nat, c: nat)
    requires t.requests.Keys == s.requests.Keys + {r}
    requires forall q :: q in s.requests && q != r ==> t.requests[q] == s.requests[q]
    ensures |Owners(t, c)| == |Owners(s, c)| + Owned(t, r, c) - Owned(s, r, c)
  {
    Resized(Owners(s, c), Owners(t, c), r);
  }

  predicate MovesRequest(step: Step) {
    !step.Insert? && !step.Remove? && !step.SetTotal? && !step.SendUpdate?
  }

  /** A step moves a controller's counter exactly as it moves that request's guard. */
  lemma CounterFollowsGuard(cfg: Config, s: State, step: Step, c: nat)
    requires WellFormed(s) && Enabled(cfg, s, step) && MovesRequest(step) && c in s.controllers
    ensures var t := Apply(cfg, s, step);
            && t.controllers.Keys == s.controllers.Keys
            && t.controllers[c].initial == s.controllers[c].initial
            && t.controllers[c].processing - s.controllers[c].processing
               == Owned(t, step.r, c) - Owned(s, step.r, c)
  {
    assert step.r in s.requests ==> Sound(s, s.requests[step.r]);
  }

  lemma MovesOneRequest(cfg: Config, s: State, step: Step)
    requires WellFormed(s) && Enabled(cfg, s, step) && MovesRequest(step)
    ensures var t := Apply(cfg, s, step);
            && t.requests.Keys == s.requests.Keys + {step.r}
            && forall q :: q in s.requests && q != step.r ==> t.requests[q] == s.requests[q]
  {
  }

  lemma ApplyKeepsAccounted(cfg: Config, s: State, step: Step)
    requires WellFormed(s) && Enabled(cfg, s, step) && Accounted(s)
    ensures Accounted(Apply(cfg, s, step))
  {
    var t := Apply(cfg, s, step);
    if MovesRequest(step) {
      MovesOneRequest(cfg, s, step);
      forall c | c in t.controllers
        ensures t.controllers[c].processing == t.controllers[c].initial + |Owners(t, c)|
      {
        assert c in s.controllers;
        CounterFollowsGuard(cfg, s, step, c);
        OwnersAfterMove(s, t, step.r, c);
      }
    } else {
      OtherStepsKeepAccounted(cfg, s, step);
    }
  }

  lemma OtherStepsKeepAccounted(cfg: Config, s: State, step: Step)
    requires WellFormed(s) && Enabled(cfg, s, step) && Accounted(s) && !MovesRequest(step)
    ensures Accounted(Apply(cfg, s, step))
  {
    var t := Apply(cfg, s, step);
    forall c | c in t.controllers
      ensures t.controllers[c].processing == t.controllers[c].initial + |Owners(t, c)|
    {
      assert Owners(t, c) == Owners(s, c);
      if c !in s.controllers {
        assert Owners(s, c) == {} by {
          forall r | r in s.requests ensures !Owns(s.requests[r].pc, c) {
            assert Sound(s, s.requests[r]);
          }
        }
      }
    }
  }

  /** No candidate, however stale, was read when `c` had more than `bound` slots. */
  predicate CandidateBelow(best: Option<Candidate>, c: nat, bound: int) {
    best.Some? && best.value.controller == c ==> best.value.snapshot < bound
  }

  predicate CandidatesBelow(pc: Pc, c: nat, bound: int) {
    match pc
    case Scanning(_, best) => CandidateBelow(best, c, bound)
    case Comparing(_, best, _) => CandidateBelow(best, c, bound)
    case Claiming(candidate) => CandidateBelow(Some(candidate), c, bound)
    case _ => true
  }

  ghost predicate Bounded(s: State, c: nat, bound: int) {
    && (c in s.controllers ==> s.controllers[c].processing <= bound && s.controllers[c].total <= bound)
    && (forall r :: r in s.requests ==> CandidatesBelow(s.requests[r].pc, c, bound))
  }

  /** The step never puts controller `c` above `bound`, as built or as configured. */
  predicate Within(step: Step, c: nat, bound: int) {
    && (step.Insert? && step.c == c ==> step.processing <= bound && step.total <= bound)
    && (step.SetTotal? && step.c == c ==> step.total <= bound)
  }

  lemma MoveKeepsBounded(cfg: Config, s: State, step: Step, c: nat, bound: int)
    requires WellFormed(s) && Enabled(cfg, s, step) && Bounded(s, c, bound) && MovesRequest(step)
    ensures var t := Apply(cfg, s, step);
            && CandidatesBelow(t.requests[step.r].pc, c, bound)
            && (c in t.controllers ==> t.controllers[c].processing <= bound && t.controllers[c].total <= bound)
  {
    if step.r in s.requests {
      assert CandidatesBelow(s.requests[step.r].pc, c, bound);
    }
  }

  lemma ApplyKeepsBounded(cfg: Config, s: State, step: Step, c: nat, bound: int)
    requires WellFormed(s) && Enabled(cfg, s, step) && Bounded(s, c, bound)
    requires Within(step, c, bound)
    ensures Bounded(Apply(cfg, s, step), c, bound)
  {
    if MovesRequest(step) {
      MovesOneRequest(cfg, s, step);
      MoveKeepsBounded(cfg, s, step, c, bound);
    } else {
      assert Apply(cfg, s, step).requests == s.requests;
    }
  }

  lemma {:induction false} RunKeepsSlots(cfg: Config, s: State, steps: seq<Step>, c: nat, bound: int)
    requires WellFormed(s) && Run(cfg, s, steps) && Accounted(s) && Bounded(s, c, bound)
    requires forall step :: step in steps ==> Within(step, c, bound)
    ensures var t := After(cfg, s, steps); Accounted(t) && Bounded(t, c, bound)
    decreases |steps|
  {
    if steps == [] {
    } else {
      var t := Apply(cfg, s, steps[0]);
      ApplyKeepsWellFormed(cfg, s, steps[0]);
      ApplyKeepsAccounted(cfg, s, steps[0]);
      ApplyKeepsBounded(cfg, s, steps[0], c, bound);
      RunKeepsSlots(cfg, t, steps[1..], c, bound);
    }
  }

  /** Over every interleaving a controller's counter is the value it was built
      with plus its live guards, and it stays below every bound that its built
      value and all its slot totals respect.  It counts guards alone exactly
      when it was built idle. */
  lemma SlotAccounting(cfg: Config, steps: seq<Step>, c: nat, bound: int)
    requires Run(cfg, Initial, steps)
    requires forall step :: step in steps ==> Within(step, c, bound)
    requires c in After(cfg, Initial, steps).controllers
    ensures var s := After(cfg, Initial, steps);
            var controller := s.controllers[c];
            && controller.processing == controller.initial + |Owners(s, c)|
            && controller.initial <= controller.processing <= bound
            && (controller.processing == |Owners(s, c)| <==> controller.initial == 0)
  {
    RunKeepsSlots(cfg, Initial, steps, c, bound);
  }
}
