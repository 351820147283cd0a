/** Least-busy dispatch under concurrency: in a burst every claim that succeeds takes a
    slot of a least busy agent, however stale the scan behind it was. */
module DispatchBalance {
  import opened Options
  import opened Dispatch
  import opened DispatchSlots
  import opened DispatchProgress
  import opened DispatchBurst
  import opened LeastBusy

  function Caps(s: State): (caps: map<string, int>)
    requires WellFormed(s)
    ensures caps.Keys == s.agents.Keys
  {
    map id | id in s.agents :: s.controllers[s.agents[id].controller].total
  }

  function Loads(s: State): (loads: map<string, int>)
    requires WellFormed(s)
    ensures loads.Keys == s.agents.Keys
  {
    map id | id in s.agents :: s.controllers[s.agents[id].controller].processing
  }

  /** No two ids share a controller. */
  ghost predicate OneToOne(s: State) {
    forall i, j :: i in s.agents && j in s.agents && s.agents[i].controller == s.agents[j].controller ==> i == j
  }

  lemma ApplyKeepsOneToOne(cfg: Config, s: State, step: Step)
    requires WellFormed(s) && Enabled(cfg, s, step) && OneToOne(s)
    ensures OneToOne(Apply(cfg, s, step))
  {
    if !step.Insert? && !step.Remove? {
      assert Apply(cfg, s, step).agents == s.agents;
    }
  }

  /** Every connection brings its own controller, so this holds in every run. */
  lemma {:induction false} RunKeepsOneToOne(cfg: Config, s: State, steps: seq<Step>)
    requires WellFormed(s) && Run(cfg, s, steps) && OneToOne(s)
    ensures OneToOne(After(cfg, s, steps))
    decreases |steps|
  {
    if steps != [] {
      ApplyKeepsWellFormed(cfg, s, steps[0]);
      ApplyKeepsOneToOne(cfg, s, steps[0]);
      RunKeepsOneToOne(cfg, Apply(cfg, s, steps[0]), steps[1..]);
    }
  }

  /** The callers that have got a slot. */
  function Served(s: State): set<nat> {
    set r | r in s.requests && (s.requests[r].pc.Claimed? || s.requests[r].pc.Holding?)
  }

  /** The pool stands as `history`, a sequence of least-busy takes, leaves it. */
  ghost predicate Follows(s: State, history: History)
    requires WellFormed(s)
  {
    Takes(Caps(s), history) && LoadsAfter(Caps(s), history) == Loads(s) && Length(history) == |Served(s)|
  }

  predicate Succeeds(s: State, step: Step) {
    step.CompareAndSwap? && step.r in s.requests && s.requests[step.r].pc.Claiming?
    && Fresh(s, s.requests[step.r].pc.candidate)
  }

  /** A candidate that is still fresh in a burst is a least busy agent with room. */
  lemma FreshCandidateIsLeastBusy(s: State, r: nat) returns (id: string)
    requires WellFormed(s) && r in s.requests && Selecting(s, r)
    requires s.requests[r].pc.Claiming? && Fresh(s, s.requests[r].pc.candidate)
    ensures id in s.agents && s.agents[id].controller == s.requests[r].pc.candidate.controller
    ensures LeastBusyWithRoom(Caps(s), Loads(s), id)
  {
    var candidate := s.requests[r].pc.candidate;
    id :| id in s.agents && s.agents[id].controller == candidate.controller;
  }

  lemma OneMoreAt(s: State, t: State, id: string)
    requires WellFormed(s) && WellFormed(t) && OneToOne(s) && t.agents == s.agents && id in s.agents
    requires var c := s.agents[id].controller;
             t.controllers == s.controllers[c := s.controllers[c].(processing := s.controllers[c].processing + 1)]
    ensures Caps(t) == Caps(s) && Loads(t) == Loads(s)[id := Loads(s)[id] + 1]
  {
    var caps, loads := Caps(t), Loads(t);
    forall other | other in s.agents
      ensures caps[other] == Caps(s)[other] && loads[other] == Loads(s)[id := Loads(s)[id] + 1][other]
    {
      if other != id {
        assert s.agents[other].controller != s.agents[id].controller;
      }
    }
  }

  /** A claim that succeeds in a burst is a least-busy take at that very moment. */
  lemma ClaimIsLeastBusyTake(cfg: Config, s: State, step: Step) returns (id: string)
    requires WellFormed(s) && Enabled(cfg, s, step) && Burst(s) && OneToOne(s) && Succeeds(s, step)
    ensures LeastBusyWithRoom(Caps(s), Loads(s), id)
    ensures WellFormed(Apply(cfg, s, step))
    ensures var t := Apply(cfg, s, step);
            Caps(t) == Caps(s) && Loads(t) == Loads(s)[id := Loads(s)[id] + 1]
  {
    ApplyKeepsWellFormed(cfg, s, step);
    id := FreshCandidateIsLeastBusy(s, step.r);
    OneMoreAt(s, Apply(cfg, s, step), id);
  }

  lemma OtherStepsTakeNothing(cfg: Config, s: State, step: Step)
    requires WellFormed(s) && Enabled(cfg, s, step) && Taking(step) && !Succeeds(s, step)
    ensures WellFormed(Apply(cfg, s, step))
    ensures var t := Apply(cfg, s, step); Caps(t) == Caps(s) && Loads(t) == Loads(s)
  {
    ApplyKeepsWellFormed(cfg, s, step);
    assert Apply(cfg, s, step).controllers == s.controllers;
  }

  lemma CallerIsServed(cfg: Config, s: State, step: Step)
    requires WellFormed(s) && Enabled(cfg, s, step) && Taking(step) && Burst(s)
    ensures Tally(step.r in Served(Apply(cfg, s, step))) - Tally(step.r in Served(s)) == Tally(Succeeds(s, step))
  {
  }

  lemma ServedGrows(cfg: Config, s: State, step: Step)
    requires WellFormed(s) && Enabled(cfg, s, step) && Taking(step) && Burst(s)
    ensures |Served(Apply(cfg, s, step))| == |Served(s)| + Tally(Succeeds(s, step))
  {
    MovesOneRequest(cfg, s, step);
    CallerIsServed(cfg, s, step);
    Resized(Served(s), Served(Apply(cfg, s, step)), step.r);
  }

  lemma {:induction false} RunFollows(cfg: Config, s: State, steps: seq<Step>, history: History)
    returns (longer: History)
    requires WellFormed(s) && Run(cfg, s, steps) && Burst(s) && OneToOne(s) && Follows(s, history)
    requires forall step :: step in steps ==> Taking(step)
    ensures Follows(After(cfg, s, steps), longer) && Caps(After(cfg, s, steps)) == Caps(s)
    decreases |steps|
  {
    longer := history;
    if steps != [] {
      var step := steps[0];
      StepKeepsBurst(cfg, s, step);
      ApplyKeepsOneToOne(cfg, s, step);
      ServedGrows(cfg, s, step);
      if Succeeds(s, step) {
        var id := ClaimIsLeastBusyTake(cfg, s, step);
        longer := Then(history, id);
      } else {
        OtherStepsTakeNothing(cfg, s, step);
      }
      longer := RunFollows(cfg, Apply(cfg, s, step), steps[1..], longer);
    }
  }

  /** In every interleaving of concurrent callers on an idle pool, the slots taken are,
      in order, those of a history of least-busy takes. */
  lemma BurstIsLeastBusyHistory(cfg: Config, s: State, steps: seq<Step>) returns (history: History)
    requires WellFormed(s) && IdlePool(s) && OneToOne(s) && Run(cfg, s, steps)
    requires forall step :: step in steps ==> Taking(step)
    ensures Follows(After(cfg, s, steps), history) && Caps(After(cfg, s, steps)) == Caps(s)
  {
    assert Served(s) == {};
    history := RunFollows(cfg, s, steps, Idle);
  }

  /** Hence concurrent callers load the agents evenly: two agents never differ by more
      than one unless the lighter is full. */
  lemma BurstStaysBalanced(cfg: Config, s: State, steps: seq<Step>)
    requires WellFormed(s) && IdlePool(s) && OneToOne(s) && Run(cfg, s, steps)
    requires forall step :: step in steps ==> Taking(step)
    ensures var t := After(cfg, s, steps); Caps(t) == Caps(s) && Balanced(Caps(t), Loads(t))
  {
    var history := BurstIsLeastBusyHistory(cfg, s, steps);
    LoadsStayBalanced(Caps(s), history);
  }

  /** And no placement of as many requests within the capacities has a smaller
      maximum load. */
  lemma BurstMinimizesMaximumLoad(cfg: Config, s: State, steps: seq<Step>,
                                  placement: multiset<string>, bound: nat, id: string)
    requires WellFormed(s) && IdlePool(s) && OneToOne(s) && Run(cfg, s, steps)
    requires forall step :: step in steps ==> Taking(step)
    requires |placement| == |Served(After(cfg, s, steps))|
    requires forall other :: other in placement ==> other in Caps(s) && placement[other] <= Caps(s)[other]
    requires forall other :: placement[other] <= bound
    requires id in s.agents
    ensures id in After(cfg, s, steps).agents && Loads(After(cfg, s, steps))[id] <= bound
  {
    var history := BurstIsLeastBusyHistory(cfg, s, steps);
    TakesMinimizeMaximumLoad(Caps(s), history, placement, bound, id);
  }

  /** A concurrent caller is refused only when every agent is full. */
  lemma BurstRefusesOnlyWhenFull(cfg: Config, s: State, steps: seq<Step>, r: nat)
    requires WellFormed(s) && IdlePool(s) && Run(cfg, s, steps)
    requires forall step :: step in steps ==> Taking(step)
    requires r in After(cfg, s, steps).requests && After(cfg, s, steps).requests[r].pc.Refused?
    ensures AllFull(Caps(After(cfg, s, steps)), Loads(After(cfg, s, steps)))
  {
    RunKeepsBurst(cfg, s, steps);
    assert Selecting(After(cfg, s, steps), r);
  }
}
