/** A burst: any number of callers take slots concurrently and none gives one back. */
module DispatchBurst {
  import opened Options
  import opened Dispatch
  import opened DispatchSlots
  import opened DispatchProgress

  /** The steps of take_least_busy_agent_controller. */
  predicate Taking(step: Step) {
    step.Arrive? || OfScan(step) || step.SendClaim?
  }

  /** Every caller's scan is right about the agents it has visited. */
  ghost predicate Burst(s: State)
    requires WellFormed(s)
  {
    forall r :: r in s.requests ==> Selecting(s, r) && !s.requests[r].counted
  }

  lemma TakingFrame(cfg: Config, s: State, step: Step)
    requires WellFormed(s) && Enabled(cfg, s, step) && Taking(step)
    ensures var t := Apply(cfg, s, step);
            && t.agents == s.agents && t.controllers.Keys == s.controllers.Keys
            && s.requests.Keys <= t.requests.Keys
            && forall c :: c in s.controllers ==>
                 && t.controllers[c].total == s.controllers[c].total
                 && t.controllers[c].initial == s.controllers[c].initial
                 && t.controllers[c].processing >= s.controllers[c].processing
  {
  }

  lemma FreshScanLeads(s: State)
    requires WellFormed(s)
    ensures Leads(s, None, s.Tenancies(), None)
  {
    forall id | id in s.agents ensures s.agents[id].tenancy in s.Tenancies() {
    }
  }

  lemma OwnStepSelects(cfg: Config, s: State, step: Step)
    requires WellFormed(s) && Enabled(cfg, s, step) && Taking(step) && Burst(s)
    ensures WellFormed(Apply(cfg, s, step))
    ensures var t := Apply(cfg, s, step); Selecting(t, step.r) && !t.requests[step.r].counted
  {
    ApplyKeepsWellFormed(cfg, s, step);
    if !step.Arrive? && !step.CompareAndSwap? && !step.SendClaim? {
      ScanStepSelects(cfg, s, step, step.r);
    } else {
      FreshScanLeads(Apply(cfg, s, step));
      assert Apply(cfg, s, step).Tenancies() == s.Tenancies();
    }
  }

  /** Counters only rise, so what a scan has established lasts. */
  lemma LeadsWhileSlotsFill(s: State, t: State, best: Option<Candidate>, unvisited: set<nat>, reading: Option<Candidate>)
    requires WellFormed(s) && WellFormed(t) && Leads(s, best, unvisited, reading)
    requires t.agents == s.agents && t.controllers.Keys == s.controllers.Keys
    requires forall c :: c in s.controllers ==>
               t.controllers[c].total == s.controllers[c].total &&
               t.controllers[c].processing >= s.controllers[c].processing
    ensures Leads(t, best, unvisited, reading)
  {
  }

  lemma OthersStillSelect(cfg: Config, s: State, step: Step, q: nat)
    requires WellFormed(s) && Enabled(cfg, s, step) && Taking(step) && Burst(s)
    requires q in s.requests && q != step.r
    ensures WellFormed(Apply(cfg, s, step))
    ensures var t := Apply(cfg, s, step);
            q in t.requests && t.requests[q] == s.requests[q] && Selecting(t, q)
  {
    ApplyKeepsWellFormed(cfg, s, step);
    TakingFrame(cfg, s, step);
    MovesOneRequest(cfg, s, step);
    var t := Apply(cfg, s, step);
    assert Selecting(s, q);
    match s.requests[q].pc
    case Scanning(unvisited, best) => LeadsWhileSlotsFill(s, t, best, unvisited, None);
    case Comparing(unvisited, best, read) => LeadsWhileSlotsFill(s, t, best, unvisited, Some(read));
    case Claiming(candidate) => LeadsWhileSlotsFill(s, t, Some(candidate), {}, None);
    case Refused => LeadsWhileSlotsFill(s, t, None, {}, None);
    case Polling => LeadsWhileSlotsFill(s, t, None, {}, None);
    case _ =>
  }

  lemma StepKeepsBurst(cfg: Config, s: State, step: Step)
    requires WellFormed(s) && Enabled(cfg, s, step) && Taking(step) && Burst(s)
    ensures WellFormed(Apply(cfg, s, step)) && Burst(Apply(cfg, s, step))
  {
    OwnStepSelects(cfg, s, step);
    MovesOneRequest(cfg, s, step);
    var t := Apply(cfg, s, step);
    forall q | q in t.requests ensures Selecting(t, q) && !t.requests[q].counted {
      if q != step.r {
        OthersStillSelect(cfg, s, step, q);
      }
    }
  }

  lemma {:induction false} RunKeepsBurst(cfg: Config, s: State, steps: seq<Step>)
    requires WellFormed(s) && Run(cfg, s, steps) && Burst(s)
    requires forall step :: step in steps ==> Taking(step)
    ensures var t := After(cfg, s, steps);
            && Burst(t) && t.agents == s.agents && t.controllers.Keys == s.controllers.Keys
            && forall c :: c in s.controllers ==>
                 t.controllers[c].total == s.controllers[c].total && t.controllers[c].initial == s.controllers[c].initial
    decreases |steps|
  {
    if steps != [] {
      StepKeepsBurst(cfg, s, steps[0]);
      TakingFrame(cfg, s, steps[0]);
      RunKeepsBurst(cfg, Apply(cfg, s, steps[0]), steps[1..]);
    }
  }

  predicate Distinct(cs: seq<nat>) {
    forall i, j :: 0 <= i < j < |cs| ==> cs[i] != cs[j]
  }

  /** `cs` lists controllers registered in the pool, each once. */
  ghost predicate Lists(s: State, cs: seq<nat>) {
    && Distinct(cs)
    && forall c :: c in cs ==> c in s.controllers && exists id :: id in s.agents && s.agents[id].controller == c
  }

  function Capacity(s: State, cs: seq<nat>): int
    requires forall c :: c in cs ==> c in s.controllers
  {
    if cs == [] then 0 else s.controllers[cs[0]].total + Capacity(s, cs[1..])
  }

  function Taken(s: State, cs: seq<nat>): int
    requires forall c :: c in cs ==> c in s.controllers
  {
    if cs == [] then 0 else s.controllers[cs[0]].processing + Taken(s, cs[1..])
  }

  function AllOwners(s: State, cs: seq<nat>): set<nat> {
    set r | r in s.requests && exists c :: c in cs && Owns(s.requests[r].pc, c)
  }

  lemma {:induction false} OwnersAddUp(s: State, cs: seq<nat>)
    requires Distinct(cs) && forall c :: c in cs ==> c in s.controllers && s.controllers[c].processing == |Owners(s, c)|
    ensures Taken(s, cs) == |AllOwners(s, cs)|
  {
    if cs == [] {
      assert AllOwners(s, cs) == {};
    } else {
      OwnersAddUp(s, cs[1..]);
      assert AllOwners(s, cs) == Owners(s, cs[0]) + AllOwners(s, cs[1..]);
      assert Owners(s, cs[0]) !! AllOwners(s, cs[1..]);
    }
  }

  lemma {:induction false} FullMeansTaken(s: State, cs: seq<nat>)
    requires forall c :: c in cs ==> c in s.controllers && s.controllers[c].Full()
    ensures Capacity(s, cs) <= Taken(s, cs)
  {
    if cs != [] {
      FullMeansTaken(s, cs[1..]);
    }
  }

  lemma {:induction false} SameCapacity(s: State, t: State, cs: seq<nat>)
    requires forall c :: c in cs ==> c in s.controllers && c in t.controllers && s.controllers[c].total == t.controllers[c].total
    ensures Capacity(s, cs) == Capacity(t, cs)
  {
    if cs != [] {
      SameCapacity(s, t, cs[1..]);
    }
  }

  /** An idle pool in which nobody has asked for a slot yet. */
  ghost predicate IdlePool(s: State) {
    && s.requests == map[]
    && forall c :: c in s.controllers ==> s.controllers[c].processing == 0 == s.controllers[c].initial
  }

  lemma BurstAccounts(cfg: Config, s: State, steps: seq<Step>, c: nat, bound: int)
    requires WellFormed(s) && IdlePool(s) && Run(cfg, s, steps) && c in s.controllers
    requires (forall step :: step in steps ==> Taking(step)) && 0 <= bound && s.controllers[c].total <= bound
    ensures var t := After(cfg, s, steps);
            && c in t.controllers && t.controllers[c].total == s.controllers[c].total
            && t.controllers[c].processing == |Owners(t, c)| <= bound
  {
    RunKeepsBurst(cfg, s, steps);
    forall other | other in s.controllers ensures Owners(s, other) == {} {
    }
    RunKeepsSlots(cfg, s, steps, c, bound);
  }

  /** However concurrent callers interleave, none is turned away while the pool's
      capacity covers them all. */
  lemma BurstIsServed(cfg: Config, s: State, steps: seq<Step>, cs: seq<nat>, r: nat)
    requires WellFormed(s) && IdlePool(s) && Lists(s, cs) && Run(cfg, s, steps)
    requires forall step :: step in steps ==> Taking(step)
    requires r in After(cfg, s, steps).requests && |After(cfg, s, steps).requests| <= Capacity(s, cs)
    ensures !After(cfg, s, steps).requests[r].pc.Refused?
  {
    var t := After(cfg, s, steps);
    RunKeepsBurst(cfg, s, steps);
    if t.requests[r].pc.Refused? {
      assert Selecting(t, r);
      forall c | c in cs ensures c in t.controllers && t.controllers[c].Full() && t.controllers[c].processing == |Owners(t, c)| {
        var id :| id in t.agents && t.agents[id].controller == c;
        BurstAccounts(cfg, s, steps, c, if s.controllers[c].total > 0 then s.controllers[c].total else 0);
      }
      FullMeansTaken(t, cs);
      SameCapacity(s, t, cs);
      OwnersAddUp(t, cs);
      assert AllOwners(t, cs) <= t.requests.Keys - {r};
      Fewer(AllOwners(t, cs), t.requests.Keys, r);
    }
  }

  lemma Fewer(some: set<nat>, all: set<nat>, r: nat)
    requires some <= all - {r} && r in all
    ensures |some| < |all|
  {
    assert all == some + (all - some);
    assert r in all - some;
  }

  lemma {:induction false} ExactlyTaken(s: State, cs: seq<nat>)
    requires forall c :: c in cs ==> c in s.controllers && s.controllers[c].processing <= s.controllers[c].total
    ensures Taken(s, cs) <= Capacity(s, cs)
    ensures Taken(s, cs) == Capacity(s, cs) ==>
              forall c :: c in cs ==> s.controllers[c].processing == s.controllers[c].total
  {
    if cs != [] {
      ExactlyTaken(s, cs[1..]);
    }
  }

  lemma EveryoneOwns(s: State, cs: seq<nat>)
    requires WellFormed(s) && forall c :: c in s.controllers ==> c in cs
    requires forall r :: r in s.requests ==> s.requests[r].pc.Claimed? || s.requests[r].pc.Holding?
    ensures |AllOwners(s, cs)| == |s.requests|
  {
    forall r | r in s.requests ensures r in AllOwners(s, cs) {
      assert Sound(s, s.requests[r]);
      assert Owns(s.requests[r].pc, s.requests[r].pc.controller);
    }
    assert AllOwners(s, cs) == s.requests.Keys;
  }

  /** There are as many callers as slots, and each owns one. */
  ghost predicate SoldOut(s: State, slots: int) {
    && |s.requests| == slots
    && forall r :: r in s.requests ==> s.requests[r].pc.Claimed? || s.requests[r].pc.Holding?
  }

  lemma SoldOutMeansFull(s: State, cs: seq<nat>, c: nat)
    requires WellFormed(s) && Distinct(cs) && c in cs
    requires forall other :: other in cs <==> other in s.controllers
    requires forall other :: other in cs ==>
               s.controllers[other].processing == |Owners(s, other)| <= s.controllers[other].total
    requires SoldOut(s, Capacity(s, cs))
    ensures s.controllers[c].processing == s.controllers[c].total
  {
    EveryoneOwns(s, cs);
    OwnersAddUp(s, cs);
    ExactlyTaken(s, cs);
  }

  /** When as many callers as there are slots have each got one, every agent is
      exactly full. */
  lemma BurstFillsEveryAgent(cfg: Config, s: State, steps: seq<Step>, cs: seq<nat>, c: nat)
    requires WellFormed(s) && IdlePool(s) && Distinct(cs) && Run(cfg, s, steps) && c in cs
    requires forall step :: step in steps ==> Taking(step)
    requires forall other :: other in cs <==> other in s.controllers
    requires forall other :: other in cs ==> s.controllers[other].total >= 0
    requires SoldOut(After(cfg, s, steps), Capacity(s, cs))
    ensures var t := After(cfg, s, steps);
            c in t.controllers && t.controllers[c].processing == t.controllers[c].total == s.controllers[c].total
  {
    var t := After(cfg, s, steps);
    assert t.controllers.Keys == s.controllers.Keys by {
      RunKeepsBurst(cfg, s, steps);
    }
    forall other | other in cs
      ensures && t.controllers[other].total == s.controllers[other].total
              && t.controllers[other].processing == |Owners(t, other)| <= t.controllers[other].total
    {
      BurstAccounts(cfg, s, steps, other, s.controllers[other].total);
    }
    SameCapacity(s, t, cs);
    SoldOutMeansFull(t, cs, c);
  }
}
