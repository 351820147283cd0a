/** When a duplicate registration loses a wakeup: exactly when it strands a request. */
module DispatchStranding {
  import opened Dispatch
  import opened DispatchWakeup

  ghost predicate NoneSlipsIn(cfg: Config, s: State, steps: seq<Step>)
    requires WellFormed(s) && Run(cfg, s, steps)
    decreases |steps|
  {
    steps == [] ||
    (!SlipsIn(s, steps[0]) &&
     (ApplyKeepsWellFormed(cfg, s, steps[0]); NoneSlipsIn(cfg, Apply(cfg, s, steps[0]), steps[1..])))
  }

  lemma {:induction false} NoneSlipsInStrandsNobody(cfg: Config, s: State, steps: seq<Step>, claims: bool)
    requires WellFormed(s) && Run(cfg, s, steps) && NoneSlipsIn(cfg, s, steps)
    ensures !Stranded(cfg, s, steps, false, claims)
    decreases |steps|
  {
    if steps != [] {
      ApplyKeepsWellFormed(cfg, s, steps[0]);
      NoneSlipsInStrandsNobody(cfg, Apply(cfg, s, steps[0]), steps[1..], claims);
    }
  }

  /** Request `r` is heading for sleep beside the agent at `home`, which has room. */
  ghost predicate Doomed(s: State, r: nat, home: string, claims: bool)
    requires WellFormed(s)
  {
    && Quiet(s, claims) && home in s.agents && !s.controllers[s.agents[home].controller].Full()
    && Misses(s, r, s.agents[home].tenancy)
  }

  /** From `s` a run without a slipped-in registration loses the wakeup. */
  ghost predicate Loses(cfg: Config, s: State, rest: seq<Step>, claims: bool)
    requires WellFormed(s)
  {
    Run(cfg, s, rest) && NoneSlipsIn(cfg, s, rest) && !NoLostWakeup(After(cfg, s, rest), claims)
  }

  lemma LosesAfterStep(cfg: Config, s: State, step: Step, rest: seq<Step>, claims: bool)
    requires WellFormed(s) && Enabled(cfg, s, step) && !SlipsIn(s, step)
    requires WellFormed(Apply(cfg, s, step)) && Loses(cfg, Apply(cfg, s, step), rest, claims)
    ensures Loses(cfg, s, [step] + rest, claims)
  {
    var steps := [step] + rest;
    assert steps[0] == step && steps[1..] == rest;
  }

  /** Steps of the request on its own way to sleep. */
  predicate Onward(s: State, step: Step) {
    && (step.PollChanged? || step.FinishScan? || step.ReadTotal?)
    && step.r in s.requests
    && var pc := s.requests[step.r].pc;
       (pc.Scanning? ==> pc.unvisited !! s.Tenancies())
  }

  lemma OnwardStaysDoomed(cfg: Config, s: State, step: Step, home: string, claims: bool)
    requires WellFormed(s) && Enabled(cfg, s, step) && Onward(s, step) && Doomed(s, step.r, home, claims)
    ensures WellFormed(Apply(cfg, s, step)) && Doomed(Apply(cfg, s, step), step.r, home, claims)
    ensures !SlipsIn(s, step) && (FullAhead(s, step.r) ==> FullAhead(Apply(cfg, s, step), step.r))
  {
    ApplyKeepsWellFormed(cfg, s, step);
    LocalFrame(cfg, s, step);
  }

  lemma FreshName(used: set<nat>) returns (c: nat)
    ensures forall u :: u in used ==> u < c
    decreases |used|
  {
    if used == {} {
      c := 0;
    } else {
      var u :| u in used;
      var above := FreshName(used - {u});
      c := if above > u then above else u + 1;
      assert forall v :: v in used ==> v == u || v in used - {u};
    }
  }

  /** An agent the scan has yet to visit can silently lose its slots first. */
  lemma ReplaceByFull(cfg: Config, s: State, r: nat, home: string, id: string, c: nat, claims: bool)
    requires WellFormed(s) && Doomed(s, r, home, claims) && c !in s.controllers
    requires s.requests[r].pc.Scanning? && id in s.agents && s.agents[id].tenancy in s.requests[r].pc.unvisited
    ensures Enabled(cfg, s, Insert(id, c, 0, 0)) && !SlipsIn(s, Insert(id, c, 0, 0))
    ensures var t := Apply(cfg, s, Insert(id, c, 0, 0));
            && WellFormed(t) && Doomed(t, r, home, claims)
            && t.requests == s.requests && t.agents == s.agents[id := Entry(s.agents[id].tenancy, c)]
            && c in t.controllers && t.controllers[c] == Controller(0, 0, 0)
  {
    ApplyKeepsWellFormed(cfg, s, Insert(id, c, 0, 0));
    assert id != home;
  }

  lemma VisitFull(cfg: Config, s: State, r: nat, home: string, id: string, claims: bool)
    requires WellFormed(s) && Doomed(s, r, home, claims)
    requires s.requests[r].pc.Scanning? && id in s.agents && s.agents[id].tenancy in s.requests[r].pc.unvisited
    requires s.controllers[s.agents[id].controller].Full()
    ensures Enabled(cfg, s, ReadProcessing(r, id)) && !SlipsIn(s, ReadProcessing(r, id))
    ensures var t := Apply(cfg, s, ReadProcessing(r, id));
            && WellFormed(t) && Doomed(t, r, home, claims) && t.requests[r].pc.Comparing?
            && t.agents == s.agents && t.controllers == s.controllers
            && t.requests[r].pc.unvisited == s.requests[r].pc.unvisited - {s.agents[id].tenancy}
  {
    ApplyKeepsWellFormed(cfg, s, ReadProcessing(r, id));
    LocalFrame(cfg, s, ReadProcessing(r, id));
  }

  /** How far the request still is from sleep. */
  function Distance(s: State, r: nat): nat
    requires r in s.requests
  {
    match s.requests[r].pc
    case Scanning(unvisited, _) => 2 * |unvisited * s.Tenancies()| + 2
    case Comparing(unvisited, _, _) => 2 * |unvisited * s.Tenancies()| + 3
    case Polling => 1
    case _ => 0
  }

  lemma FewerToVisit(unvisited: set<nat>, tenancies: set<nat>, tenancy: nat)
    requires tenancy in unvisited && tenancy in tenancies
    ensures |(unvisited - {tenancy}) * tenancies| + 1 == |unvisited * tenancies|
  {
    assert unvisited * tenancies == (unvisited - {tenancy}) * tenancies + {tenancy};
  }

  lemma SameTenancies(s: State, t: State, id: string, c: nat)
    requires id in s.agents && t.agents == s.agents[id := Entry(s.agents[id].tenancy, c)]
    ensures t.Tenancies() == s.Tenancies()
  {
    forall ten ensures ten in s.Tenancies() <==> ten in t.Tenancies() {
      if ten in s.Tenancies() {
        var i :| i in s.agents && s.agents[i].tenancy == ten;
        assert i in t.agents && t.agents[i].tenancy == ten;
      }
      if ten in t.Tenancies() {
        var i :| i in t.agents && t.agents[i].tenancy == ten;
        assert i in s.agents && s.agents[i].tenancy == ten;
      }
    }
  }

  /** One agent fewer to visit. */
  lemma PassOne(cfg: Config, s: State, r: nat, home: string, id: string, claims: bool) returns (t: State, u: State, c: nat)
    requires WellFormed(s) && Doomed(s, r, home, claims)
    requires s.requests[r].pc.Scanning? && id in s.agents && s.agents[id].tenancy in s.requests[r].pc.unvisited
    ensures Enabled(cfg, s, Insert(id, c, 0, 0)) && !SlipsIn(s, Insert(id, c, 0, 0))
    ensures t == Apply(cfg, s, Insert(id, c, 0, 0)) && WellFormed(t)
    ensures Enabled(cfg, t, ReadProcessing(r, id)) && !SlipsIn(t, ReadProcessing(r, id))
    ensures u == Apply(cfg, t, ReadProcessing(r, id)) && WellFormed(u) && Doomed(u, r, home, claims)
    ensures Distance(u, r) < Distance(s, r)
  {
    c := FreshName(s.controllers.Keys);
    ReplaceByFull(cfg, s, r, home, id, c, claims);
    t := Apply(cfg, s, Insert(id, c, 0, 0));
    VisitFull(cfg, t, r, home, id, claims);
    u := Apply(cfg, t, ReadProcessing(r, id));
    SameTenancies(s, t, id, c);
    assert s.agents[id].tenancy in s.Tenancies();
    FewerToVisit(s.requests[r].pc.unvisited, s.Tenancies(), s.agents[id].tenancy);
  }

  /** A step of request `r` on its own way to sleep. */
  predicate OfItself(step: Step, r: nat) {
    (step.ReadProcessing? || step.ReadTotal? || step.FinishScan? || step.PollChanged?) && step.r == r
  }

  /** Every agent the request has yet to visit is full. */
  ghost predicate FullAhead(s: State, r: nat)
    requires WellFormed(s) && r in s.requests
  {
    var pc := s.requests[r].pc;
    pc.Scanning? || pc.Comparing? ==>
      forall id :: id in s.agents && s.agents[id].tenancy in pc.unvisited ==>
        s.controllers[s.agents[id].controller].Full()
  }

  /** The request falls asleep, by its own steps alone when all is full ahead. */
  lemma {:induction false} DoomedLoses(cfg: Config, s: State, r: nat, home: string, claims: bool) returns (rest: seq<Step>)
    requires WellFormed(s) && Doomed(s, r, home, claims)
    ensures Loses(cfg, s, rest, claims)
    ensures FullAhead(s, r) ==> forall step :: step in rest ==> OfItself(step, r)
    decreases Distance(s, r), 1
  {
    var pc := s.requests[r].pc;
    if pc.Parked? {
      rest := [];
      assert HasRoom(s) && ParkedUpToDate(s, r);
    } else if pc.Scanning? && !(pc.unvisited !! s.Tenancies()) {
      var tenancy :| tenancy in pc.unvisited && tenancy in s.Tenancies();
      var id :| id in s.agents && s.agents[id].tenancy == tenancy;
      rest := DoomedPasses(cfg, s, r, home, id, claims);
    } else {
      var step := if pc.Scanning? then FinishScan(r) else if pc.Comparing? then ReadTotal(r) else PollChanged(r);
      OnwardStaysDoomed(cfg, s, step, home, claims);
      CloserToSleep(cfg, s, step, claims);
      rest := DoomedLoses(cfg, Apply(cfg, s, step), r, home, claims);
      LosesAfterStep(cfg, s, step, rest, claims);
      rest := [step] + rest;
    }
  }

  lemma {:induction false} DoomedPasses(cfg: Config, s: State, r: nat, home: string, id: string, claims: bool)
    returns (rest: seq<Step>)
    requires WellFormed(s) && Doomed(s, r, home, claims)
    requires s.requests[r].pc.Scanning? && id in s.agents && s.agents[id].tenancy in s.requests[r].pc.unvisited
    ensures Loses(cfg, s, rest, claims)
    ensures FullAhead(s, r) ==> forall step :: step in rest ==> OfItself(step, r)
    decreases Distance(s, r), 0
  {
    if s.controllers[s.agents[id].controller].Full() {
      var u := Apply(cfg, s, ReadProcessing(r, id));
      VisitFull(cfg, s, r, home, id, claims);
      assert u.Tenancies() == s.Tenancies() && s.agents[id].tenancy in s.Tenancies();
      FewerToVisit(s.requests[r].pc.unvisited, s.Tenancies(), s.agents[id].tenancy);
      rest := DoomedLoses(cfg, u, r, home, claims);
      LosesAfterStep(cfg, s, ReadProcessing(r, id), rest, claims);
      rest := [ReadProcessing(r, id)] + rest;
    } else {
      var t, u, c := PassOne(cfg, s, r, home, id, claims);
      rest := DoomedLoses(cfg, u, r, home, claims);
      LosesAfterStep(cfg, t, ReadProcessing(r, id), rest, claims);
      rest := [ReadProcessing(r, id)] + rest;
      LosesAfterStep(cfg, s, Insert(id, c, 0, 0), rest, claims);
      rest := [Insert(id, c, 0, 0)] + rest;
    }
  }

  lemma CloserToSleep(cfg: Config, s: State, step: Step, claims: bool)
    requires WellFormed(s) && Enabled(cfg, s, step) && Onward(s, step)
    requires exists home :: Doomed(s, step.r, home, claims)
    ensures var t := Apply(cfg, s, step); step.r in t.requests && Distance(t, step.r) < Distance(s, step.r)
  {
    var t := Apply(cfg, s, step);
    assert t.agents == s.agents;
    assert t.Tenancies() == s.Tenancies();
  }

  /** The registration leaves the guarantee in force for good. */
  ghost predicate WakeupsSafeAfter(cfg: Config, s: State, claims: bool)
    requires WellFormed(s)
  {
    forall rest :: Run(cfg, s, rest) && !Stranded(cfg, s, rest, false, claims) ==> NoLostWakeup(After(cfg, s, rest), claims)
  }

  /** A free slot that slips in behind request `r` can be lost on it, by its own next
      steps alone when every agent it has yet to visit is full. */
  lemma StrandingLosesWakeup(cfg: Config, s: State, step: Step, r: nat, claims: bool) returns (rest: seq<Step>)
    requires WellFormed(s) && Enabled(cfg, s, step) && SlipsIn(s, step) && Quiet(s, claims)
    requires Misses(s, r, s.agents[step.id].tenancy)
    ensures WellFormed(Apply(cfg, s, step)) && Loses(cfg, Apply(cfg, s, step), rest, claims)
    ensures r in s.requests && (FullAhead(s, r) ==> forall own :: own in rest ==> OfItself(own, r))
  {
    ApplyKeepsWellFormed(cfg, s, step);
    var t := Apply(cfg, s, step);
    assert Sound(s, s.requests[r]);
    assert Misses(t, r, t.agents[step.id].tenancy);
    assert t.requests == s.requests && Quiet(t, claims);
    rest := DoomedLoses(cfg, t, r, step.id, claims);
  }

  /** Exactly when a duplicate registration costs a wakeup, now or in any
      continuation that brings no further stranding: it has a free slot, no send is
      owed, and some up-to-date request has already passed its place. */
  lemma DuplicateRegistrationKeepsWakeupIff(cfg: Config, steps: seq<Step>, step: Step, claims: bool)
    requires Run(cfg, Initial, steps) && !Stranded(cfg, Initial, steps, false, claims)
    requires var s := After(cfg, Initial, steps);
             Enabled(cfg, s, step) && step.Insert? && step.id in s.agents
    ensures var s := After(cfg, Initial, steps);
            WellFormed(Apply(cfg, s, step)) && (WakeupsSafeAfter(cfg, Apply(cfg, s, step), claims) <==> !Strands(s, step, claims))
  {
    var s := After(cfg, Initial, steps);
    var t := Apply(cfg, s, step);
    ApplyKeepsWellFormed(cfg, s, step);
    RunKeepsWatching(cfg, Initial, steps, false, claims);
    if Strands(s, step, claims) {
      var r :| Misses(s, r, s.agents[step.id].tenancy);
      var rest := StrandingLosesWakeup(cfg, s, step, r, claims);
      NoneSlipsInStrandsNobody(cfg, t, rest, claims);
    } else {
      DuplicateKeepsWatching(cfg, s, step, claims);
      forall rest | Run(cfg, t, rest) && !Stranded(cfg, t, rest, false, claims) ensures NoLostWakeup(After(cfg, t, rest), claims) {
        RunKeepsWatching(cfg, t, rest, false, claims);
        WatchingGivesWakeup(After(cfg, t, rest), claims);
      }
    }
  }
}
