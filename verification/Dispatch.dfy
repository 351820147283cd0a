/** Slot dispatch and buffering in the balancer as a system of atomic steps.

    Any number of requests and agents interleave.  One step is one atomic read,
    compare-and-swap, decrement, watch send or watch check.  Controllers are
    named by the identity of the object, not by agent id, because a duplicate
    registration puts a new object under an old id.

    The watch channel is a version counter; a receiver remembers the version it
    has seen.  */
module Dispatch {
  import opened Options

  /** `initial` is the slot count the object was built with; it never changes. */
  datatype Controller = Controller(processing: int, total: int, initial: int) {
    predicate Full() {
      processing >= total
    }
  }

  /** What the pool's map holds under an id.  `tenancy` names the uninterrupted
      presence of the id in the map: a duplicate registration keeps it, removal
      ends it.  A map iteration visits every tenancy that lasts from its start
      to its end; other entries it may or may not see. */
  datatype Entry = Entry(tenancy: nat, controller: nat)

  datatype Candidate = Candidate(controller: nat, snapshot: int)

  datatype Outcome = Overflow | GaveUp | Finished

  /** Where a request stands.  `Scanning` carries the scan's accumulator. */
  datatype Pc =
    | Scanning(unvisited: set<nat>, best: Option<Candidate>)
    | Comparing(unvisited: set<nat>, best: Option<Candidate>, read: Candidate)
    | Claiming(candidate: Candidate)
    | Claimed(controller: nat)    // slot taken, send not yet made
    | Returning(controller: nat)  // found while buffered, count guard not yet dropped
    | Holding(controller: nat)
    | Released(controller: nat)   // slot given back, send not yet made
    | Refused                     // quick path found no slot
    | Admitted                    // counter was below the cap, not yet incremented
    | Subscribing                 // counted, receiver not yet created
    | Polling                     // scan failed, about to check the receiver
    | Parked
    | Done(outcome: Outcome)

  /** `counted` says that the request's count guard is alive; a counted request
      is inside the wait loop, and `seen` is its receiver's version. */
  datatype Request = Request(pc: Pc, counted: bool, seen: nat)

  /** `owed` counts the writers (registration, removal, status update) between
      their write and their send. */
  datatype State = State(
    controllers: map<nat, Controller>,
    agents: map<string, Entry>,
    version: nat,
    owed: nat,
    requests: map<nat, Request>,
    buffered: int)
  {
    function At(r: nat, pc: Pc): State
      requires r in requests
    {
      this.(requests := requests[r := requests[r].(pc := pc)])
    }

    function Occupied(c: nat, processing: int): State
      requires c in controllers
    {
      this.(controllers := controllers[c := controllers[c].(processing := processing)])
    }

    function Sent(): State {
      this.(version := version + 1)
    }

    function Tenancies(): set<nat> {
      set id | id in agents :: agents[id].tenancy
    }
  }

  datatype Config = Config(workers: nat, maxBuffered: int)

  const Initial := State(map[], map[], 0, 0, map[], 0)

  datatype Step =
    | Arrive(r: nat)
    | ReadProcessing(r: nat, id: string)
    | ReadTotal(r: nat)
    | FinishScan(r: nat)
    | CompareAndSwap(r: nat)
    | SendClaim(r: nat)
    | LeaveBuffer(r: nat)
    | Release(r: nat)
    | SendRelease(r: nat)
    | CheckBuffer(r: nat)
    | EnterBuffer(r: nat)
    | Subscribe(r: nat)
    | PollChanged(r: nat)
    | Wake(r: nat)
    | GiveUp(r: nat)
    | Insert(id: string, c: nat, processing: int, total: int)
    | Remove(id: string)
    | SetTotal(c: nat, total: int)
    | SendUpdate

  /** A request occupies a worker thread except where it can be suspended. */
  predicate Running(q: Request) {
    !q.pc.Parked? && !q.pc.Holding? && !q.pc.Done?
  }

  function RunningRequests(s: State): set<nat> {
    set r | r in s.requests && Running(s.requests[r])
  }

  function CountedRequests(s: State): set<nat> {
    set r | r in s.requests && s.requests[r].counted
  }

  function AdmittedRequests(s: State): set<nat> {
    set r | r in s.requests && s.requests[r].pc.Admitted?
  }

  function Tally(holds: bool): int {
    if holds then 1 else 0
  }

  /** Sets that differ at most in `r` differ in size by that one element. */
  lemma Resized(before: set<nat>, after: set<nat>, r: nat)
    requires before - {r} == after - {r}
    ensures |after| == |before| + Tally(r in after) - Tally(r in before)
  {
    assert before == if r in before then (before - {r}) + {r} else before - {r};
    assert after == if r in after then (after - {r}) + {r} else after - {r};
  }

  predicate Owns(pc: Pc, c: nat) {
    (pc.Claimed? || pc.Returning? || pc.Holding?) && pc.controller == c
  }

  /** The requests whose slot guard on controller `c` is alive. */
  function Owners(s: State, c: nat): set<nat> {
    set r | r in s.requests && Owns(s.requests[r].pc, c)
  }

  predicate Sound(s: State, q: Request) {
    && q.seen <= s.version
    && match q.pc {
         case Scanning(_, best) => best.Some? ==> best.value.controller in s.controllers
         case Comparing(_, best, read) =>
           && (best.Some? ==> best.value.controller in s.controllers)
           && read.controller in s.controllers
         case Claiming(candidate) => candidate.controller in s.controllers
         case Claimed(c) => c in s.controllers
         case Returning(c) => q.counted && c in s.controllers
         case Holding(c) => !q.counted && c in s.controllers
         case Released(c) => !q.counted && c in s.controllers
         case Refused => !q.counted
         case Admitted => !q.counted
         case Subscribing => q.counted
         case Polling => q.counted
         case Parked => q.counted
         case Done(_) => !q.counted
       }
  }

  predicate Registry(s: State) {
    && (forall id :: id in s.agents ==>
          s.agents[id].controller in s.controllers && s.agents[id].tenancy in s.controllers)
    && (forall i, j :: i in s.agents && j in s.agents && s.agents[i].tenancy == s.agents[j].tenancy ==> i == j)
  }

  predicate WellFormed(s: State) {
    Registry(s) && forall r :: r in s.requests ==> Sound(s, s.requests[r])
  }

  predicate Enabled(cfg: Config, s: State, step: Step) {
    match step
    case Arrive(r) => r !in s.requests && |RunningRequests(s)| < cfg.workers
    case ReadProcessing(r, id) => r in s.requests && s.requests[r].pc.Scanning? && id in s.agents
    case ReadTotal(r) => r in s.requests && s.requests[r].pc.Comparing?
    case FinishScan(r) =>
      r in s.requests && s.requests[r].pc.Scanning? && s.requests[r].pc.unvisited !! s.Tenancies()
    case CompareAndSwap(r) => r in s.requests && s.requests[r].pc.Claiming?
    case SendClaim(r) => r in s.requests && s.requests[r].pc.Claimed?
    case LeaveBuffer(r) => r in s.requests && s.requests[r].pc.Returning?
    case Release(r) =>
      r in s.requests && s.requests[r].pc.Holding? && |RunningRequests(s)| < cfg.workers
    case SendRelease(r) => r in s.requests && s.requests[r].pc.Released?
    case CheckBuffer(r) => r in s.requests && s.requests[r].pc.Refused?
    case EnterBuffer(r) => r in s.requests && s.requests[r].pc.Admitted?
    case Subscribe(r) => r in s.requests && s.requests[r].pc.Subscribing?
    case PollChanged(r) => r in s.requests && s.requests[r].pc.Polling?
    case Wake(r) =>
      && r in s.requests && s.requests[r].pc.Parked? && s.requests[r].seen != s.version
      && |RunningRequests(s)| < cfg.workers
    case GiveUp(r) => r in s.requests && s.requests[r].pc.Parked?
    case Insert(id, c, _, _) => c !in s.controllers
    case Remove(id) => id in s.agents
    case SetTotal(c, _) => c in s.controllers
    case SendUpdate => s.owed > 0
  }

  /** The strict minimum so far wins; ties keep the earlier agent. */
  function Better(best: Option<Candidate>, read: Candidate): Candidate {
    if best.Some? && best.value.snapshot <= read.snapshot then best.value else read
  }

  function Rescan(s: State, r: nat): State
    requires r in s.requests
  {
    s.(requests := s.requests[r := s.requests[r].(pc := Scanning(s.Tenancies(), None), seen := s.version)])
  }

  function Apply(cfg: Config, s: State, step: Step): (t: State)
    requires WellFormed(s) && Enabled(cfg, s, step)
  {
    match step
    case Arrive(r) =>
      s.(requests := s.requests[r := Request(Scanning(s.Tenancies(), None), false, 0)])
    case ReadProcessing(r, id) =>
      var e := s.agents[id];
      var pc := s.requests[r].pc;
      s.At(r, Comparing(pc.unvisited - {e.tenancy}, pc.best,
                        Candidate(e.controller, s.controllers[e.controller].processing)))
    case ReadTotal(r) =>
      var pc := s.requests[r].pc;
      if pc.read.snapshot >= s.controllers[pc.read.controller].total
      then s.At(r, Scanning(pc.unvisited, pc.best))
      else s.At(r, Scanning(pc.unvisited, Some(Better(pc.best, pc.read))))
    case FinishScan(r) =>
      var q := s.requests[r];
      if q.pc.best.Some? then s.At(r, Claiming(q.pc.best.value))
      else if q.counted then s.At(r, Polling)
      else s.At(r, Refused)
    case CompareAndSwap(r) =>
      var candidate := s.requests[r].pc.candidate;
      if s.controllers[candidate.controller].processing == candidate.snapshot
      then s.Occupied(candidate.controller, candidate.snapshot + 1).At(r, Claimed(candidate.controller))
      else s.At(r, Scanning(s.Tenancies(), None))
    case SendClaim(r) =>
      var q := s.requests[r];
      s.At(r, if q.counted then Returning(q.pc.controller) else Holding(q.pc.controller)).Sent()
    case LeaveBuffer(r) =>
      var q := s.requests[r];
      s.(requests := s.requests[r := q.(pc := Holding(q.pc.controller), counted := false)],
         buffered := s.buffered - 1)
    case Release(r) =>
      var c := s.requests[r].pc.controller;
      s.Occupied(c, s.controllers[c].processing - 1).At(r, Released(c))
    case SendRelease(r) => s.At(r, Done(Finished)).Sent()
    case CheckBuffer(r) =>
      s.At(r, if s.buffered >= cfg.maxBuffered then Done(Overflow) else Admitted)
    case EnterBuffer(r) =>
      s.(requests := s.requests[r := s.requests[r].(pc := Subscribing, counted := true)],
         buffered := s.buffered + 1)
    case Subscribe(r) => Rescan(s, r)
    case PollChanged(r) =>
      if s.requests[r].seen != s.version then Rescan(s, r) else s.At(r, Parked)
    case Wake(r) => Rescan(s, r)
    case GiveUp(r) =>
      s.(requests := s.requests[r := s.requests[r].(pc := Done(GaveUp), counted := false)],
         buffered := s.buffered - 1)
    case Insert(id, c, processing, total) =>
      var t := s.(controllers := s.controllers[c := Controller(processing, total, processing)]);
      if id in s.agents
      then t.(agents := s.agents[id := Entry(s.agents[id].tenancy, c)])
      else t.(agents := s.agents[id := Entry(c, c)], owed := s.owed + 1)
    case Remove(id) => s.(agents := s.agents - {id}, owed := s.owed + 1)
    case SetTotal(c, total) =>
      s.(controllers := s.controllers[c := s.controllers[c].(total := total)], owed := s.owed + 1)
    case SendUpdate => s.(owed := s.owed - 1).Sent()
  }

  lemma ApplyKeepsRegistry(cfg: Config, s: State, step: Step)
    requires WellFormed(s) && Enabled(cfg, s, step)
    ensures Registry(Apply(cfg, s, step))
  {
    var t := Apply(cfg, s, step);
    assert s.controllers.Keys <= t.controllers.Keys;
    if !step.Insert? && !step.Remove? {
      assert t.agents == s.agents;
    }
  }

  lemma SoundLasts(s: State, t: State, q: Request)
    requires Sound(s, q) && s.version <= t.version && s.controllers.Keys <= t.controllers.Keys
    ensures Sound(t, q)
  {
  }

  predicate OfScan(step: Step) {
    step.ReadProcessing? || step.ReadTotal? || step.FinishScan? || step.CompareAndSwap?
  }

  lemma ScanKeepsSound(cfg: Config, s: State, step: Step)
    requires WellFormed(s) && Enabled(cfg, s, step) && OfScan(step)
    ensures var t := Apply(cfg, s, step); Sound(t, t.requests[step.r])
  {
    assert Sound(s, s.requests[step.r]);
  }

  lemma ApplyKeepsSound(cfg: Config, s: State, step: Step, r: nat)
    requires WellFormed(s) && Enabled(cfg, s, step) && r in Apply(cfg, s, step).requests
    ensures var t := Apply(cfg, s, step); Sound(t, t.requests[r])
  {
    var t := Apply(cfg, s, step);
    if OfScan(step) && r == step.r {
      ScanKeepsSound(cfg, s, step);
    } else if r in s.requests && t.requests[r] == s.requests[r] {
      SoundLasts(s, t, s.requests[r]);
    } else {
      assert r in s.requests ==> Sound(s, s.requests[r]);
    }
  }

  lemma ApplyKeepsWellFormed(cfg: Config, s: State, step: Step)
    requires WellFormed(s) && Enabled(cfg, s, step)
    ensures WellFormed(Apply(cfg, s, step))
  {
    ApplyKeepsRegistry(cfg, s, step);
    forall r | r in Apply(cfg, s, step).requests
      ensures Sound(Apply(cfg, s, step), Apply(cfg, s, step).requests[r])
    {
      ApplyKeepsSound(cfg, s, step, r);
    }
  }

  /** `steps` is an interleaving the system can perform from `s`. */
  ghost predicate Run(cfg: Config, s: State, steps: seq<Step>)
    requires WellFormed(s)
    decreases |steps|
  {
    steps == [] ||
    (Enabled(cfg, s, steps[0]) &&
     (ApplyKeepsWellFormed(cfg, s, steps[0]); Run(cfg, Apply(cfg, s, steps[0]), steps[1..])))
  }

  ghost function After(cfg: Config, s: State, steps: seq<Step>): (t: State)
    requires WellFormed(s) && Run(cfg, s, steps)
    ensures WellFormed(t)
    decreases |steps|
  {
    if steps == [] then s
    else ApplyKeepsWellFormed(cfg, s, steps[0]); After(cfg, Apply(cfg, s, steps[0]), steps[1..])
  }

  /** A run extends by any step enabled where it stands. */
  lemma {:induction false} RunSnoc(cfg: Config, s: State, steps: seq<Step>, step: Step)
    requires WellFormed(s) && Run(cfg, s, steps) && Enabled(cfg, After(cfg, s, steps), step)
    ensures Run(cfg, s, steps + [step])
    ensures After(cfg, s, steps + [step]) == Apply(cfg, After(cfg, s, steps), step)
    decreases |steps|
  {
    if steps == [] {
      ApplyKeepsWellFormed(cfg, s, step);
      assert ([step])[1..] == [];
    } else {
      ApplyKeepsWellFormed(cfg, s, steps[0]);
      RunSnoc(cfg, Apply(cfg, s, steps[0]), steps[1..], step);
      assert (steps + [step])[1..] == steps[1..] + [step];
    }
  }

  ghost predicate Reachable(cfg: Config, s: State) {
    exists steps :: Run(cfg, Initial, steps) && After(cfg, Initial, steps) == s
  }

  lemma Reach(cfg: Config, s: State, step: Step)
    requires Reachable(cfg, s) && WellFormed(s) && Enabled(cfg, s, step)
    ensures Reachable(cfg, Apply(cfg, s, step))
  {
    var steps :| Run(cfg, Initial, steps) && After(cfg, Initial, steps) == s;
    RunSnoc(cfg, Initial, steps, step);
  }
}
