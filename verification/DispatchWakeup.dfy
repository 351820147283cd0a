/** No lost wakeup: a parked request whose receiver is up to date has nothing to
    claim, in every interleaving and through every non-atomic scan. */
module DispatchWakeup {
  import opened Options
  import opened Dispatch

  /** No writer is between its write and its send.  With `claims`, writers include
      requests that have just claimed a slot; without, only those that may have
      freed one.  Everything below holds for both readings. */
  ghost predicate Quiet(s: State, claims: bool) {
    && s.owed == 0
    && forall r :: r in s.requests ==>
         !s.requests[r].pc.Released? && (claims ==> !s.requests[r].pc.Claimed?)
  }

  ghost predicate Current(s: State, q: Request, claims: bool) {
    q.counted && q.seen == s.version && Quiet(s, claims)
  }

  /** The scan has found nothing so far and will not look at `tenancy` again. */
  predicate Passed(s: State, pc: Pc, tenancy: nat) {
    match pc
    case Scanning(unvisited, None) => tenancy !in unvisited
    case Comparing(unvisited, None, read) =>
      && tenancy !in unvisited
      && read.controller in s.controllers && s.controllers[read.controller].total <= read.snapshot
    case Polling => true
    case Parked => true
    case _ => false
  }

  /** What a scan has passed is full, and stays so at least until the next write. */
  ghost predicate ScanHolds(s: State, pc: Pc)
    requires WellFormed(s)
  {
    && (pc.Comparing? && pc.best.None? && pc.read.controller in s.controllers ==>
          s.controllers[pc.read.controller].processing >= pc.read.snapshot)
    && (forall id :: id in s.agents && Passed(s, pc, s.agents[id].tenancy) ==>
          s.controllers[s.agents[id].controller].Full())
  }

  ghost predicate Watching(s: State, claims: bool)
    requires WellFormed(s)
  {
    forall r :: r in s.requests && Current(s, s.requests[r], claims) ==> ScanHolds(s, s.requests[r].pc)
  }

  predicate Sends(step: Step) {
    step.SendClaim? || step.SendRelease? || step.SendUpdate?
  }

  /** After any send every receiver is behind. */
  lemma SendKeepsWatching(cfg: Config, s: State, step: Step, claims: bool)
    requires WellFormed(s) && Enabled(cfg, s, step) && Sends(step)
    ensures WellFormed(Apply(cfg, s, step)) && Watching(Apply(cfg, s, step), claims)
  {
    ApplyKeepsWellFormed(cfg, s, step);
    var t := Apply(cfg, s, step);
    forall r | r in t.requests ensures t.requests[r].seen < t.version || !t.requests[r].counted {
      assert Sound(s, s.requests[r]);
    }
  }

  /** Steps that owe a send. */
  predicate Writes(s: State, step: Step) {
    step.Release? || step.Remove? || step.SetTotal? || (step.Insert? && step.id !in s.agents)
  }

  lemma WriteKeepsWatching(cfg: Config, s: State, step: Step, claims: bool)
    requires WellFormed(s) && Enabled(cfg, s, step) && Writes(s, step)
    ensures WellFormed(Apply(cfg, s, step)) && Watching(Apply(cfg, s, step), claims)
  {
    ApplyKeepsWellFormed(cfg, s, step);
    var t := Apply(cfg, s, step);
    if step.Release? {
      assert t.requests[step.r].pc.Released?;
    }
    assert !Quiet(t, claims);
  }

  /** Steps of one request that neither free a slot nor send. */
  predicate Local(s: State, step: Step) {
    !Sends(step) && !Writes(s, step) && !step.Insert?
  }

  lemma LocalFrame(cfg: Config, s: State, step: Step)
    requires WellFormed(s) && Enabled(cfg, s, step) && Local(s, step)
    ensures var t := Apply(cfg, s, step);
            && t.agents == s.agents && t.version == s.version && t.owed == s.owed
            && t.requests.Keys == s.requests.Keys + {step.r} && !t.requests[step.r].pc.Released?
            && (forall q :: q in s.requests && q != step.r ==> t.requests[q] == s.requests[q])
            && t.controllers.Keys == s.controllers.Keys
            && (forall c :: c in s.controllers ==>
                  && t.controllers[c].total == s.controllers[c].total
                  && t.controllers[c].processing >= s.controllers[c].processing)
            && (step.r in s.requests ==> !s.requests[step.r].pc.Released?)
  {
  }

  lemma LocalKeepsQuiet(cfg: Config, s: State, step: Step, claims: bool)
    requires WellFormed(s) && Enabled(cfg, s, step) && Local(s, step)
    ensures Quiet(Apply(cfg, s, step), claims) ==> Quiet(s, claims)
  {
    LocalFrame(cfg, s, step);
    var t := Apply(cfg, s, step);
    if Quiet(t, claims) {
      forall r | r in s.requests ensures !s.requests[r].pc.Released? {
        assert r in t.requests && !t.requests[r].pc.Released?;
      }
    }
  }

  /** Taking a slot never makes room. */
  lemma ScanHoldsWhileSlotsFill(s: State, t: State, pc: Pc)
    requires WellFormed(s) && WellFormed(t) && ScanHolds(s, pc)
    requires t.agents == s.agents && t.controllers.Keys == s.controllers.Keys
    requires forall c :: c in s.controllers ==>
               t.controllers[c].total == s.controllers[c].total &&
               t.controllers[c].processing >= s.controllers[c].processing
    ensures ScanHolds(t, pc)
  {
    forall id | id in s.agents && Passed(t, pc, s.agents[id].tenancy)
      ensures Passed(s, pc, s.agents[id].tenancy)
    {
    }
  }

  lemma LocalKeepsOthers(cfg: Config, s: State, step: Step, q: nat, claims: bool)
    requires WellFormed(s) && Enabled(cfg, s, step) && Watching(s, claims) && Local(s, step)
    requires q in s.requests && q != step.r
    ensures WellFormed(Apply(cfg, s, step))
    ensures var t := Apply(cfg, s, step);
            q in t.requests && (Current(t, t.requests[q], claims) ==> ScanHolds(t, t.requests[q].pc))
  {
    ApplyKeepsWellFormed(cfg, s, step);
    var t := Apply(cfg, s, step);
    LocalFrame(cfg, s, step);
    LocalKeepsQuiet(cfg, s, step, claims);
    if Current(t, t.requests[q], claims) {
      ScanHoldsWhileSlotsFill(s, t, s.requests[q].pc);
    }
  }

  lemma LocalKeepsOwn(cfg: Config, s: State, step: Step, claims: bool)
    requires WellFormed(s) && Enabled(cfg, s, step) && Watching(s, claims) && Local(s, step)
    ensures WellFormed(Apply(cfg, s, step))
    ensures var t := Apply(cfg, s, step);
            step.r in t.requests && (Current(t, t.requests[step.r], claims) ==> ScanHolds(t, t.requests[step.r].pc))
  {
    ApplyKeepsWellFormed(cfg, s, step);
    LocalKeepsQuiet(cfg, s, step, claims);
    var t := Apply(cfg, s, step);
    if Current(t, t.requests[step.r], claims) && step.r in s.requests {
      assert Current(s, s.requests[step.r], claims) ==> ScanHolds(s, s.requests[step.r].pc);
    }
  }

  /** A duplicate registration whose new controller has a free slot. */
  predicate SlipsIn(s: State, step: Step) {
    step.Insert? && step.id in s.agents && step.processing < step.total
  }

  /** Request `r` has read every send, and its scan is past `tenancy` empty-handed. */
  predicate Misses(s: State, r: nat, tenancy: nat) {
    r in s.requests && s.requests[r].counted && s.requests[r].seen == s.version
    && Passed(s, s.requests[r].pc, tenancy)
  }

  /** The step brings a free slot, without a send, to where some request will not
      look again. */
  ghost predicate Strands(s: State, step: Step, claims: bool) {
    SlipsIn(s, step) && Quiet(s, claims) && exists r :: Misses(s, r, s.agents[step.id].tenancy)
  }

  lemma DuplicateKeepsWatching(cfg: Config, s: State, step: Step, claims: bool)
    requires WellFormed(s) && Enabled(cfg, s, step) && Watching(s, claims)
    requires step.Insert? && step.id in s.agents && !Strands(s, step, claims)
    ensures WellFormed(Apply(cfg, s, step)) && Watching(Apply(cfg, s, step), claims)
  {
    ApplyKeepsWellFormed(cfg, s, step);
    var t := Apply(cfg, s, step);
    forall r, id | r in t.requests && Current(t, t.requests[r], claims) && id in t.agents
      && Passed(t, t.requests[r].pc, t.agents[id].tenancy)
      ensures t.controllers[t.agents[id].controller].Full()
    {
      assert Sound(s, s.requests[r]) && Quiet(s, claims) && ScanHolds(s, s.requests[r].pc);
      assert Passed(s, s.requests[r].pc, s.agents[id].tenancy);
      assert Misses(s, r, s.agents[id].tenancy);
    }
    forall r | r in t.requests && Current(t, t.requests[r], claims) ensures ScanHolds(t, t.requests[r].pc) {
      assert Sound(s, s.requests[r]) && ScanHolds(s, s.requests[r].pc);
    }
  }

  lemma ApplyKeepsWatching(cfg: Config, s: State, step: Step, claims: bool)
    requires WellFormed(s) && Enabled(cfg, s, step) && Watching(s, claims) && !Strands(s, step, claims)
    ensures WellFormed(Apply(cfg, s, step)) && Watching(Apply(cfg, s, step), claims)
  {
    if Sends(step) {
      SendKeepsWatching(cfg, s, step, claims);
    } else if Writes(s, step) {
      WriteKeepsWatching(cfg, s, step, claims);
    } else if step.Insert? {
      DuplicateKeepsWatching(cfg, s, step, claims);
    } else {
      LocalKeepsOwn(cfg, s, step, claims);
      var t := Apply(cfg, s, step);
      forall r | r in t.requests && Current(t, t.requests[r], claims) ensures ScanHolds(t, t.requests[r].pc) {
        if r != step.r {
          assert r in s.requests;
          LocalKeepsOthers(cfg, s, step, r, claims);
        }
      }
    }
  }

  /** Whether the run ends with a stranding registration that no write or send has
      followed; `already` says so of its start. */
  ghost predicate Stranded(cfg: Config, s: State, steps: seq<Step>, already: bool, claims: bool)
    requires WellFormed(s) && Run(cfg, s, steps)
    decreases |steps|
  {
    if steps == [] then already
    else
      ApplyKeepsWellFormed(cfg, s, steps[0]);
      var next := !Sends(steps[0]) && !Writes(s, steps[0]) && (already || Strands(s, steps[0], claims));
      Stranded(cfg, Apply(cfg, s, steps[0]), steps[1..], next, claims)
  }

  lemma {:induction false} RunKeepsWatching(cfg: Config, s: State, steps: seq<Step>, already: bool, claims: bool)
    requires WellFormed(s) && Run(cfg, s, steps) && (already || Watching(s, claims))
    ensures Stranded(cfg, s, steps, already, claims) || Watching(After(cfg, s, steps), claims)
    decreases |steps|
  {
    if steps != [] {
      var step := steps[0];
      ApplyKeepsWellFormed(cfg, s, step);
      if Sends(step) {
        SendKeepsWatching(cfg, s, step, claims);
      } else if Writes(s, step) {
        WriteKeepsWatching(cfg, s, step, claims);
      } else if !already && !Strands(s, step, claims) {
        ApplyKeepsWatching(cfg, s, step, claims);
      }
      var next := !Sends(step) && !Writes(s, step) && (already || Strands(s, step, claims));
      RunKeepsWatching(cfg, Apply(cfg, s, step), steps[1..], next, claims);
    }
  }

  ghost predicate HasRoom(s: State)
    requires WellFormed(s)
  {
    exists id :: id in s.agents && !s.controllers[s.agents[id].controller].Full()
  }

  predicate ParkedUpToDate(s: State, r: nat) {
    r in s.requests && s.requests[r].pc.Parked? && s.requests[r].seen == s.version
  }

  /** The wakeup guarantee: while a registered agent has room and no writer still
      owes its send, every parked request sees an unread version. */
  ghost predicate NoLostWakeup(s: State, claims: bool)
    requires WellFormed(s)
  {
    HasRoom(s) && Quiet(s, claims) ==> forall r :: !ParkedUpToDate(s, r)
  }

  lemma WatchingGivesWakeup(s: State, claims: bool)
    requires WellFormed(s) && Watching(s, claims)
    ensures NoLostWakeup(s, claims)
  {
    forall r | Quiet(s, claims) && ParkedUpToDate(s, r) ensures !HasRoom(s) {
      assert Sound(s, s.requests[r]);
      assert ScanHolds(s, s.requests[r].pc);
      forall id | id in s.agents ensures s.controllers[s.agents[id].controller].Full() {
        assert Passed(s, s.requests[r].pc, s.agents[id].tenancy);
      }
    }
  }

  /** No wakeup is lost in any interleaving without a stranding registration, nor
      in one where a write or a send has followed the last of them; and then a
      parked request can be woken as soon as a worker is free. */
  lemma WakeupsAreNotLost(cfg: Config, steps: seq<Step>, r: nat, claims: bool)
    requires Run(cfg, Initial, steps) && !Stranded(cfg, Initial, steps, false, claims)
    ensures var s := After(cfg, Initial, steps);
            && NoLostWakeup(s, claims)
            && ((HasRoom(s) && Quiet(s, claims) && r in s.requests && s.requests[r].pc.Parked?
                 && |RunningRequests(s)| < cfg.workers) ==> Enabled(cfg, s, Wake(r)))
  {
    RunKeepsWatching(cfg, Initial, steps, false, claims);
    WatchingGivesWakeup(After(cfg, Initial, steps), claims);
  }

  /** One full agent registered as "a"; request 7 stands at `pc`. */
  function OneWaiter(pc: Pc, counted: bool, seen: nat): (s: State)
    ensures s.Tenancies() == {0}
  {
    var s := State(map[0 := Controller(0, 0, 0)], map["a" := Entry(0, 0)], 1, 0,
                   map[7 := Request(pc, counted, seen)], if counted then 1 else 0);
    assert s.agents["a"].tenancy in s.Tenancies();
    s
  }

  lemma VisitFindsItFull(cfg: Config, counted: bool, seen: nat)
    requires seen <= 1 && Reachable(cfg, OneWaiter(Scanning({0}, None), counted, seen))
    ensures Reachable(cfg, OneWaiter(Scanning({}, None), counted, seen))
  {
    var comparing := OneWaiter(Comparing({}, None, Candidate(0, 0)), counted, seen);
    assert Reachable(cfg, comparing) by {
      assert {0} - {0} == {};
      Reach(cfg, OneWaiter(Scanning({0}, None), counted, seen), ReadProcessing(7, "a"));
    }
    Reach(cfg, comparing, ReadTotal(7));
  }

  lemma ScanFindsNothing(cfg: Config, counted: bool, seen: nat)
    requires seen <= 1 && Reachable(cfg, OneWaiter(Scanning({0}, None), counted, seen))
    ensures Reachable(cfg, OneWaiter(if counted then Polling else Refused, counted, seen))
  {
    VisitFindsItFull(cfg, counted, seen);
    Reach(cfg, OneWaiter(Scanning({}, None), counted, seen), FinishScan(7));
  }

  lemma AgentArrives(cfg: Config)
    requires cfg == Config(1, 1)
    ensures Reachable(cfg, OneWaiter(Scanning({0}, None), false, 0))
  {
    var idle := State(map[0 := Controller(0, 0, 0)], map["a" := Entry(0, 0)], 1, 0, map[], 0);
    assert Reachable(cfg, idle) by {
      assert Run(cfg, Initial, []) && After(cfg, Initial, []) == Initial;
      Reach(cfg, Initial, Insert("a", 0, 0, 0));
      Reach(cfg, Apply(cfg, Initial, Insert("a", 0, 0, 0)), SendUpdate);
    }
    assert RunningRequests(idle) == {} && idle.agents["a"].tenancy in idle.Tenancies() && idle.Tenancies() == {0};
    Reach(cfg, idle, Arrive(7));
  }

  lemma RequestIsAdmitted(cfg: Config)
    requires cfg == Config(1, 1) && Reachable(cfg, OneWaiter(Refused, false, 0))
    ensures Reachable(cfg, OneWaiter(Admitted, false, 0))
  {
    Reach(cfg, OneWaiter(Refused, false, 0), CheckBuffer(7));
  }

  lemma RequestSubscribes(cfg: Config)
    requires cfg == Config(1, 1) && Reachable(cfg, OneWaiter(Admitted, false, 0))
    ensures Reachable(cfg, OneWaiter(Scanning({0}, None), true, 1))
  {
    assert Reachable(cfg, OneWaiter(Subscribing, true, 0)) by {
      Reach(cfg, OneWaiter(Admitted, false, 0), EnterBuffer(7));
    }
    Reach(cfg, OneWaiter(Subscribing, true, 0), Subscribe(7));
  }

  lemma RequestParks(cfg: Config)
    requires cfg == Config(1, 1)
    ensures Reachable(cfg, OneWaiter(Parked, true, 1))
  {
    assert Reachable(cfg, OneWaiter(Polling, true, 1)) by {
      AgentArrives(cfg);
      ScanFindsNothing(cfg, false, 0);
      RequestIsAdmitted(cfg);
      RequestSubscribes(cfg);
      ScanFindsNothing(cfg, true, 1);
    }
    Reach(cfg, OneWaiter(Polling, true, 1), PollChanged(7));
  }

  /** The failure is reachable: an agent reconnects under its id with a free slot
      while one request waits, and the request stays parked beside a free agent. */
  lemma WakeupLostByReconnect(claims: bool) returns (cfg: Config, s: State)
    ensures Reachable(cfg, s) && WellFormed(s) && !NoLostWakeup(s, claims)
  {
    cfg := Config(1, 1);
    var parked := OneWaiter(Parked, true, 1);
    var reconnect := Insert("a", 1, 0, 1);
    s := Apply(cfg, parked, reconnect);
    assert Reachable(cfg, s) by {
      RequestParks(cfg);
      Reach(cfg, parked, reconnect);
    }
    ApplyKeepsWellFormed(cfg, parked, reconnect);
    assert "a" in s.agents && !s.controllers[s.agents["a"].controller].Full();
    assert HasRoom(s) && Quiet(s, claims) && ParkedUpToDate(s, 7);
  }
}
