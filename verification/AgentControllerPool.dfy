/** The balancer's agent pool, one call at a time.  The interleaved behaviour of
    the same operations is in module Dispatch. */
module AgentControllerPool {
  import opened Options
  import opened AgentControllers
  import opened LeastBusy

  datatype DispatchCandidate = DispatchCandidate(agentController: AgentController, snapshot: int)

  /** One slot of `agentController`, a least busy agent with room, was taken. */
  ghost predicate Took(agents: map<string, AgentController>, caps: map<string, int>,
                       before: map<string, int>, after: map<string, int>, agentController: AgentController)
    requires agents.Keys == caps.Keys == before.Keys
  {
    exists id :: id in agents && agents[id] == agentController
      && LeastBusyWithRoom(caps, before, id) && after == before[id := before[id] + 1]
  }

  lemma TookOne(agents: map<string, AgentController>, caps: map<string, int>,
                before: map<string, int>, after: map<string, int>, id: string)
    requires agents.Keys == caps.Keys == before.Keys && LeastBusyWithRoom(caps, before, id)
    requires after == before[id := before[id] + 1]
    ensures Took(agents, caps, before, after, agents[id]) && !AllFull(caps, before)
  {
  }

  lemma RoomAppears(caps: map<string, int>, loads: map<string, int>, id: string, cap: int, load: int)
    requires caps.Keys == loads.Keys && AllFull(caps, loads)
    ensures AllFull(caps[id := cap], loads[id := load]) <==> load >= cap
  {
    assert load < cap ==> loads[id := load][id] < caps[id := cap][id];
  }

  lemma RemovingUndoesPutting<V>(m: map<string, V>, id: string, v: V)
    ensures m[id := v] - {id} == m - {id}
    ensures m - {id} == m <==> id !in m
  {
    assert id in m ==> id !in m - {id};
  }

  lemma UndoneBy(agents: map<string, AgentController>, caps: map<string, int>,
                 before: map<string, int>, after: map<string, int>, agentController: AgentController)
    returns (id: string)
    requires agents.Keys == caps.Keys == before.Keys && Took(agents, caps, before, after, agentController)
    ensures id in agents && agents[id] == agentController && id in after && after[id := after[id] - 1] == before
  {
    id :| id in agents && agents[id] == agentController && after == before[id := before[id] + 1];
  }

  class AgentControllerPool {
    var agents: map<string, AgentController>
    var updates: nat  // version of the update channel

    /** Every connection builds its own controller object. */
    ghost predicate Valid()
      reads this
    {
      forall i, j :: i in agents && j in agents && agents[i] == agents[j] ==> i == j
    }

    ghost function Loads(): (loads: map<string, int>)
      reads this, agents.Values
      ensures loads.Keys == agents.Keys
    {
      map id | id in agents :: agents[id].slotsProcessing
    }

    ghost function Capacities(): (caps: map<string, int>)
      reads this, agents.Values
      ensures caps.Keys == agents.Keys
    {
      map id | id in agents :: agents[id].mirror.slotsTotal
    }

    /** `candidate` records the agent registered as `id`, a least busy one. */
    ghost predicate Selected(candidate: DispatchCandidate, id: string)
      reads this, agents.Values
    {
      && id in agents && agents[id] == candidate.agentController
      && Loads()[id] == candidate.snapshot
      && LeastBusyWithRoom(Capacities(), Loads(), id)
    }

    constructor ()
      ensures Valid() && agents == map[]
    {
      agents, updates := map[], 0;
    }

    method SelectLeastBusyWithCapacity() returns (best: Option<DispatchCandidate>)
      ensures best.None? <==> AllFull(Capacities(), Loads())
      ensures best.Some? ==> exists id :: Selected(best.value, id)
    {
      best := None;
      var unvisited := agents.Keys;
      while unvisited != {}
        invariant unvisited <= agents.Keys
        invariant best.None? ==> forall id :: id in agents && id !in unvisited ==> Loads()[id] >= Capacities()[id]
        invariant best.Some? ==> best.value.agentController in agents.Values
        invariant best.Some? ==> best.value.agentController.slotsProcessing == best.value.snapshot
                                 && best.value.snapshot < best.value.agentController.mirror.slotsTotal
        invariant best.Some? ==> forall id :: id in agents && id !in unvisited ==>
                    Loads()[id] >= Capacities()[id] || best.value.snapshot <= Loads()[id]
      {
        var id :| id in unvisited;
        unvisited := unvisited - {id};
        var agentController := agents[id];
        var snapshot := agentController.slotsProcessing;
        if snapshot >= agentController.mirror.slotsTotal {
          continue;
        }
        if best.None? || best.value.snapshot > snapshot {
          best := Some(DispatchCandidate(agentController, snapshot));
        }
        assert Loads()[id] == snapshot;
      }
      if best.Some? {
        ghost var id :| id in agents && agents[id] == best.value.agentController;
        assert Selected(best.value, id);
      }
    }

    /** On success the caller owns a slot guard on the candidate's controller. */
    method TryClaim(candidate: DispatchCandidate) returns (claimed: bool)
      modifies this`updates, candidate.agentController`slotsProcessing
      ensures claimed == (old(candidate.agentController.slotsProcessing) == candidate.snapshot)
      ensures candidate.agentController.slotsProcessing
              == old(candidate.agentController.slotsProcessing) + if claimed then 1 else 0
      ensures updates == old(updates) + if claimed then 1 else 0
      ensures Capacities() == old(Capacities())
      ensures forall id :: claimed && Valid() && id in agents && agents[id] == candidate.agentController ==>
                Loads() == old(Loads())[id := old(Loads())[id] + 1]
    {
      claimed := candidate.agentController.CompareAndSwap(candidate.snapshot, candidate.snapshot + 1);
      if claimed {
        updates := updates + 1;
        forall id | Valid() && id in agents && agents[id] == candidate.agentController
          ensures Loads() == old(Loads())[id := old(Loads())[id] + 1]
        {
          OneSlotTaken(id);
        }
      }
    }

    twostate lemma OneSlotTaken(id: string)
      requires old(Valid()) && agents == old(agents) && id in agents
      requires agents[id].slotsProcessing == old(agents[id].slotsProcessing) + 1
      requires forall c :: c in agents.Values && c != agents[id] ==> c.slotsProcessing == old(c.slotsProcessing)
      requires forall c :: c in agents.Values ==> c.mirror.slotsTotal == old(c.mirror.slotsTotal)
      ensures Loads() == old(Loads())[id := old(Loads())[id] + 1] && Capacities() == old(Capacities())
    {
      forall other | other in agents ensures agents[other].mirror.slotsTotal == old(agents[other].mirror.slotsTotal) {
        assert agents[other] in agents.Values;
      }
      forall other | other in agents && other != id
        ensures agents[other].slotsProcessing == old(agents[other].slotsProcessing)
      {
        assert agents[other] in agents.Values && agents[other] != agents[id];
      }
    }

    /** One round: select, then claim.  With no one else at work the claim succeeds. */
    method SelectAndClaim() returns (taken: Option<AgentController>, retry: bool)
      requires Valid()
      modifies this`updates, agents.Values
      ensures Capacities() == old(Capacities()) && !retry
      ensures taken.None? ==> AllFull(Capacities(), old(Loads())) && Loads() == old(Loads()) && updates == old(updates)
      ensures taken.Some? ==> updates == old(updates) + 1 && !AllFull(Capacities(), old(Loads()))
                              && Took(agents, Capacities(), old(Loads()), Loads(), taken.value)
    {
      taken, retry := None, false;
      var candidate := SelectLeastBusyWithCapacity();
      if candidate.Some? {
        ghost var id :| Selected(candidate.value, id);
        var claimed := TryClaim(candidate.value);
        if claimed {
          taken := Some(candidate.value.agentController);
          TookOne(agents, Capacities(), old(Loads()), Loads(), id);
        }
        retry := !claimed;
      }
    }

    /** Fails exactly when every agent is full; otherwise one slot of a least busy
        agent is taken and nothing else moves. */
    method TakeLeastBusyAgentController() returns (taken: Option<AgentController>)
      requires Valid()
      modifies this`updates, agents.Values
      ensures Valid() && agents == old(agents) && Capacities() == old(Capacities())
      ensures taken.None? <==> AllFull(Capacities(), old(Loads()))
      ensures taken.None? ==> Loads() == old(Loads()) && updates == old(updates)
      ensures taken.Some? ==> updates == old(updates) + 1
      ensures taken.Some? ==> Took(agents, Capacities(), old(Loads()), Loads(), taken.value)
    {
      taken := None;
      var retry := true;
      ghost var loads, caps := Loads(), Capacities();
      while retry
        invariant Capacities() == caps
        invariant retry || taken.None? ==> Loads() == loads && updates == old(updates)
        invariant !retry && taken.None? ==> AllFull(caps, loads)
        invariant !retry && taken.Some? ==> updates == old(updates) + 1 && !AllFull(caps, loads)
                                            && Took(agents, caps, loads, Loads(), taken.value)
        decreases retry
      {
        taken, retry := SelectAndClaim();
      }
    }

    /** A duplicate id is replaced and then reported as an error, without a send: room
        that appears in a full pool is announced exactly when the id is new. */
    method RegisterAgentController(id: string, agent: AgentController) returns (ok: bool)
      modifies this
      ensures agents == old(agents)[id := agent]
      ensures ok == (id !in old(agents))
      ensures updates == old(updates) + if ok then 1 else 0
      ensures old(Valid()) && agent !in old(agents.Values) ==> Valid()
      ensures Loads() == old(Loads())[id := agent.slotsProcessing]
      ensures Capacities() == old(Capacities())[id := agent.mirror.slotsTotal]
      ensures AllFull(old(Capacities()), old(Loads())) ==>
                (AllFull(Capacities(), Loads()) <==> agent.slotsProcessing >= agent.mirror.slotsTotal)
    {
      ok := id !in agents;
      ghost var caps, loads := Capacities(), Loads();
      agents := agents[id := agent];
      if ok {
        updates := updates + 1;
      }
      assert Loads() == loads[id := agent.slotsProcessing] && Capacities() == caps[id := agent.mirror.slotsTotal];
      if AllFull(caps, loads) {
        RoomAppears(caps, loads, id, agent.mirror.slotsTotal, agent.slotsProcessing);
      }
    }

    /** Whatever controller is registered under the id goes; the others are as before. */
    method RemoveAgentController(id: string) returns (removed: bool)
      modifies this
      ensures agents == old(agents) - {id}
      ensures removed == (id in old(agents))
      ensures updates == old(updates) + if removed then 1 else 0
      ensures old(Valid()) ==> Valid()
      ensures Loads() == old(Loads()) - {id} && Capacities() == old(Capacities()) - {id}
    {
      removed := id in agents;
      agents := agents - {id};
      if removed {
        updates := updates + 1;
      }
    }
  }

  /** Held by a dispatched request; dropping it gives the slot back, then notifies. */
  class AgentControllerSlotGuard {
    const agentController: AgentController
    const pool: AgentControllerPool

    constructor (agentController: AgentController, pool: AgentControllerPool)
      ensures this.agentController == agentController && this.pool == pool
    {
      this.agentController, this.pool := agentController, pool;
    }

    method Drop()
      modifies agentController`slotsProcessing, pool`updates
      ensures agentController.slotsProcessing == old(agentController.slotsProcessing) - 1
      ensures pool.updates == old(pool.updates) + 1
      ensures pool.Capacities() == old(pool.Capacities())
      ensures forall id :: pool.Valid() && id in pool.agents && pool.agents[id] == agentController ==>
                pool.Loads() == old(pool.Loads())[id := old(pool.Loads())[id] - 1]
    {
      agentController.slotsProcessing := agentController.slotsProcessing - 1;
      pool.updates := pool.updates + 1;
    }
  }

  /** A dispatched request holds its slot until it returns: taking and dropping leave
      every load as it was, and waiters are told of both. */
  method DispatchAndRelease(pool: AgentControllerPool) returns (dispatched: bool)
    requires pool.Valid()
    modifies pool`updates, pool.agents.Values
    ensures pool.Valid() && pool.agents == old(pool.agents)
    ensures dispatched <==> !AllFull(old(pool.Capacities()), old(pool.Loads()))
    ensures pool.Loads() == old(pool.Loads()) && pool.Capacities() == old(pool.Capacities())
    ensures pool.updates == old(pool.updates) + if dispatched then 2 else 0
  {
    var taken := pool.TakeLeastBusyAgentController();
    dispatched := taken.Some?;
    if dispatched {
      HoldAndDrop(pool, taken.value, old(pool.Loads()));
    }
  }

  method HoldAndDrop(pool: AgentControllerPool, agentController: AgentController, ghost before: map<string, int>)
    requires pool.Valid() && before.Keys == pool.agents.Keys
    requires Took(pool.agents, pool.Capacities(), before, pool.Loads(), agentController)
    modifies pool`updates, agentController`slotsProcessing
    ensures pool.Valid() && pool.agents == old(pool.agents)
    ensures pool.Loads() == before && pool.Capacities() == old(pool.Capacities())
    ensures pool.updates == old(pool.updates) + 1
  {
    ghost var id := UndoneBy(pool.agents, pool.Capacities(), before, pool.Loads(), agentController);
    var guard := new AgentControllerSlotGuard(agentController, pool);
    guard.Drop();
  }

  /** A connection registers its agent and, when it closes, removes the id.  The pool
      is as before exactly if the id was new; otherwise the agent of an earlier
      connection under that id is gone too. */
  method Connection(pool: AgentControllerPool, id: string, agent: AgentController) returns (registered: bool)
    requires pool.Valid()
    modifies pool
    ensures pool.Valid() && pool.agents == old(pool.agents) - {id}
    ensures registered <==> pool.agents == old(pool.agents)
    ensures pool.updates == old(pool.updates) + if registered then 2 else 1
  {
    RemovingUndoesPutting(pool.agents, id, agent);
    registered := pool.RegisterAgentController(id, agent);
    var _ := pool.RemoveAgentController(id);
  }

  /** A take from a pool whose loads are those of `history` continues it. */
  lemma TakeContinues(agents: map<string, AgentController>, caps: map<string, int>, history: History,
                      after: map<string, int>, agentController: AgentController)
    returns (longer: History)
    requires agents.Keys == caps.Keys && Takes(caps, history)
    requires Took(agents, caps, LoadsAfter(caps, history), after, agentController)
    ensures Length(longer) == Length(history) + 1 && Takes(caps, longer) && LoadsAfter(caps, longer) == after
  {
    var loads := LoadsAfter(caps, history);
    var id :| id in agents && agents[id] == agentController
              && LeastBusyWithRoom(caps, loads, id) && after == loads[id := loads[id] + 1];
    longer := Then(history, id);
  }

  /** Requests arriving one after another at an idle pool, none finishing: the
      loads they leave are those of a history of least-busy takes, and a request is
      turned away only once every agent is full. */
  method DispatchToIdlePool(pool: AgentControllerPool, count: nat) returns (dispatched: nat, ghost history: History)
    requires pool.Valid() && forall id :: id in pool.agents ==> pool.agents[id].slotsProcessing == 0
    modifies pool`updates, pool.agents.Values
    ensures pool.Valid() && pool.agents == old(pool.agents) && pool.Capacities() == old(pool.Capacities())
    ensures dispatched == Length(history) <= count && Takes(pool.Capacities(), history)
    ensures pool.Loads() == LoadsAfter(pool.Capacities(), history)
    ensures dispatched < count ==> AllFull(pool.Capacities(), pool.Loads())
  {
    dispatched, history := 0, Idle;
    ghost var caps := pool.Capacities();
    while dispatched < count
      invariant pool.Valid() && pool.agents == old(pool.agents) && pool.Capacities() == caps
      invariant dispatched == Length(history) <= count && Takes(caps, history)
      invariant pool.Loads() == LoadsAfter(caps, history)
    {
      var taken := pool.TakeLeastBusyAgentController();
      if taken.None? {
        return;
      }
      dispatched := dispatched + 1;
      history := TakeContinues(pool.agents, caps, history, pool.Loads(), taken.value);
    }
  }
}
