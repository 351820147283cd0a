/** The dispatch policy on plain numbers: give each request to a least busy agent
    that has room.  Loads are what a history of takes, without releases, leaves on
    an idle pool. */
module LeastBusy {

  ghost predicate LeastBusyWithRoom(caps: map<string, int>, loads: map<string, int>, id: string)
    requires loads.Keys == caps.Keys
  {
    && id in caps && loads[id] < caps[id]
    && forall other :: other in caps && loads[other] < caps[other] ==> loads[id] <= loads[other]
  }

  ghost predicate AllFull(caps: map<string, int>, loads: map<string, int>)
    requires loads.Keys == caps.Keys
  {
    forall id :: id in caps ==> loads[id] >= caps[id]
  }

  /** The agents chosen, in order. */
  datatype History = Idle | Then(before: History, id: string)

  function Length(history: History): nat {
    if history.Idle? then 0 else Length(history.before) + 1
  }

  function Chosen(history: History): multiset<string> {
    if history.Idle? then multiset{} else Chosen(history.before) + multiset{history.id}
  }

  function LoadsAfter(caps: map<string, int>, history: History): (loads: map<string, int>)
    ensures loads.Keys == caps.Keys
  {
    if history.Idle? then map id | id in caps :: 0
    else
      var loads := LoadsAfter(caps, history.before);
      if history.id in caps then loads[history.id := loads[history.id] + 1] else loads
  }

  /** Every choice is a least busy agent with room at its time. */
  ghost predicate Takes(caps: map<string, int>, history: History) {
    history.Then? ==>
      && Takes(caps, history.before)
      && LeastBusyWithRoom(caps, LoadsAfter(caps, history.before), history.id)
  }

  lemma {:induction false} LoadsAreCounts(caps: map<string, int>, history: History)
    ensures forall id :: id in caps ==> LoadsAfter(caps, history)[id] == Chosen(history)[id]
    ensures |Chosen(history)| == Length(history)
  {
    if history.Then? {
      LoadsAreCounts(caps, history.before);
    }
  }

  ghost predicate Balanced(caps: map<string, int>, loads: map<string, int>)
    requires loads.Keys == caps.Keys
  {
    && (forall id :: id in caps ==> loads[id] == 0 || loads[id] <= caps[id])
    && (forall i, j :: i in caps && j in caps ==> loads[i] <= loads[j] + 1 || loads[j] >= caps[j])
  }

  lemma OneMoreKeepsBalance(caps: map<string, int>, loads: map<string, int>, id: string)
    requires loads.Keys == caps.Keys && Balanced(caps, loads) && LeastBusyWithRoom(caps, loads, id)
    ensures Balanced(caps, loads[id := loads[id] + 1])
  {
  }

  /** Two agents never differ by more than one request unless the lighter is full. */
  lemma {:induction false} LoadsStayBalanced(caps: map<string, int>, history: History)
    requires Takes(caps, history)
    ensures Balanced(caps, LoadsAfter(caps, history))
  {
    if history.Then? {
      LoadsStayBalanced(caps, history.before);
      OneMoreKeepsBalance(caps, LoadsAfter(caps, history.before), history.id);
    }
  }

  lemma StrictSubmultiset(small: multiset<string>, large: multiset<string>, x: string)
    requires small <= large && small[x] < large[x]
    ensures |small| < |large|
  {
    var extra := large - small;
    assert large == small + extra;
    assert extra[x] > 0;
    assert extra == extra[x := 0] + multiset{}[x := extra[x]];
  }

  /** A placement below `bound` everywhere has fewer requests than takes that
      exceed `bound` somewhere. */
  lemma HigherLoadMeansMoreRequests(caps: map<string, int>, history: History,
                                    placement: multiset<string>, bound: nat, id: string)
    requires Takes(caps, history)
    requires forall other :: other in placement ==> other in caps && placement[other] <= caps[other]
    requires forall other :: placement[other] <= bound
    requires id in caps && LoadsAfter(caps, history)[id] > bound
    ensures |placement| < Length(history)
  {
    LoadsStayBalanced(caps, history);
    LoadsAreCounts(caps, history);
    var loads := LoadsAfter(caps, history);
    forall other ensures placement[other] <= Chosen(history)[other] {
      if other in placement {
        assert loads[id] <= loads[other] + 1 || loads[other] >= caps[other];
      }
    }
    StrictSubmultiset(placement, Chosen(history), id);
  }

  /** No other placement of as many requests within the capacities has a smaller
      maximum load. */
  lemma TakesMinimizeMaximumLoad(caps: map<string, int>, history: History,
                                 placement: multiset<string>, bound: nat, id: string)
    requires Takes(caps, history) && |placement| == Length(history)
    requires forall other :: other in placement ==> other in caps && placement[other] <= caps[other]
    requires forall other :: placement[other] <= bound
    requires id in caps
    ensures LoadsAfter(caps, history)[id] <= bound
  {
    if LoadsAfter(caps, history)[id] > bound {
      HigherLoadMeansMoreRequests(caps, history, placement, bound, id);
      assert false;
    }
  }
}
