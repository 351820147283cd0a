/** The buffered-request counter: a check followed by a separate increment. */
module DispatchBuffer {
  import opened Options
  import opened Dispatch
  import opened DispatchSlots

  ghost predicate Buffered(cfg: Config, s: State) {
    && s.buffered == |CountedRequests(s)|
    && |RunningRequests(s)| <= cfg.workers
    && (cfg.maxBuffered <= 0 ==> s.buffered == 0 && |AdmittedRequests(s)| == 0)
    && (cfg.maxBuffered >= 1 ==>
          s.buffered + |AdmittedRequests(s)| <= cfg.maxBuffered + cfg.workers - 1)
  }

  /** How the three request sets change when request `r` alone is replaced. */
  lemma SetsAfterMove(s: State, t: State, r: nat)
    requires t.requests.Keys == s.requests.Keys + {r}
    requires forall q :: q in s.requests && q != r ==> t.requests[q] == s.requests[q]
    ensures |CountedRequests(t)| == |CountedRequests(s)| + Tally(t.requests[r].counted)
                                    - Tally(r in s.requests && s.requests[r].counted)
    ensures |RunningRequests(t)| == |RunningRequests(s)| + Tally(Running(t.requests[r]))
                                    - Tally(r in s.requests && Running(s.requests[r]))
    ensures |AdmittedRequests(t)| == |AdmittedRequests(s)| + Tally(t.requests[r].pc.Admitted?)
                                     - Tally(r in s.requests && s.requests[r].pc.Admitted?)
  {
    Resized(CountedRequests(s), CountedRequests(t), r);
    Resized(RunningRequests(s), RunningRequests(t), r);
    Resized(AdmittedRequests(s), AdmittedRequests(t), r);
  }

  lemma Larger(small: set<nat>, large: set<nat>)
    requires small <= large
    ensures |small| <= |large|
  {
    assert large == small + (large - small);
  }

  /** What a step of request `r` may do to the three tallies. */
  lemma TalliesOfStep(cfg: Config, s: State, step: Step)
    requires WellFormed(s) && Enabled(cfg, s, step) && MovesRequest(step)
    ensures var t := Apply(cfg, s, step);
            var q := t.requests[step.r];
            var there := step.r in s.requests;
            var counted := Tally(q.counted) - Tally(there && s.requests[step.r].counted);
            var admitted := Tally(q.pc.Admitted?) - Tally(there && s.requests[step.r].pc.Admitted?);
            var running := Tally(Running(q)) - Tally(there && Running(s.requests[step.r]));
            && t.buffered == s.buffered + counted
            && (admitted == 1 ==> counted == 0 && s.buffered < cfg.maxBuffered)
            && (admitted != 1 ==> counted + admitted <= 0)
            && (counted == 1 ==> s.requests[step.r].pc.Admitted?)
            && (running == 1 ==> |RunningRequests(s)| < cfg.workers)
  {
    if step.r in s.requests {
      assert Sound(s, s.requests[step.r]);
    }
  }

  lemma MoveKeepsBuffered(cfg: Config, s: State, step: Step)
    requires WellFormed(s) && Enabled(cfg, s, step) && Buffered(cfg, s) && MovesRequest(step)
    ensures Buffered(cfg, Apply(cfg, s, step))
  {
    var t := Apply(cfg, s, step);
    MovesOneRequest(cfg, s, step);
    SetsAfterMove(s, t, step.r);
    TalliesOfStep(cfg, s, step);
    assert step.r in s.requests && s.requests[step.r].pc.Admitted? ==> step.r in AdmittedRequests(s);
    Larger(AdmittedRequests(t), RunningRequests(t));
  }

  lemma ApplyKeepsBuffered(cfg: Config, s: State, step: Step)
    requires WellFormed(s) && Enabled(cfg, s, step) && Buffered(cfg, s)
    ensures Buffered(cfg, Apply(cfg, s, step))
  {
    var t := Apply(cfg, s, step);
    if MovesRequest(step) {
      MoveKeepsBuffered(cfg, s, step);
    } else {
      assert t.requests == s.requests && t.buffered == s.buffered;
      assert CountedRequests(t) == CountedRequests(s);
      assert RunningRequests(t) == RunningRequests(s);
      assert AdmittedRequests(t) == AdmittedRequests(s);
    }
  }

  lemma {:induction false} RunKeepsBuffered(cfg: Config, s: State, steps: seq<Step>)
    requires WellFormed(s) && Run(cfg, s, steps) && Buffered(cfg, s)
    ensures Buffered(cfg, After(cfg, s, steps))
    decreases |steps|
  {
    if steps == [] {
    } else {
      ApplyKeepsWellFormed(cfg, s, steps[0]);
      ApplyKeepsBuffered(cfg, s, steps[0]);
      RunKeepsBuffered(cfg, Apply(cfg, s, steps[0]), steps[1..]);
    }
  }

  /** In every interleaving the counter equals the live count guards; with
      buffering disabled it stays 0, and otherwise `workers` threads can push it
      past the cap by at most `workers - 1`. */
  lemma BufferOvershoot(cfg: Config, steps: seq<Step>)
    requires Run(cfg, Initial, steps)
    ensures var s := After(cfg, Initial, steps);
            && s.buffered == |CountedRequests(s)|
            && (cfg.maxBuffered <= 0 ==> s.buffered == 0)
            && (cfg.maxBuffered >= 1 ==> s.buffered <= cfg.maxBuffered + cfg.workers - 1)
  {
    assert CountedRequests(Initial) == {} && RunningRequests(Initial) == {} && AdmittedRequests(Initial) == {};
    RunKeepsBuffered(cfg, Initial, steps);
  }

  function Interval(low: nat, high: nat): (s: set<nat>)
    ensures forall r :: r in s <==> low <= r < high
    ensures low <= high ==> |s| == high - low
    decreases high
  {
    if low >= high then {} else Interval(low, high - 1) + {high - 1}
  }

  function Role(parked: nat, entered: nat, r: nat): Request {
    if r < parked then Request(Parked, true, 0)
    else if r < parked + entered then Request(Subscribing, true, 0)
    else Request(Admitted, false, 0)
  }

  /** No agents: `parked` waiting requests, then `entered` that have just been
      counted, then `admitted` that have passed the check. */
  function Crowd(parked: nat, entered: nat, admitted: nat): State {
    var requests := map r: nat {:trigger Role(parked, entered, r)} | r < parked + entered + admitted ::
      Role(parked, entered, r);
    State(map[], map[], 0, 0, requests, parked + entered)
  }

  lemma CrowdRuns(parked: nat, entered: nat, admitted: nat)
    ensures WellFormed(Crowd(parked, entered, admitted))
    ensures |RunningRequests(Crowd(parked, entered, admitted))| == entered + admitted
  {
    var s := Crowd(parked, entered, admitted);
    assert RunningRequests(s) == Interval(parked, parked + entered + admitted);
  }

  /** A newcomer finds no agent and passes the counter check. */
  lemma Admit(cfg: Config, s: State, r: nat)
    requires Reachable(cfg, s) && WellFormed(s) && s.agents == map[] && r !in s.requests
    requires |RunningRequests(s)| < cfg.workers && s.buffered < cfg.maxBuffered
    ensures Reachable(cfg, s.(requests := s.requests[r := Request(Admitted, false, 0)]))
  {
    assert s.Tenancies() == {};
    var scanning := s.(requests := s.requests[r := Request(Scanning({}, None), false, 0)]);
    Reach(cfg, s, Arrive(r));
    ApplyKeepsWellFormed(cfg, s, Arrive(r));
    assert scanning.Tenancies() == {};
    var refused := s.(requests := s.requests[r := Request(Refused, false, 0)]);
    assert Apply(cfg, scanning, FinishScan(r)) == refused;
    Reach(cfg, scanning, FinishScan(r));
    ApplyKeepsWellFormed(cfg, scanning, FinishScan(r));
    assert Apply(cfg, refused, CheckBuffer(r)) == s.(requests := s.requests[r := Request(Admitted, false, 0)]);
    Reach(cfg, refused, CheckBuffer(r));
  }

  /** A counted request subscribes, finds nothing and parks. */
  lemma Park(cfg: Config, s: State, r: nat)
    requires Reachable(cfg, s) && WellFormed(s) && s.agents == map[] && s.version == 0
    requires r in s.requests && s.requests[r] == Request(Subscribing, true, 0)
    ensures Reachable(cfg, s.(requests := s.requests[r := Request(Parked, true, 0)]))
  {
    assert s.Tenancies() == {};
    var scanning := s.(requests := s.requests[r := Request(Scanning({}, None), true, 0)]);
    Reach(cfg, s, Subscribe(r));
    ApplyKeepsWellFormed(cfg, s, Subscribe(r));
    EmptyScanParks(cfg, scanning, r);
    assert scanning.requests[r := Request(Parked, true, 0)] == s.requests[r := Request(Parked, true, 0)];
  }

  lemma EmptyScanParks(cfg: Config, s: State, r: nat)
    requires Reachable(cfg, s) && WellFormed(s) && s.agents == map[] && s.version == 0
    requires r in s.requests && s.requests[r] == Request(Scanning({}, None), true, 0)
    ensures Reachable(cfg, s.(requests := s.requests[r := Request(Parked, true, 0)]))
  {
    assert s.Tenancies() == {};
    var polling := s.At(r, Polling);
    assert Apply(cfg, s, FinishScan(r)) == polling;
    Reach(cfg, s, FinishScan(r));
    ApplyKeepsWellFormed(cfg, s, FinishScan(r));
    assert Apply(cfg, polling, PollChanged(r)) == s.(requests := s.requests[r := Request(Parked, true, 0)]);
    Reach(cfg, polling, PollChanged(r));
  }

  lemma CrowdAdmits(parked: nat, admitted: nat)
    ensures var s, r := Crowd(parked, 0, admitted), parked + admitted;
            && r !in s.requests
            && Crowd(parked, 0, admitted + 1) == s.(requests := s.requests[r := Request(Admitted, false, 0)])
  {
  }

  lemma CrowdEnters(parked: nat, entered: nat, admitted: nat)
    ensures var s, r := Crowd(parked, entered, admitted + 1), parked + entered;
            && r in s.requests && s.requests[r] == Request(Admitted, false, 0)
            && Crowd(parked, entered + 1, admitted)
               == s.(requests := s.requests[r := Request(Subscribing, true, 0)], buffered := s.buffered + 1)
  {
  }

  lemma CrowdParks(parked: nat)
    ensures var s, r := Crowd(parked, 1, 0), parked;
            && r in s.requests && s.requests[r] == Request(Subscribing, true, 0)
            && Crowd(parked + 1, 0, 0) == s.(requests := s.requests[r := Request(Parked, true, 0)])
  {
  }

  lemma AdmitNext(cfg: Config, parked: nat, admitted: nat)
    requires Reachable(cfg, Crowd(parked, 0, admitted)) && parked < cfg.maxBuffered && admitted < cfg.workers
    ensures Reachable(cfg, Crowd(parked, 0, admitted + 1))
  {
    CrowdRuns(parked, 0, admitted);
    CrowdAdmits(parked, admitted);
    Admit(cfg, Crowd(parked, 0, admitted), parked + admitted);
  }

  lemma EnterNext(cfg: Config, parked: nat, entered: nat, admitted: nat)
    requires Reachable(cfg, Crowd(parked, entered, admitted + 1))
    ensures Reachable(cfg, Crowd(parked, entered + 1, admitted))
  {
    var s := Crowd(parked, entered, admitted + 1);
    CrowdRuns(parked, entered, admitted + 1);
    CrowdEnters(parked, entered, admitted);
    Reach(cfg, s, EnterBuffer(parked + entered));
  }

  lemma ParkNext(cfg: Config, parked: nat)
    requires Reachable(cfg, Crowd(parked, 1, 0))
    ensures Reachable(cfg, Crowd(parked + 1, 0, 0))
  {
    CrowdRuns(parked, 1, 0);
    CrowdParks(parked);
    Park(cfg, Crowd(parked, 1, 0), parked);
  }

  lemma {:induction false} ReachParked(cfg: Config, parked: nat)
    requires cfg.workers >= 1 && parked <= cfg.maxBuffered
    ensures Reachable(cfg, Crowd(parked, 0, 0))
  {
    if parked == 0 {
      assert Crowd(0, 0, 0).requests == map[];
      assert Run(cfg, Initial, []) && After(cfg, Initial, []) == Crowd(0, 0, 0);
    } else {
      ReachParked(cfg, parked - 1);
      AdmitNext(cfg, parked - 1, 0);
      EnterNext(cfg, parked - 1, 0, 0);
      ParkNext(cfg, parked - 1);
    }
  }

  lemma {:induction false} ReachAdmitted(cfg: Config, parked: nat, admitted: nat)
    requires parked < cfg.maxBuffered && 1 <= cfg.workers && admitted <= cfg.workers
    ensures Reachable(cfg, Crowd(parked, 0, admitted))
  {
    if admitted == 0 {
      ReachParked(cfg, parked);
    } else {
      ReachAdmitted(cfg, parked, admitted - 1);
      AdmitNext(cfg, parked, admitted - 1);
    }
  }

  lemma {:induction false} ReachEntered(cfg: Config, parked: nat, entered: nat, admitted: nat)
    requires parked < cfg.maxBuffered && 1 <= cfg.workers && entered + admitted <= cfg.workers
    ensures Reachable(cfg, Crowd(parked, entered, admitted))
    decreases entered
  {
    if entered == 0 {
      ReachAdmitted(cfg, parked, admitted);
    } else {
      ReachEntered(cfg, parked, entered - 1, admitted + 1);
      EnterNext(cfg, parked, entered - 1, admitted);
    }
  }

  /** The bound is exact: for every cap and every number of worker threads some
      interleaving reaches it. */
  lemma OvershootIsReached(cfg: Config) returns (s: State)
    requires cfg.maxBuffered >= 1 && cfg.workers >= 1
    ensures Reachable(cfg, s) && s.buffered == cfg.maxBuffered + cfg.workers - 1
  {
    ReachEntered(cfg, cfg.maxBuffered - 1, cfg.workers, 0);
    s := Crowd(cfg.maxBuffered - 1, cfg.workers, 0);
  }
}
