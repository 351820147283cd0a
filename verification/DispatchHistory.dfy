/** The registry as its history tells it: which agents are listed, under which
    controller, and with how many slots. */
module DispatchHistory {
  import opened Options
  import opened Dispatch

  /** The controller the last registration of `id` brought, unless removed since. */
  function Registered(before: Option<nat>, steps: seq<Step>, id: string): Option<nat>
    decreases |steps|
  {
    if steps == [] then before
    else
      var next :=
        match steps[0]
        case Insert(i, c, _, _) => if i == id then Some(c) else before
        case Remove(i) => if i == id then None else before
        case _ => before;
      Registered(next, steps[1..], id)
  }

  /** The slots controller `c` was last said to have. */
  function Slots(before: Option<int>, steps: seq<Step>, c: nat): Option<int>
    decreases |steps|
  {
    if steps == [] then before
    else
      var next :=
        match steps[0]
        case Insert(_, d, _, total) => if d == c then Some(total) else before
        case SetTotal(d, total) => if d == c then Some(total) else before
        case _ => before;
      Slots(next, steps[1..], c)
  }

  function ListedAs(s: State, id: string): Option<nat> {
    if id in s.agents then Some(s.agents[id].controller) else None
  }

  function TotalOf(s: State, c: nat): Option<int> {
    if c in s.controllers then Some(s.controllers[c].total) else None
  }

  lemma {:induction false} RunListsAsTold(cfg: Config, s: State, steps: seq<Step>, id: string)
    requires WellFormed(s) && Run(cfg, s, steps)
    ensures ListedAs(After(cfg, s, steps), id) == Registered(ListedAs(s, id), steps, id)
    decreases |steps|
  {
    if steps != [] {
      ApplyKeepsWellFormed(cfg, s, steps[0]);
      RunListsAsTold(cfg, Apply(cfg, s, steps[0]), steps[1..], id);
    }
  }

  lemma {:induction false} RunCountsSlotsAsTold(cfg: Config, s: State, steps: seq<Step>, c: nat)
    requires WellFormed(s) && Run(cfg, s, steps)
    ensures TotalOf(After(cfg, s, steps), c) == Slots(TotalOf(s, c), steps, c)
    decreases |steps|
  {
    if steps != [] {
      ApplyKeepsWellFormed(cfg, s, steps[0]);
      RunCountsSlotsAsTold(cfg, Apply(cfg, s, steps[0]), steps[1..], c);
    }
  }

  /** The steps that owe the watch channel a send: removals, status updates and the
      registrations of new ids. */
  ghost function OwingSteps(cfg: Config, s: State, steps: seq<Step>): nat
    requires WellFormed(s) && Run(cfg, s, steps)
    decreases |steps|
  {
    if steps == [] then 0
    else
      ApplyKeepsWellFormed(cfg, s, steps[0]);
      Tally(steps[0].Remove? || steps[0].SetTotal? || (steps[0].Insert? && steps[0].id !in s.agents))
      + OwingSteps(cfg, Apply(cfg, s, steps[0]), steps[1..])
  }

  function UpdatesSent(steps: seq<Step>): nat {
    if steps == [] then 0 else Tally(steps[0].SendUpdate?) + UpdatesSent(steps[1..])
  }

  function Sends(steps: seq<Step>): nat {
    if steps == [] then 0
    else Tally(steps[0].SendUpdate? || steps[0].SendClaim? || steps[0].SendRelease?) + Sends(steps[1..])
  }

  /** Every send is seen on the channel, and pays off one that was owed. */
  lemma {:induction false} RunSendsAsTold(cfg: Config, s: State, steps: seq<Step>)
    requires WellFormed(s) && Run(cfg, s, steps)
    ensures var t := After(cfg, s, steps);
            && t.version == s.version + Sends(steps)
            && t.owed == s.owed + OwingSteps(cfg, s, steps) - UpdatesSent(steps)
    decreases |steps|
  {
    if steps != [] {
      ApplyKeepsWellFormed(cfg, s, steps[0]);
      RunSendsAsTold(cfg, Apply(cfg, s, steps[0]), steps[1..]);
    }
  }

  /** Claims, releases and waiting never touch the registry: in every run it is what
      registrations, removals and status updates made it. */
  lemma RegistryFollowsHistory(cfg: Config, steps: seq<Step>, id: string, c: nat)
    requires Run(cfg, Initial, steps)
    ensures var s := After(cfg, Initial, steps);
            && ListedAs(s, id) == Registered(None, steps, id)
            && TotalOf(s, c) == Slots(None, steps, c)
  {
    RunListsAsTold(cfg, Initial, steps, id);
    RunCountsSlotsAsTold(cfg, Initial, steps, c);
  }
}
