/** The watch-driven snapshot stream, interleaved with any writers that write and
    then notify.  A snapshot is read one cell at a time, so it may be torn.  The
    agent's status sender is the same loop with a ticker beside the watch channel. */
module SnapshotsStream {
  import opened Options

  type Cells = map<string, int>

  datatype Pc =
    | Reading(unread: set<string>, got: Cells)
    | Polling
    | Parked
    | Ended

  /** `owed` counts the writers between their first write and their send; `unsent`
      says that nothing has been yielded for the version seen: the latest snapshot
      could not be made, or the loop has yet to make its first. */
  datatype State = State(
    cells: Cells,
    version: nat,
    owed: nat,
    seen: nat,
    pc: Pc,
    unsent: bool,
    yielded: seq<Cells>,
    ticking: bool)

  /** The stream subscribes, then enters its loop. */
  function Subscribed(cells: Cells, version: nat, owed: nat): State {
    State(cells, version, owed, version, Reading(cells.Keys, map[]), false, [], false)
  }

  /** The status sender registers with a first snapshot, then subscribes; its ticker
      fires at once and from then on every second. */
  function Registered(cells: Cells, version: nat, owed: nat, first: Cells): State {
    State(cells, version, owed, version, Parked, true, [first], true)
  }

  datatype Step =
    | Enter
    | Write(cell: string, value: int)
    | Delete(cell: string)
    | SendUpdate
    | ReadCell(cell: string)
    | Yield
    | FailToRead
    | PollChanged
    | Wake
    | Tick
    | ShutDown

  predicate Enabled(s: State, step: Step) {
    match step
    case Enter => true
    case Write(_, _) => s.owed > 0
    case Delete(_) => s.owed > 0
    case SendUpdate => s.owed > 0
    case ReadCell(cell) => s.pc.Reading? && cell in s.pc.unread
    case Yield => s.pc.Reading? && s.pc.unread == {}
    case FailToRead => s.pc.Reading?
    case PollChanged => s.pc.Polling?
    case Wake => s.pc.Parked? && s.seen != s.version
    case Tick => s.ticking && (s.pc.Polling? || s.pc.Parked?)
    case ShutDown => s.pc.Polling? || s.pc.Parked?
  }

  function Remake(s: State): State {
    s.(seen := s.version, pc := Reading(s.cells.Keys, map[]))
  }

  function Apply(s: State, step: Step): State
    requires Enabled(s, step)
  {
    match step
    case Enter => s.(owed := s.owed + 1)
    case Write(cell, value) => s.(cells := s.cells[cell := value])
    case Delete(cell) => s.(cells := s.cells - {cell})
    case SendUpdate => s.(owed := s.owed - 1, version := s.version + 1)
    case ReadCell(cell) =>
      var got := if cell in s.cells then s.pc.got[cell := s.cells[cell]] else s.pc.got;
      s.(pc := Reading(s.pc.unread - {cell}, got))
    case Yield => s.(pc := Polling, unsent := false, yielded := s.yielded + [s.pc.got])
    case FailToRead => s.(pc := Polling, unsent := true)
    case PollChanged => if s.seen != s.version then Remake(s) else s.(pc := Parked)
    case Wake => Remake(s)
    case Tick => s.(pc := Reading(s.cells.Keys, map[]))
    case ShutDown => s.(pc := Ended)
  }

  ghost predicate Run(s: State, steps: seq<Step>)
    decreases |steps|
  {
    steps == [] || (Enabled(s, steps[0]) && Run(Apply(s, steps[0]), steps[1..]))
  }

  ghost function After(s: State, steps: seq<Step>): State
    requires Run(s, steps)
    decreases |steps|
  {
    if steps == [] then s else After(Apply(s, steps[0]), steps[1..])
  }

  /** What the writers last made of a cell. */
  function Written(before: Option<int>, steps: seq<Step>, cell: string): Option<int>
    decreases |steps|
  {
    if steps == [] then before
    else
      var next :=
        match steps[0]
        case Write(other, value) => if other == cell then Some(value) else before
        case Delete(other) => if other == cell then None else before
        case _ => before;
      Written(next, steps[1..], cell)
  }

  function Held(s: State, cell: string): Option<int> {
    if cell in s.cells then Some(s.cells[cell]) else None
  }

  /** Reading and yielding leave the producer's cells alone. */
  lemma {:induction false} CellsAreAsWritten(s: State, steps: seq<Step>, cell: string)
    requires Run(s, steps)
    ensures Held(After(s, steps), cell) == Written(Held(s, cell), steps, cell)
    decreases |steps|
  {
    if steps != [] {
      CellsAreAsWritten(Apply(s, steps[0]), steps[1..], cell);
    }
  }

  function Count(steps: seq<Step>, step: Step): nat {
    if steps == [] then 0 else (if steps[0] == step then 1 else 0) + Count(steps[1..], step)
  }

  /** Every writer that has entered owes one send, and every send is seen. */
  lemma {:induction false} SendsAreAsTold(s: State, steps: seq<Step>)
    requires Run(s, steps)
    ensures After(s, steps).version == s.version + Count(steps, SendUpdate)
    ensures After(s, steps).owed == s.owed + Count(steps, Enter) - Count(steps, SendUpdate)
    decreases |steps|
  {
    if steps != [] {
      SendsAreAsTold(Apply(s, steps[0]), steps[1..]);
    }
  }

  /** The loop ends only when it is shut down. */
  lemma {:induction false} EndsOnlyByShutDown(s: State, steps: seq<Step>)
    requires Run(s, steps) && !s.pc.Ended? && ShutDown !in steps
    ensures !After(s, steps).pc.Ended?
    decreases |steps|
  {
    if steps != [] {
      EndsOnlyByShutDown(Apply(s, steps[0]), steps[1..]);
    }
  }

  /** A step that makes the loop look again. */
  predicate LooksAgain(s: State, step: Step) {
    step.Wake? || step.Tick? || (step.PollChanged? && s.seen != s.version)
  }

  lemma {:induction false} ReadingYields(s: State, steps: seq<Step>)
    requires Run(s, steps) && s.pc.Reading? && ShutDown !in steps && FailToRead !in steps
    ensures var t := After(s, steps); t.pc.Reading? || |t.yielded| > |s.yielded|
    decreases |steps|
  {
    if steps != [] {
      var t := Apply(s, steps[0]);
      if t.pc.Reading? {
        ReadingYields(t, steps[1..]);
      } else {
        YieldsAreKept(t, steps[1..]);
      }
    }
  }

  lemma {:induction false} YieldsAreKept(s: State, steps: seq<Step>)
    requires Run(s, steps)
    ensures s.yielded <= After(s, steps).yielded
    decreases |steps|
  {
    if steps != [] {
      YieldsAreKept(Apply(s, steps[0]), steps[1..]);
    }
  }

  /** A change that is noticed leads to a new snapshot before the loop waits again,
      unless the snapshot cannot be made or the loop is shut down. */
  lemma NoticedChangeYields(s: State, step: Step, steps: seq<Step>)
    requires Enabled(s, step) && LooksAgain(s, step) && Run(Apply(s, step), steps)
    requires ShutDown !in steps && FailToRead !in steps
    ensures Apply(s, step).cells == s.cells && (!step.Tick? ==> Apply(s, step).seen == s.version)
    ensures var t := After(Apply(s, step), steps);
            (t.pc.Parked? || t.pc.Polling?) ==> |t.yielded| > |s.yielded| && s.yielded <= t.yielded
  {
    ReadingYields(Apply(s, step), steps);
    YieldsAreKept(Apply(s, step), steps);
  }

  predicate LastYielded(s: State, cells: Cells) {
    s.yielded != [] && s.yielded[|s.yielded| - 1] == cells
  }

  /** With nothing unread and no writer mid-way, what has been read is current. */
  ghost predicate UpToDate(s: State) {
    && s.seen <= s.version
    && (s.seen == s.version && s.owed == 0 ==>
          match s.pc
          case Reading(unread, got) =>
            && unread <= s.cells.Keys && got.Keys == s.cells.Keys - unread
            && forall cell :: cell in got ==> got[cell] == s.cells[cell]
          case Ended => true
          case _ => s.unsent || LastYielded(s, s.cells))
  }

  lemma ApplyKeepsUpToDate(s: State, step: Step)
    requires Enabled(s, step) && UpToDate(s)
    ensures UpToDate(Apply(s, step))
  {
    if step.Yield? && s.seen == s.version && s.owed == 0 {
      assert s.pc.got == s.cells;
    }
  }

  lemma {:induction false} RunKeepsUpToDate(s: State, steps: seq<Step>)
    requires Run(s, steps) && UpToDate(s)
    ensures UpToDate(After(s, steps))
    decreases |steps|
  {
    if steps != [] {
      ApplyKeepsUpToDate(s, steps[0]);
      RunKeepsUpToDate(Apply(s, steps[0]), steps[1..]);
    }
  }

  /** In every interleaving a parked stream either can be woken, or waits for a
      writer's send, or failed to make its latest snapshot, or has yielded exactly
      the producer's current cells. */
  lemma ParkedStreamIsFresh(cells: Cells, version: nat, owed: nat, steps: seq<Step>)
    requires Run(Subscribed(cells, version, owed), steps)
    requires After(Subscribed(cells, version, owed), steps).pc.Parked?
    ensures var s := After(Subscribed(cells, version, owed), steps);
            Enabled(s, Wake) || Enabled(s, SendUpdate) || s.unsent || LastYielded(s, s.cells)
  {
    RunKeepsUpToDate(Subscribed(cells, version, owed), steps);
  }
}
