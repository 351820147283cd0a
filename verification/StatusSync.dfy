/** The agent's status on its way to the balancer: torn snapshots of fields written
    one at a time, a watch channel, an ordered connection and the version check. */
module StatusSync {
  import opened StatusMirror
  import opened SnapshotsStream

  const VERSION := "version"

  /** No step lowers the version cell, as a wrap would, or removes it. */
  predicate KeepsVersion(s: State, step: Step) {
    match step
    case Write(cell, value) => cell == VERSION ==> VERSION in s.cells && value >= s.cells[VERSION]
    case Delete(cell) => cell != VERSION
    case _ => true
  }

  ghost predicate VersionNeverFalls(s: State, steps: seq<Step>)
    requires Run(s, steps)
    decreases |steps|
  {
    steps == [] || (KeepsVersion(s, steps[0]) && VersionNeverFalls(Apply(s, steps[0]), steps[1..]))
  }

  predicate AtMost(cells: Cells, version: int) {
    VERSION in cells && cells[VERSION] <= version
  }

  /** Whatever has been read or sent, however torn, is no newer than the status. */
  ghost predicate NotAhead(s: State) {
    && VERSION in s.cells
    && (forall i :: 0 <= i < |s.yielded| ==> AtMost(s.yielded[i], s.cells[VERSION]))
    && (s.pc.Reading? ==> VERSION in s.pc.unread || AtMost(s.pc.got, s.cells[VERSION]))
  }

  lemma ApplyKeepsNotAhead(s: State, step: Step)
    requires Enabled(s, step) && NotAhead(s) && KeepsVersion(s, step)
    ensures NotAhead(Apply(s, step))
  {
  }

  lemma {:induction false} RunKeepsNotAhead(s: State, steps: seq<Step>)
    requires Run(s, steps) && NotAhead(s) && VersionNeverFalls(s, steps)
    ensures NotAhead(After(s, steps))
    decreases |steps|
  {
    if steps != [] {
      ApplyKeepsNotAhead(s, steps[0]);
      RunKeepsNotAhead(Apply(s, steps[0]), steps[1..]);
    }
  }

  /** The snapshots a sequence of readings becomes on the wire. */
  function Messages(yielded: seq<Cells>, make: Cells -> Snapshot): (messages: seq<Snapshot>)
    ensures |messages| == |yielded|
  {
    seq(|yielded|, i requires 0 <= i < |yielded| => make(yielded[i]))
  }

  lemma LastReadingWins(yielded: seq<Cells>, cells: Cells, make: Cells -> Snapshot)
    requires forall c: Cells :: VERSION in c ==> make(c).version == c[VERSION]
    requires yielded != [] && yielded[|yielded| - 1] == cells && VERSION in cells
    requires forall i :: 0 <= i < |yielded| ==> AtMost(yielded[i], cells[VERSION])
    ensures var held := Deliver(Messages(yielded, make));
            held.newest == cells[VERSION] && Close(held.mirror, View(make(cells)))
  {
    var messages := Messages(yielded, make);
    forall i | 0 <= i < |messages| ensures messages[i].version <= messages[|messages| - 1].version {
      assert AtMost(yielded[i], cells[VERSION]);
    }
    RisingDelivery(messages);
  }

  /** Whenever the sender is parked, and however its readings were torn and updates
      merged, the balancer's mirror is the agent's present status, unless the sender
      can be woken, a writer has yet to notify, or a tick has yet to make the first
      snapshot or repeat a failed one. */
  lemma MirrorCatchesUp(cells: Cells, version: nat, owed: nat, first: Cells, steps: seq<Step>, make: Cells -> Snapshot)
    requires forall c: Cells :: VERSION in c ==> make(c).version == c[VERSION]
    requires VERSION in cells && AtMost(first, cells[VERSION])
    requires Run(Registered(cells, version, owed, first), steps)
    requires VersionNeverFalls(Registered(cells, version, owed, first), steps)
    requires After(Registered(cells, version, owed, first), steps).pc.Parked?
    ensures var s := After(Registered(cells, version, owed, first), steps);
            || Enabled(s, Wake) || Enabled(s, SendUpdate) || s.unsent
            || (&& VERSION in s.cells && s.yielded != []
                && Deliver(Messages(s.yielded, make)).newest == s.cells[VERSION]
                && Close(Deliver(Messages(s.yielded, make)).mirror, View(make(s.cells))))
  {
    var s := After(Registered(cells, version, owed, first), steps);
    RunKeepsUpToDate(Registered(cells, version, owed, first), steps);
    RunKeepsNotAhead(Registered(cells, version, owed, first), steps);
    if !Enabled(s, Wake) && !Enabled(s, SendUpdate) && !s.unsent {
      LastReadingWins(s.yielded, s.cells, make);
    }
  }
}
