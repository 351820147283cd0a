/** The agent's status, and what a version-checked mirror of it holds. */
module StatusMirror {
  import opened Options

  const I32_MAX := 0x7fff_ffff
  const TWO_TO_THE_32 := 0x1_0000_0000

  /** `fetch_add` and `fetch_sub` wrap around. */
  function Wrap32(x: int): (y: int)
    ensures -I32_MAX - 1 <= y <= I32_MAX && (y - x) % TWO_TO_THE_32 == 0
  {
    (x + I32_MAX + 1) % TWO_TO_THE_32 - I32_MAX - 1
  }

  /** The version after `bumps` increments. */
  function Bumped(version: int, bumps: nat): int {
    Wrap32(version + bumps)
  }

  datatype Snapshot = Snapshot(
    desiredSlotsTotal: int,
    downloadCurrent: int,
    downloadFilename: Option<string>,
    downloadIndeterminate: bool,
    downloadTotal: int,
    issues: set<string>,
    modelPath: Option<string>,
    slotsProcessing: int,
    slotsTotal: int,
    stateApplicationStatus: int,
    tokensPerSecond: real,
    usesChatTemplateOverride: bool,
    version: int)

  /** The agent's side; `updates` is the version of its update channel. */
  class SlotAggregatedStatus {
    var status: Snapshot
    var updates: nat

    method Notify()
      modifies this`updates
      ensures updates > old(updates)
    {
      updates := updates + 1;
    }

    /** The mutators that write one field: the slot counters, the download count and
        filename, the model path, the application status, the template override. */
    method Publish(next: Snapshot)
      requires next.version == status.version
      modifies this
      ensures status == next.(version := Bumped(next.version, 1)) && updates > old(updates)
    {
      status := next.(version := Bumped(next.version, 1));
      Notify();
    }

    /** Issues are reported without a new version. */
    method RegisterIssue(issue: string)
      modifies this
      ensures status == old(status).(issues := old(status).issues + {issue})
      ensures updates > old(updates) <==> status != old(status)
    {
      if issue !in status.issues {
        status := status.(issues := status.issues + {issue});
        Notify();
      }
    }

    method RegisterFix(fixable: set<string>)
      modifies this
      ensures status == old(status).(issues := old(status).issues - fixable)
      ensures updates > old(updates) <==> status != old(status)
    {
      var kept := status.issues - fixable;
      if kept != status.issues {
        status := status.(issues := kept);
        Notify();
      }
    }

    method SetDownloadStatus(current: nat, total: Option<nat>, filename: Option<string>)
      modifies this
      ensures status == old(status).(
                downloadCurrent := current,
                downloadTotal := if total.Some? then total.value else 0,
                downloadIndeterminate := total.None?,
                downloadFilename := filename,
                version := Bumped(old(status).version, 1))
      ensures updates > old(updates)
    {
      status := status.(downloadCurrent := current);
      if total.Some? {
        status := status.(downloadTotal := total.value, downloadIndeterminate := false);
      } else {
        status := status.(downloadTotal := 0, downloadIndeterminate := true);
      }
      Publish(status.(downloadFilename := filename));
    }

    method ResetDownload()
      modifies this
      ensures status == old(status).(
                downloadCurrent := 0, downloadTotal := 0, downloadIndeterminate := true, downloadFilename := None,
                version := Bumped(old(status).version, 2))
      ensures updates > old(updates)
    {
      status := status.(downloadCurrent := 0, downloadTotal := 0, downloadIndeterminate := true);
      Publish(status.(downloadFilename := None));
      Publish(status);
    }

    method Reset()
      modifies this
      ensures status == old(status).(issues := {}, modelPath := None, slotsProcessing := 0, slotsTotal := 0,
                                     version := Bumped(old(status).version, 2))
      ensures updates > old(updates)
    {
      status := status.(issues := {});
      Publish(status.(modelPath := None));
      Publish(status.(slotsProcessing := 0, slotsTotal := 0));
    }
  }

  /** The fields the balancer copies; `slots_processing` is not one of them. */
  datatype Mirror = Mirror(
    desiredSlotsTotal: int,
    downloadCurrent: int,
    downloadFilename: Option<string>,
    downloadIndeterminate: bool,
    downloadTotal: int,
    issues: set<string>,
    modelPath: Option<string>,
    slotsTotal: int,
    stateApplicationStatus: int,
    tokensPerSecond: real,
    usesChatTemplateOverride: bool)

  function View(s: Snapshot): Mirror {
    Mirror(s.desiredSlotsTotal, s.downloadCurrent, s.downloadFilename, s.downloadIndeterminate, s.downloadTotal,
           s.issues, s.modelPath, s.slotsTotal, s.stateApplicationStatus, s.tokensPerSecond,
           s.usesChatTemplateOverride)
  }

  function Distance(x: real, y: real): real {
    if x >= y then x - y else y - x
  }

  /** Equal fields, rates within 0.01. */
  predicate Close(m: Mirror, n: Mirror) {
    m.(tokensPerSecond := n.tokensPerSecond) == n && Distance(m.tokensPerSecond, n.tokensPerSecond) <= 0.01
  }

  /** An accepted snapshot is copied, except for a rate that barely moved. */
  function Copied(m: Mirror, s: Snapshot): (n: Mirror)
    ensures Close(n, View(s))
  {
    if Distance(s.tokensPerSecond, m.tokensPerSecond) > 0.01 then View(s)
    else View(s).(tokensPerSecond := m.tokensPerSecond)
  }

  datatype Mirrored = Mirrored(mirror: Mirror, newest: int)

  /** A snapshot older than the newest one accepted changes nothing. */
  function Accepted(before: Mirrored, s: Snapshot): Mirrored {
    if s.version < before.newest then before else Mirrored(Copied(before.mirror, s), s.version)
  }

  /** The mirror after a controller built from `s[0]` is delivered the rest. */
  function Deliver(s: seq<Snapshot>): Mirrored
    requires s != []
  {
    var last := s[|s| - 1];
    if |s| == 1 then Mirrored(View(last), last.version)
    else Accepted(Deliver(s[..|s| - 1]), last)
  }

  /** No snapshot has a greater version than the k-th, nor any later one an equal one. */
  predicate Latest(s: seq<Snapshot>, k: nat) {
    && k < |s|
    && (forall j :: 0 <= j < |s| ==> s[j].version <= s[k].version)
    && (forall j :: k < j < |s| ==> s[j].version < s[k].version)
  }

  /** In whatever order snapshots arrive, the mirror holds the last delivered one of
      the greatest version. */
  lemma {:induction false} MirrorIsLatest(s: seq<Snapshot>) returns (k: nat)
    requires s != []
    ensures Latest(s, k)
    ensures Deliver(s).newest == s[k].version && Close(Deliver(s).mirror, View(s[k]))
    decreases |s|
  {
    if |s| == 1 {
      k := 0;
    } else {
      var before := s[..|s| - 1];
      k := MirrorIsLatest(before);
      assert forall j :: 0 <= j < |before| ==> s[j] == before[j];
      if s[|s| - 1].version >= before[k].version {
        k := |s| - 1;
      }
    }
  }

  lemma LatestIsUnique(s: seq<Snapshot>, j: nat, k: nat)
    requires Latest(s, j) && Latest(s, k)
    ensures j == k
  {
    assert s[j].version == s[k].version;
  }

  /** A status that is `bumps` bumps ahead of the newest one is discarded exactly when
      the version has wrapped on the way. */
  lemma BumpsAreDiscardedIff(s: seq<Snapshot>, next: Snapshot, bumps: nat)
    requires s != [] && -I32_MAX - 1 <= Deliver(s).newest <= I32_MAX && 0 < bumps < TWO_TO_THE_32
    requires next.version == Bumped(Deliver(s).newest, bumps)
    ensures Deliver(s + [next]) == Deliver(s) <==> Deliver(s).newest + bumps > I32_MAX
  {
    assert (s + [next])[..|s|] == s;
  }

  /** After a wrap everything is discarded until the version has gone all the way
      round, a full 2^32 bumps. */
  lemma {:induction false} DiscardedUntilWrappedRound(s: seq<Snapshot>, later: seq<Snapshot>, bumps: seq<nat>)
    requires s != [] && -I32_MAX - 1 <= Deliver(s).newest <= I32_MAX && |bumps| == |later|
    requires forall i :: 0 <= i < |later| ==>
               I32_MAX - Deliver(s).newest < bumps[i] < TWO_TO_THE_32
               && later[i].version == Bumped(Deliver(s).newest, bumps[i])
    ensures Deliver(s + later) == Deliver(s)
    decreases |later|
  {
    if later == [] {
      assert s + later == s;
    } else {
      var n := |later| - 1;
      DiscardedUntilWrappedRound(s, later[..n], bumps[..n]);
      assert (s + later)[..|s| + n] == s + later[..n];
      BumpsAreDiscardedIff(s, later[n], bumps[n]);
    }
  }

  /** The statuses an agent goes through, write by write, and the bumps between them. */
  ghost predicate History(h: seq<Snapshot>, bumps: seq<nat>) {
    && |h| == |bumps| + 1
    && (forall i :: 0 <= i < |h| ==> -I32_MAX - 1 <= h[i].version <= I32_MAX)
    && (forall i :: 0 <= i < |bumps| ==>
          bumps[i] < TWO_TO_THE_32 && h[i + 1].version == Bumped(h[i].version, bumps[i]))
  }

  ghost predicate NeverWraps(h: seq<Snapshot>, bumps: seq<nat>)
    requires |h| == |bumps| + 1
  {
    forall i :: 0 <= i < |bumps| ==> h[i].version + bumps[i] <= I32_MAX
  }

  /** The points of the history at which a snapshot is sent: some may be skipped,
      some sent again. */
  ghost predicate InOrder(h: seq<Snapshot>, at: seq<nat>) {
    && (forall i :: 0 <= i < |at| ==> at[i] < |h|)
    && (forall i, j :: 0 <= i <= j < |at| ==> at[i] <= at[j])
  }

  ghost function Sent(h: seq<Snapshot>, at: seq<nat>): (s: seq<Snapshot>)
    requires InOrder(h, at)
    ensures |s| == |at|
  {
    seq(|at|, i requires 0 <= i < |at| => h[at[i]])
  }

  ghost predicate CaughtUp(h: seq<Snapshot>, at: seq<nat>)
    requires at != [] && InOrder(h, at)
  {
    var last := h[at[|at| - 1]];
    Deliver(Sent(h, at)).newest == last.version && Close(Deliver(Sent(h, at)).mirror, View(last))
  }

  /** However the watch channel merges updates, the mirror is always the last snapshot
      sent in order, exactly if no step of the history wraps the version. */
  lemma InOrderDeliveryCatchesUpIff(h: seq<Snapshot>, bumps: seq<nat>)
    requires History(h, bumps)
    ensures NeverWraps(h, bumps) <==> forall at :: at != [] && InOrder(h, at) ==> CaughtUp(h, at)
  {
    if NeverWraps(h, bumps) {
      forall at | at != [] && InOrder(h, at) ensures CaughtUp(h, at) {
        SentIsCaughtUp(h, bumps, at);
      }
    } else {
      var i :| 0 <= i < |bumps| && h[i].version + bumps[i] > I32_MAX;
      WrapIsNotCaughtUp(h, bumps, i);
    }
  }

  lemma SentIsCaughtUp(h: seq<Snapshot>, bumps: seq<nat>, at: seq<nat>)
    requires History(h, bumps) && NeverWraps(h, bumps) && at != [] && InOrder(h, at)
    ensures CaughtUp(h, at)
  {
    var s := Sent(h, at);
    forall i, j | 0 <= i <= j < |s| ensures s[i].version <= s[j].version {
      VersionsRise(h, bumps, at[i], at[j]);
    }
    RisingDelivery(s);
  }

  /** Snapshots of rising versions are all accepted. */
  lemma RisingDelivery(s: seq<Snapshot>)
    requires s != [] && forall i :: 0 <= i < |s| ==> s[i].version <= s[|s| - 1].version
    ensures Deliver(s).newest == s[|s| - 1].version && Close(Deliver(s).mirror, View(s[|s| - 1]))
  {
    var k := MirrorIsLatest(s);
    assert Latest(s, |s| - 1);
    LatestIsUnique(s, k, |s| - 1);
  }

  lemma WrapIsNotCaughtUp(h: seq<Snapshot>, bumps: seq<nat>, i: nat)
    requires History(h, bumps) && i < |bumps| && h[i].version + bumps[i] > I32_MAX
    ensures InOrder(h, [i, i + 1]) && !CaughtUp(h, [i, i + 1])
  {
    var at := [i, i + 1];
    var s := Sent(h, at);
    assert s[..1] == [h[i]];
    assert h[i + 1].version == Bumped(h[i].version, bumps[i]) < h[i].version;
    assert Deliver(s).newest == h[i].version && at[1] == i + 1;
  }

  lemma {:induction false} VersionsRise(h: seq<Snapshot>, bumps: seq<nat>, i: nat, j: nat)
    requires i <= j < |h| && History(h, bumps) && NeverWraps(h, bumps)
    ensures h[i].version <= h[j].version
    decreases j
  {
    if i < j {
      VersionsRise(h, bumps, i, j - 1);
      assert h[j - 1 + 1].version == Bumped(h[j - 1].version, bumps[j - 1]);
    }
  }
}
