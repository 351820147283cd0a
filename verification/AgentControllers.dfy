/** The balancer's controller of one agent: the slot counter that dispatch claims,
    and the mirror of the agent's status. */
module AgentControllers {
  import opened StatusMirror

  /** Every field is the snapshot's, but a rate that moved by no more than 0.01 stays. */
  predicate FieldsOf(s: Snapshot, m: Mirror, rateBefore: real) {
    && m.desiredSlotsTotal == s.desiredSlotsTotal
    && m.downloadCurrent == s.downloadCurrent
    && m.downloadFilename == s.downloadFilename
    && m.downloadIndeterminate == s.downloadIndeterminate
    && m.downloadTotal == s.downloadTotal
    && m.issues == s.issues
    && m.modelPath == s.modelPath
    && m.slotsTotal == s.slotsTotal
    && m.stateApplicationStatus == s.stateApplicationStatus
    && m.usesChatTemplateOverride == s.usesChatTemplateOverride
    && m.tokensPerSecond == if -0.01 <= s.tokensPerSecond - rateBefore <= 0.01 then rateBefore else s.tokensPerSecond
  }

  class AgentController {
    var mirror: Mirror
    var newestUpdateVersion: int
    var slotsProcessing: int

    function Received(): Mirrored
      reads this
    {
      Mirrored(mirror, newestUpdateVersion)
    }

    constructor (s: Snapshot)
      ensures Received() == Deliver([s]) && slotsProcessing == s.slotsProcessing
      ensures FieldsOf(s, mirror, s.tokensPerSecond) && newestUpdateVersion == s.version
    {
      mirror, newestUpdateVersion, slotsProcessing := View(s), s.version, s.slotsProcessing;
    }

    /** AtomicValue::compare_and_swap on `slots_processing`. */
    method CompareAndSwap(current: int, next: int) returns (swapped: bool)
      modifies this`slotsProcessing
      ensures swapped == (old(slotsProcessing) == current)
      ensures slotsProcessing == if swapped then next else old(slotsProcessing)
    {
      swapped := slotsProcessing == current;
      if swapped {
        slotsProcessing := next;
      }
    }

    /** The atomic fields: each is compared with its new value and overwritten. */
    static method SetChecked(before: Mirror, s: Snapshot) returns (updated: bool, m: Mirror)
      ensures m == before.(desiredSlotsTotal := s.desiredSlotsTotal, downloadCurrent := s.downloadCurrent,
                           downloadIndeterminate := s.downloadIndeterminate, downloadTotal := s.downloadTotal,
                           slotsTotal := s.slotsTotal, stateApplicationStatus := s.stateApplicationStatus,
                           usesChatTemplateOverride := s.usesChatTemplateOverride)
      ensures updated <==> m != before
    {
      updated, m := before.desiredSlotsTotal != s.desiredSlotsTotal, before.(desiredSlotsTotal := s.desiredSlotsTotal);
      updated, m := updated || m.downloadCurrent != s.downloadCurrent, m.(downloadCurrent := s.downloadCurrent);
      updated, m := updated || m.downloadIndeterminate != s.downloadIndeterminate, m.(downloadIndeterminate := s.downloadIndeterminate);
      updated, m := updated || m.downloadTotal != s.downloadTotal, m.(downloadTotal := s.downloadTotal);
      updated, m := updated || m.slotsTotal != s.slotsTotal, m.(slotsTotal := s.slotsTotal);
      updated, m := updated || m.stateApplicationStatus != s.stateApplicationStatus, m.(stateApplicationStatus := s.stateApplicationStatus);
      updated, m := updated || m.usesChatTemplateOverride != s.usesChatTemplateOverride, m.(usesChatTemplateOverride := s.usesChatTemplateOverride);
    }

    /** The fields behind locks. */
    static method SetLocked(before: Mirror, s: Snapshot) returns (updated: bool, m: Mirror)
      ensures m == before.(downloadFilename := s.downloadFilename, issues := s.issues, modelPath := s.modelPath,
                           tokensPerSecond := if Distance(s.tokensPerSecond, before.tokensPerSecond) > 0.01
                                              then s.tokensPerSecond else before.tokensPerSecond)
      ensures updated <==> m != before
    {
      updated, m := before.downloadFilename != s.downloadFilename, before.(downloadFilename := s.downloadFilename);
      updated, m := updated || m.issues != s.issues, m.(issues := s.issues);
      updated, m := updated || m.modelPath != s.modelPath, m.(modelPath := s.modelPath);
      if Distance(s.tokensPerSecond, m.tokensPerSecond) > 0.01 {
        updated, m := true, m.(tokensPerSecond := s.tokensPerSecond);
      }
    }

    /** A field is compared with its new value and overwritten.  Reports a change
        exactly when a mirrored field changed. */
    method UpdateFromSlotAggregatedStatusSnapshot(s: Snapshot) returns (updated: bool)
      modifies this`mirror, this`newestUpdateVersion
      ensures Received() == Accepted(old(Received()), s)
      ensures s.version >= old(newestUpdateVersion) ==>
                newestUpdateVersion == s.version && FieldsOf(s, mirror, old(mirror).tokensPerSecond)
      ensures s.version < old(newestUpdateVersion) ==> !updated && newestUpdateVersion == old(newestUpdateVersion)
      ensures updated <==> mirror != old(mirror)
    {
      updated := false;
      if s.version < newestUpdateVersion {
        return;
      }
      var m, more;
      updated, m := SetChecked(mirror, s);
      newestUpdateVersion := s.version;
      more, m := SetLocked(m, s);
      updated := updated || more;
      mirror := m;
    }
  }
}
