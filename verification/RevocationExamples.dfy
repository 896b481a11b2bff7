/**
 Runs of a channel's commitments on which the properties of `Revocation` fail: one for each
 way its exact conditions can be violated.
 */
module RevocationExamples {
  import opened Options
  import opened Chain
  import opened Revocation

  const FIRST := OutPoint(1, 0)
  const SECOND := OutPoint(2, 0)
  const VALIDATE_FIRST := Validate(0, FIRST, ByValue, Commitment(1, 1), true)
  const VALIDATE_SECOND := Validate(1, SECOND, ByValue, Commitment(2, 2), true)

  /** An open channel, and the same after a splice and the first commitment on the new funding. */
  const OPEN := Enforcement(1, Some(1), Some(1), None, None, Some(FIRST), false)
  const SPLICED := Enforcement(1, None, None, Some(Commitment(2, 2)), Some(PrevFunding(SECOND, Some(1), Some(1), None)), Some(SECOND), false)

  lemma OpenRun(events: seq<Event>)
    requires |events| >= 2 && events[0] == VALIDATE_FIRST && events[1] == Activate
    ensures Before(FRESH, events, 2) == OPEN
  {
    assert events[..0] == [];
    BeforeNext(FRESH, events, 0);
    BeforeNext(FRESH, events, 1);
    assert Step(Step(FRESH, VALIDATE_FIRST).state, Activate).state == OPEN;
  }

  lemma SplicedRun(events: seq<Event>)
    requires |events| >= 4 && events[0] == VALIDATE_FIRST && events[1] == Activate && events[2] == SpliceFunding(SECOND) && events[3] == VALIDATE_SECOND
    ensures Before(FRESH, events, 4) == SPLICED
  {
    OpenRun(events);
    BeforeNext(FRESH, events, 2);
    BeforeNext(FRESH, events, 3);
    assert Step(Snapshot(OPEN, SECOND), VALIDATE_SECOND).state == SPLICED;
  }

  /** Right after a splice replaced an open channel's setup, recovery panics. */
  lemma RecoveryAfterSplicePanics()
    ensures ReplyTo(FRESH, [VALIDATE_FIRST, Activate, SpliceFunding(SECOND), CloseForRecovery(true, true)], 3) == Panicked
  {
    var events := [VALIDATE_FIRST, Activate, SpliceFunding(SECOND), CloseForRecovery(true, true)];
    OpenRun(events);
    BeforeNext(FRESH, events, 2);
  }

  /** Locking in a splice can pair the new baseline with the signatures of an earlier commitment. */
  lemma LockedSpliceMixesPair()
    ensures
      var events := [VALIDATE_FIRST, Activate, SpliceFunding(SECOND), VALIDATE_SECOND, Revoke(1, true), LockFunding(Some(3)), CloseForRecovery(true, true)];
      ReplyTo(FRESH, events, 6) == Closing(1, Commitment(3, 2)) && !PicksOwn(events, 6)
  {
    var events := [VALIDATE_FIRST, Activate, SpliceFunding(SECOND), VALIDATE_SECOND, Revoke(1, true), LockFunding(Some(3)), CloseForRecovery(true, true)];
    SplicedRun(events);
    BeforeNext(FRESH, events, 4);
    BeforeNext(FRESH, events, 5);
    var j := ClosesWithValidated(events, 6);
  }

  /** A re-activation during a splice closes number 0 with what was validated for number 1. */
  lemma ReactivationClosesOtherNumber()
    ensures
      var events := [VALIDATE_FIRST, Activate, SpliceFunding(SECOND), VALIDATE_SECOND, Activate, CloseAt(0)];
      ReplyTo(FRESH, events, 5) == Closing(0, VALIDATE_SECOND.commitment) && !PicksOwn(events, 5)
  {
    var events := [VALIDATE_FIRST, Activate, SpliceFunding(SECOND), VALIDATE_SECOND, Activate, CloseAt(0)];
    SplicedRun(events);
    BeforeNext(FRESH, events, 4);
    var j := ClosesWithValidated(events, 5);
  }

  /** Closing the current commitment while its successor is pending does not stop its revocation. */
  lemma ClosedThenRevoked()
    ensures
      var events := [VALIDATE_FIRST, Activate, Validate(1, FIRST, ByValue, Commitment(2, 2), true), CloseAt(0), Revoke(1, true)];
      ReplyTo(FRESH, events, 3) == Closing(0, VALIDATE_FIRST.commitment) && ReplyTo(FRESH, events, 4) == Secret(0)
  {
    var events := [VALIDATE_FIRST, Activate, Validate(1, FIRST, ByValue, Commitment(2, 2), true), CloseAt(0), Revoke(1, true)];
    OpenRun(events);
    BeforeNext(FRESH, events, 2);
    BeforeNext(FRESH, events, 3);
  }
}
