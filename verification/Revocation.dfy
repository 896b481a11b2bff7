/**
 The holder's commitment numbers: validating a new commitment, revoking the one before
 it, activating the first, splicing, and choosing the commitment a close is signed with.
 Policy is strict: a policy error refuses the request.

 Main results, over every run: the number never moves back and moves by one only when a
 stored commitment becomes current (`NumberMoves`); the secret of commitment n leaves
 only after commitments up to n + 1 were validated and stored (`SecretsFollowValidation`);
 no close uses a commitment whose secret is out (`ClosesUnrevoked`); after a close at
 number c the secret of c never leaves, exactly when c was not the current commitment
 with its successor already pending (`ClosedStaysUnrevoked`); and a close is signed with
 signatures validated for its number and content exactly when it picks the pending
 commitment, or a current one that got there under its own number and was not overwritten
 by a lock (`ClosesWithValidated`).
 */
module Revocation {
  import opened Options
  import opened Chain

  /** A validated commitment: its content and the counterparty's signatures on it. */
  datatype Commitment = Commitment(info: nat, sigs: nat)

  /** What is kept of the retiring funding during a splice. */
  datatype PrevFunding = PrevFunding(outpoint: OutPoint, current: Option<nat>, sigs: Option<nat>, pending: Option<Commitment>)

  datatype Enforcement = Enforcement(
    next: nat,
    current: Option<nat>,
    sigs: Option<nat>,
    pending: Option<Commitment>,
    prevFunding: Option<PrevFunding>,
    funding: Option<OutPoint>,
    closed: bool)

  /** A channel that has just been set up. */
  const FRESH := Enforcement(0, None, None, None, None, None, false)

  /** The transaction form knows the channel's current funding, the value form compares with the last stored one. */
  datatype Form = ByTx(currentFunding: OutPoint) | ByValue

  datatype Event =
    | Validate(num: nat, view: OutPoint, form: Form, commitment: Commitment, accepted: bool)
    | Revoke(num: nat, balanced: bool)
    | Activate
    | GetSecret(num: nat)
    | SpliceFunding(outpoint: OutPoint)
    | LockFunding(baseline: Option<nat>)
    | CloseAt(num: nat)
    | CloseForRecovery(htlcsSigned: bool, persist: bool)
    | CloseMutually

  datatype Reply = Refused | Panicked | Done | Secret(num: nat) | Closing(num: nat, commitment: Commitment)

  datatype Outcome = Outcome(state: Enforcement, reply: Reply)

  // ---- Operations ----

  /** Commitment points are handed out one past the next number, and closed channels take no new state. */
  predicate Validates(s: Enforcement, e: Event)
    requires e.Validate?
  {
    && e.accepted && e.num <= s.next + 1 && s.next < e.num + 2
    && !(e.num == s.next && s.closed)
  }

  /** A late commitment for the retiring funding. */
  predicate Straggles(s: Enforcement, e: Event)
    requires e.Validate?
  {
    && s.prevFunding.Some? && e.num + 1 == s.next
    && (match e.form case ByTx(current) => e.view != current case ByValue => s.funding != Some(e.view))
  }

  function DoValidate(s: Enforcement, e: Event): Outcome
    requires e.Validate?
  {
    if !Validates(s, e) then Outcome(s, Refused)
    else if e.num == s.next then Outcome(s.(pending := Some(e.commitment), funding := Some(e.view)), Done)
    else if Straggles(s, e) then
      Outcome(s.(prevFunding := Some(s.prevFunding.value.(pending := Some(e.commitment)))), Done)
    else Outcome(s, Done)
  }

  predicate Releasable(s: Enforcement, num: nat) {
    num + 2 <= s.next
  }

  /** The reply to a revocation that makes `num` current: the secret of the one before. */
  function ReleaseBefore(s: Enforcement, num: nat): Reply {
    if num + 1 > s.next + 1 then Refused
    else if num == 0 then Done
    else if Releasable(s, num - 1) then Secret(num - 1)
    else Refused
  }

  function Advanced(s: Enforcement, c: Commitment): Enforcement {
    s.(next := s.next + 1, current := Some(c.info), sigs := Some(c.sigs))
  }

  /** The pending commitment is taken before the balance check that may still refuse. */
  function DoRevoke(s: Enforcement, num: nat, balanced: bool): Outcome {
    if num != s.next then Outcome(s, ReleaseBefore(s, num))
    else if s.pending.None? then Outcome(s, Refused)
    else
      var taken := s.(pending := None);
      if !balanced then Outcome(taken, Refused)
      else
        var advanced := Advanced(taken, s.pending.value);
        Outcome(advanced, ReleaseBefore(advanced, num))
  }

  /** The first commitment becomes current without a revocation; during a splice it may be replaced in place. */
  function DoActivate(s: Enforcement): Outcome {
    if s.next > 1 || (s.next == 1 && s.prevFunding.None?) || s.pending.None? then Outcome(s, Refused)
    else
      var taken := s.(pending := None);
      if s.next == 0 then Outcome(Advanced(taken, s.pending.value), Done)
      else Outcome(taken.(current := Some(s.pending.value.info), sigs := Some(s.pending.value.sigs)), Done)
  }

  function Snapshot(s: Enforcement, outpoint: OutPoint): Enforcement {
    s.(prevFunding := Some(PrevFunding(outpoint, s.current, s.sigs, s.pending)), current := None, sigs := None, pending := None)
  }

  /** The commitment a close at `num` is signed with. */
  function Select(s: Enforcement, num: nat): Reply {
    if num == s.next && s.pending.Some? then Closing(num, s.pending.value)
    else if num + 1 != s.next then Refused
    else if s.current.None? then Panicked
    else if s.sigs.None? then Refused
    else Closing(num, Commitment(s.current.value, s.sigs.value))
  }

  /** The pending commitment if there is one, else the current one. */
  function SelectLatest(s: Enforcement): Reply {
    if s.pending.Some? then Select(s, s.next)
    else if s.next == 0 then Refused
    else Select(s, s.next - 1)
  }

  /** HTLC transactions are always made for the current number, which the first commitment does not have yet. */
  function DoRecovery(s: Enforcement, htlcsSigned: bool, persist: bool): Outcome {
    var selected := SelectLatest(s);
    if !selected.Closing? then Outcome(s, selected)
    else if s.next == 0 || !htlcsSigned then Outcome(s, Refused)
    else Outcome(if persist then s.(closed := true) else s, selected)
  }

  function Step(s: Enforcement, e: Event): Outcome {
    match e
    case Validate(_, _, _, _, _) => DoValidate(s, e)
    case Revoke(num, balanced) => DoRevoke(s, num, balanced)
    case Activate => DoActivate(s)
    case GetSecret(num) => Outcome(s, if Releasable(s, num) then Secret(num) else Refused)
    case SpliceFunding(o) => Outcome(Snapshot(s, o), Done)
    case LockFunding(b) => Outcome(s.(prevFunding := None, current := if b.Some? then b else s.current), Done)
    case CloseAt(num) =>
      var selected := Select(s, num);
      Outcome(if selected.Closing? then s.(closed := true) else s, selected)
    case CloseForRecovery(signed, persist) => DoRecovery(s, signed, persist)
    case CloseMutually => Outcome(s.(closed := true), Done)
  }

  // ---- Runs ----

  function Run(s: Enforcement, events: seq<Event>): Enforcement {
    if events == [] then s else Step(Run(s, events[..|events| - 1]), events[|events| - 1]).state
  }

  /** The state in which event `i` of a run arrives, and the reply it gets. */
  function Before(s: Enforcement, events: seq<Event>, i: nat): Enforcement
    requires i <= |events|
  {
    Run(s, events[..i])
  }

  function ReplyTo(s: Enforcement, events: seq<Event>, i: nat): Reply
    requires i < |events|
  {
    Step(Before(s, events, i), events[i]).reply
  }

  lemma BeforeNext(s: Enforcement, events: seq<Event>, i: nat)
    requires i < |events|
    ensures Before(s, events, i + 1) == Step(Before(s, events, i), events[i]).state
  {
    assert events[..i + 1][..i] == events[..i];
  }

  // ---- The number ----

  /** The number moves, by one, exactly when a stored commitment is activated or revoked into. */
  lemma NumberMoves(s: Enforcement, e: Event)
    ensures Step(s, e).state.next == s.next || Step(s, e).state.next == s.next + 1
    ensures Step(s, e).state.next == s.next + 1 <==>
            s.pending.Some? && ((e == Activate && s.next == 0) || e == Revoke(s.next, true))
  {
  }

  lemma {:induction false} NumberGrows(s: Enforcement, events: seq<Event>, i: nat, j: nat)
    requires i <= j <= |events|
    ensures Before(s, events, i).next <= Before(s, events, j).next
    decreases j - i
  {
    if i < j {
      NumberGrows(s, events, i, j - 1);
      BeforeNext(s, events, j - 1);
      NumberMoves(Before(s, events, j - 1), events[j - 1]);
    }
  }

  // ---- Secrets follow validation ----

  /** Event `i` stored a validated commitment with number `k`, when `k` was the next number. */
  ghost predicate StoredAt(events: seq<Event>, i: nat, k: nat) {
    && i < |events| && events[i].Validate? && events[i].num == k
    && Before(FRESH, events, i).next == k && Validates(Before(FRESH, events, i), events[i])
  }

  ghost predicate StoredBefore(events: seq<Event>, end: nat, k: nat) {
    exists i :: 0 <= i < end && StoredAt(events, i, k)
  }

  /** All numbers below the next one were stored, and so was the next one if it is pending. */
  ghost predicate AllStored(events: seq<Event>, end: nat)
    requires end <= |events|
  {
    var s := Before(FRESH, events, end);
    && (forall k :: 0 <= k < s.next ==> StoredBefore(events, end, k))
    && (s.pending.Some? ==> StoredBefore(events, end, s.next))
  }

  lemma StoredLater(events: seq<Event>, end: nat, k: nat)
    requires StoredBefore(events, end, k)
    ensures StoredBefore(events, end + 1, k)
  {
    var i :| 0 <= i < end && StoredAt(events, i, k);
  }

  lemma {:induction false} EverythingStored(events: seq<Event>, end: nat)
    requires end <= |events|
    ensures AllStored(events, end)
  {
    if end == 0 {
      assert events[..0] == [];
    } else {
      EverythingStored(events, end - 1);
      BeforeNext(FRESH, events, end - 1);
      var s := Before(FRESH, events, end - 1);
      var e := events[end - 1];
      NumberMoves(s, e);
      forall k | StoredBefore(events, end - 1, k) ensures StoredBefore(events, end, k) {
        StoredLater(events, end - 1, k);
      }
      if e.Validate? && Validates(s, e) && e.num == s.next {
        assert StoredAt(events, end - 1, s.next);
      }
    }
  }

  lemma SecretIsReleasable(s: Enforcement, e: Event)
    requires Step(s, e).reply.Secret?
    ensures Releasable(s, Step(s, e).reply.num) || (e == Revoke(s.next, true) && s.pending.Some? && s.next == Step(s, e).reply.num + 1)
  {
  }

  /** Before the secret of commitment n is out, every commitment up to n + 1 was validated and stored. */
  lemma SecretsFollowValidation(events: seq<Event>, i: nat, k: nat)
    requires i < |events| && ReplyTo(FRESH, events, i).Secret?
    requires k <= ReplyTo(FRESH, events, i).num + 1
    ensures StoredBefore(events, i, k)
  {
    EverythingStored(events, i);
    SecretIsReleasable(Before(FRESH, events, i), events[i]);
  }

  // ---- Closing ----

  lemma SelectedIsCurrent(s: Enforcement, e: Event)
    requires Step(s, e).reply.Closing?
    ensures Step(s, e).reply.num + 1 == s.next || (Step(s, e).reply.num == s.next && s.pending.Some?)
    ensures Step(s, e).state.next == s.next && Step(s, e).state.pending == s.pending
  {
  }

  /** No close is signed with a commitment whose secret left the signer earlier in the run. */
  lemma ClosesUnrevoked(s: Enforcement, events: seq<Event>, i: nat, j: nat)
    requires i < j < |events|
    requires ReplyTo(s, events, i).Secret? && ReplyTo(s, events, j).Closing?
    ensures ReplyTo(s, events, i).num < ReplyTo(s, events, j).num
  {
    SecretIsReleasable(Before(s, events, i), events[i]);
    BeforeNext(s, events, i);
    NumberGrows(s, events, i + 1, j);
    NumberGrows(s, events, i, j);
    SelectedIsCurrent(Before(s, events, j), events[j]);
  }

  /** The channel is closed, and number `c` cannot fall two behind any more. */
  ghost predicate Sealed(s: Enforcement, c: nat) {
    s.closed && s.next <= c + 1 && (s.pending.Some? ==> s.next <= c)
  }

  lemma SealedStep(s: Enforcement, c: nat, e: Event)
    requires Sealed(s, c)
    ensures Sealed(Step(s, e).state, c) && Step(s, e).reply != Secret(c)
  {
  }

  lemma {:induction false} SealedRun(s: Enforcement, c: nat, events: seq<Event>)
    requires Sealed(s, c)
    ensures Sealed(Run(s, events), c)
  {
    if events != [] {
      SealedRun(s, c, events[..|events| - 1]);
      SealedStep(Run(s, events[..|events| - 1]), c, events[|events| - 1]);
    }
  }

  /** Nothing that can follow ever reveals the secret of `c`. */
  ghost predicate NeverReveals(s: Enforcement, c: nat) {
    forall events: seq<Event>, i :: 0 <= i < |events| ==> ReplyTo(s, events, i) != Secret(c)
  }

  ghost predicate ClosesForGood(s: Enforcement, e: Event) {
    Step(s, e).reply.Closing? && (e.CloseAt? || (e.CloseForRecovery? && e.persist))
  }

  /**
   After a recorded close at `c` its secret stays in the signer forever, if and only if
   the close did not pick the current commitment while the next one was pending.
   */
  lemma ClosedStaysUnrevoked(s: Enforcement, e: Event)
    requires ClosesForGood(s, e)
    ensures var c := Step(s, e).reply.num;
            NeverReveals(Step(s, e).state, c) <==> !(c + 1 == s.next && s.pending.Some?)
  {
    var c := Step(s, e).reply.num;
    var after := Step(s, e).state;
    SelectedIsCurrent(s, e);
    if c + 1 == s.next && s.pending.Some? {
      var events := [Revoke(s.next, true)];
      assert events[..0] == [];
      assert ReplyTo(after, events, 0) == Secret(c);
    } else {
      forall events: seq<Event>, i | 0 <= i < |events| ensures ReplyTo(after, events, i) != Secret(c) {
        SealedRun(after, c, events[..i]);
        SealedStep(Before(after, events, i), c, events[i]);
      }
    }
  }

  /** Recovery always picks the latest commitment, so its secret never leaves after a recorded recovery. */
  lemma RecoveryStaysUnrevoked(s: Enforcement, htlcsSigned: bool)
    requires Step(s, CloseForRecovery(htlcsSigned, true)).reply.Closing?
    ensures NeverReveals(Step(s, CloseForRecovery(htlcsSigned, true)).state, SelectLatest(s).num)
  {
    ClosedStaysUnrevoked(s, CloseForRecovery(htlcsSigned, true));
  }

  /** When recovery succeeds, when it panics, and whether the HTLCs are signed for the number that closes. */
  lemma RecoveryOutcome(s: Enforcement, htlcsSigned: bool, persist: bool)
    ensures var reply := Step(s, CloseForRecovery(htlcsSigned, persist)).reply;
            && (reply.Closing? <==> s.next > 0 && htlcsSigned && (s.pending.Some? || (s.current.Some? && s.sigs.Some?)))
            && (reply.Panicked? <==> s.next > 0 && s.pending.None? && s.current.None?)
            && (reply.Closing? ==> (reply.num == s.next - 1 <==> s.pending.None?))
  {
  }

  // ---- What a close is signed with ----

  predicate Stores(s: Enforcement, e: Event) {
    e.Validate? && Validates(s, e) && e.num == s.next
  }

  /** The event that stored the pending commitment. */
  function PendingFrom(events: seq<Event>, end: nat): Option<nat>
    requires end <= |events|
  {
    if end == 0 then None
    else if Stores(Before(FRESH, events, end - 1), events[end - 1]) then Some(end - 1)
    else if Before(FRESH, events, end).pending.None? then None
    else PendingFrom(events, end - 1)
  }

  /**
   Where the current signatures come from: the event that stored them, whether they became
   current under their own number (a revocation or the first activation, not a re-activation
   during a splice), and whether the content beside them is still theirs (no lock has put a
   different baseline there).
   */
  datatype Origin = Nowhere | From(event: nat, ownNumber: bool, ownContent: bool)

  function CurrentFrom(events: seq<Event>, end: nat): Origin
    requires end <= |events|
  {
    if end == 0 then Nowhere
    else
      var s := Before(FRESH, events, end - 1);
      var last := CurrentFrom(events, end - 1);
      var stored := PendingFrom(events, end - 1);
      match events[end - 1]
      case Revoke(num, balanced) =>
        if num == s.next && balanced && stored.Some? then From(stored.value, true, true) else last
      case Activate =>
        if DoActivate(s).reply.Done? && stored.Some? then From(stored.value, s.next == 0, true) else last
      case SpliceFunding(_) => Nowhere
      case LockFunding(baseline) =>
        if last.From? && last.event < |events| && events[last.event].Validate? && baseline.Some?
        then last.(ownContent := baseline.value == events[last.event].commitment.info) else last
      case _ => last
  }

  /** Both origins name stored commitments, and describe what the state holds of them. */
  ghost predicate Traced(events: seq<Event>, end: nat)
    requires end <= |events|
  {
    var s := Before(FRESH, events, end);
    PendingTraced(events, end, s, PendingFrom(events, end)) && CurrentTraced(events, end, s, CurrentFrom(events, end))
  }

  ghost predicate PendingTraced(events: seq<Event>, end: nat, s: Enforcement, from: Option<nat>) {
    && (s.pending.Some? <==> from.Some?)
    && (from.Some? ==> from.value < end && StoredAt(events, from.value, s.next)
                       && s.pending == Some(events[from.value].commitment))
  }

  ghost predicate CurrentTraced(events: seq<Event>, end: nat, s: Enforcement, from: Origin) {
    match from
    case Nowhere => s.sigs.None?
    case From(i, ownNumber, ownContent) =>
      && i < end && i < |events| && events[i].Validate? && StoredAt(events, i, events[i].num)
      && s.current.Some? && s.sigs == Some(events[i].commitment.sigs)
      && (ownContent <==> s.current == Some(events[i].commitment.info))
      && (if ownNumber then events[i].num + 1 == s.next else s.next == 1 && events[i].num == 1)
  }

  lemma {:induction false} AlwaysTraced(events: seq<Event>, end: nat)
    requires end <= |events|
    ensures Traced(events, end)
  {
    if end == 0 {
      assert events[..0] == [];
    } else {
      AlwaysTraced(events, end - 1);
      BeforeNext(FRESH, events, end - 1);
      PendingStep(events, end - 1, Before(FRESH, events, end - 1), events[end - 1]);
      CurrentStep(events, end - 1, Before(FRESH, events, end - 1), events[end - 1]);
    }
  }

  lemma PendingStep(events: seq<Event>, i: nat, s: Enforcement, e: Event)
    requires i < |events| && e == events[i] && s == Before(FRESH, events, i)
    requires PendingTraced(events, i, s, PendingFrom(events, i))
    requires Before(FRESH, events, i + 1) == Step(s, e).state
    ensures PendingTraced(events, i + 1, Step(s, e).state, PendingFrom(events, i + 1))
  {
  }

  lemma CurrentStep(events: seq<Event>, i: nat, s: Enforcement, e: Event)
    requires i < |events| && e == events[i] && s == Before(FRESH, events, i)
    requires PendingTraced(events, i, s, PendingFrom(events, i)) && CurrentTraced(events, i, s, CurrentFrom(events, i))
    ensures CurrentTraced(events, i + 1, Step(s, e).state, CurrentFrom(events, i + 1))
  {
  }

  /** A close picks the pending commitment exactly when its number is the next one. */
  ghost predicate PicksPending(events: seq<Event>, i: nat)
    requires i < |events| && ReplyTo(FRESH, events, i).Closing?
  {
    ReplyTo(FRESH, events, i).num == Before(FRESH, events, i).next
  }

  /** Event `j` stored the signatures the close uses. */
  ghost predicate Supplies(events: seq<Event>, i: nat, j: nat)
    requires i < |events| && ReplyTo(FRESH, events, i).Closing?
  {
    if PicksPending(events, i) then PendingFrom(events, i) == Some(j)
    else CurrentFrom(events, i).From? && CurrentFrom(events, i).event == j
  }

  /** The close has the number and the content its signatures were validated for. */
  ghost predicate SignedForThis(events: seq<Event>, i: nat, j: nat)
    requires i < |events| && ReplyTo(FRESH, events, i).Closing?
  {
    && j < i && StoredAt(events, j, ReplyTo(FRESH, events, i).num)
    && events[j].commitment == ReplyTo(FRESH, events, i).commitment
  }

  /** The close picks the pending commitment, or a current one that got there under its own
      number and whose content no lock has replaced by another. */
  ghost predicate PicksOwn(events: seq<Event>, i: nat)
    requires i < |events| && ReplyTo(FRESH, events, i).Closing?
  {
    PicksPending(events, i) || (var from := CurrentFrom(events, i); from.From? && from.ownNumber && from.ownContent)
  }

  /**
   Over every run, splices included: the signatures of a close were stored by one event, and
   they were validated for the close's number and content if and only if it picks its own.
   */
  lemma ClosesWithValidated(events: seq<Event>, i: nat) returns (j: nat)
    requires i < |events| && ReplyTo(FRESH, events, i).Closing?
    ensures Supplies(events, i, j)
    ensures j < i && events[j].Validate? && events[j].commitment.sigs == ReplyTo(FRESH, events, i).commitment.sigs
    ensures SignedForThis(events, i, j) <==> PicksOwn(events, i)
  {
    AlwaysTraced(events, i);
    SelectedIsCurrent(Before(FRESH, events, i), events[i]);
    j := if PicksPending(events, i) then PendingFrom(events, i).value else CurrentFrom(events, i).event;
  }

  /** Some event of the run stored exactly this commitment under number `k`. */
  ghost predicate StoredPair(events: seq<Event>, end: nat, k: nat, c: Commitment) {
    exists j :: 0 <= j < end && StoredAt(events, j, k) && events[j].commitment == c
  }

  /** A signature signs one commitment: equal signatures mean the same number and content. */
  ghost predicate OneMeaning(events: seq<Event>) {
    forall i, j :: 0 <= i < |events| && 0 <= j < |events| && events[i].Validate? && events[j].Validate?
                   && events[i].commitment.sigs == events[j].commitment.sigs ==>
                     events[i].num == events[j].num && events[i].commitment == events[j].commitment
  }

  /** So the close's pair was stored for its number at all if and only if it picks its own. */
  lemma ClosesWithStored(events: seq<Event>, i: nat)
    requires i < |events| && ReplyTo(FRESH, events, i).Closing?
    ensures PicksOwn(events, i) ==> StoredPair(events, i, ReplyTo(FRESH, events, i).num, ReplyTo(FRESH, events, i).commitment)
    ensures OneMeaning(events) && StoredPair(events, i, ReplyTo(FRESH, events, i).num, ReplyTo(FRESH, events, i).commitment)
            ==> PicksOwn(events, i)
  {
    var j := ClosesWithValidated(events, i);
    var reply := ReplyTo(FRESH, events, i);
    if OneMeaning(events) && StoredPair(events, i, reply.num, reply.commitment) {
      var k :| 0 <= k < i && StoredAt(events, k, reply.num) && events[k].commitment == reply.commitment;
      assert events[k].commitment == events[j].commitment && events[k].num == events[j].num;
      StoredUnderOwn(events, i, j);
    }
  }

  lemma StoredUnderOwn(events: seq<Event>, i: nat, j: nat)
    requires i < |events| && ReplyTo(FRESH, events, i).Closing? && Supplies(events, i, j)
    ensures j < |events| && events[j].Validate? && StoredAt(events, j, events[j].num)
  {
    AlwaysTraced(events, i);
    SelectedIsCurrent(Before(FRESH, events, i), events[i]);
  }
}
