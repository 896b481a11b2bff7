/**
 Concrete runs on which the properties of the ledger fail, one or more for each of the exact
 statements `PanicsExactly`, `InvoicedIsBounded`, `BadExpiryFreezes` and `LedgerMirrorsCommitments`.
 */
module LedgerExamples {
  import opened Options
  import opened Sums
  import opened Ledger
  import opened ChannelPayments
  import opened LedgerRuns
  import opened LedgerBounds
  import opened LedgerMirror
  import opened LedgerBalances

  const POLICY := Policy(true, 0, 0, 0)
  const EVEN := BalanceDelta(0, 0)
  const HTLC := Htlc(9, 0, 10)

  /** A commitment that only holds HTLCs, and one that only gives us an output. */
  function Carrying(offered: seq<Htlc>, received: seq<Htlc>): CommitmentInfo {
    CommitmentInfo(false, 0, 0, offered, received)
  }

  function Paying(isCounterparty: bool, ours: nat): CommitmentInfo {
    if isCounterparty then CommitmentInfo(true, ours, 0, [], []) else CommitmentInfo(false, 0, ours, [], [])
  }

  function InFlight(incoming: map<ChannelId, nat>, outgoing: map<ChannelId, nat>): RoutedPayment {
    RoutedPayment(incoming, outgoing, None, None, None)
  }

  lemma {:induction false} TwoSteps(n: Node, policy: Policy, a: Event, b: Event, n1: Node, n2: Node)
    requires Step(n, policy, a) == Some(n1) && Step(n1, policy, b) == Some(n2)
    ensures Run(n, policy, [a, b]) == Some(n2)
  {
    assert [a, b][1..] == [b] && [b][1..] == [];
    assert Run(n2, policy, []) == Some(n2);
    assert Run(n1, policy, [b]) == Some(n2);
  }

  lemma AmountOne(h: Htlc)
    ensures Named([h]) == {h.paymentHash} && Named([]) == {}
    ensures Amount([h], h.paymentHash) == h.valueSat && Amount([], h.paymentHash) == 0
  {
    assert [h][0].paymentHash in Named([h]);
    assert [h][1..] == [];
  }

  lemma SumOne(k: ChannelId, v: nat)
    ensures Sum(map[k := v]) == v
  {
    var m: map<ChannelId, nat> := map[];
    assert Sum(m) == 0;
    SumUpdate(m, k, v);
    assert m[k := v] == map[k := v];
  }

  // ---------------------------------------------------------------------------
  // Two kept commitments spend the register twice
  // ---------------------------------------------------------------------------

  const FUNDING := Funding(100, false, 0)
  const FULL := Commitments(Some(Paying(false, 10)), Some(Paying(true, 10)), None)
  const EMPTIED := Paying(false, 0)
  const DRAIN := BalanceDelta(10, 0)

  /** Two channels worth 10 each, and 10 in the register. */
  const PAIR := Node(NodeState(map[], map[], map[], 10), map[1 := FULL, 2 := FULL])

  lemma DrainNamesNothing(c: ChannelId)
    ensures HolderUpdate(c, FULL, EMPTIED, DRAIN).Hashes() == {}
  {
  }

  /** The change is the one the channel works out. */
  lemma DrainIsPriced(known: set<Hash>)
    ensures HolderDelta(known, FUNDING, FULL, EMPTIED) == Some(DRAIN)
  {
  }

  function Kept(n: Node, c: ChannelId): Node {
    n.(channels := n.channels[c := FULL.(pending := Some(EMPTIED))])
  }

  lemma DrainKept(n: Node, c: ChannelId)
    requires n.ledger == PAIR.ledger && Of(n, c) == FULL
    ensures Step(n, POLICY, Hold(c, EMPTIED, DRAIN, true)) == Some(Kept(n, c))
  {
    DrainNamesNothing(c);
    assert VerdictOn(n, POLICY, Hold(c, EMPTIED, DRAIN, true)) == Accepted;
  }

  const DRAINED_LEDGER := NodeState(map[], map[], map[], 0)

  function Drained(n: Node, c: ChannelId): Node {
    Node(DRAINED_LEDGER, n.channels[c := FULL.(holder := Some(EMPTIED))])
  }

  lemma DrainRevoked(n: Node, c: ChannelId)
    requires n.ledger == PAIR.ledger && Of(n, c) == FULL.(pending := Some(EMPTIED))
    ensures Step(n, POLICY, Revoke(c, Some(DRAIN))) == Some(Drained(n, c))
  {
    DrainNamesNothing(c);
    var u := HolderUpdate(c, Of(n, c), EMPTIED, DRAIN);
    assert u == HolderUpdate(c, FULL, EMPTIED, DRAIN);
    var s := ApplyPayments(n.ledger, POLICY, u).value;
    assert s.payments == map[] && s.issued == map[];
  }

  /** Holder commitments of two channels are validated one after the other, each within the
      register; the first revocation spends it, and the second panics. */
  lemma RevokedTogetherPanics()
    ensures
      var kept := Run(PAIR, POLICY, [Hold(1, EMPTIED, DRAIN, true), Hold(2, EMPTIED, DRAIN, true)]);
      && kept.Some? && Step(kept.value, POLICY, Revoke(1, Some(DRAIN))).Some?
      && Step(Step(kept.value, POLICY, Revoke(1, Some(DRAIN))).value, POLICY, Revoke(2, Some(DRAIN))).None?
  {
    var n1 := Kept(PAIR, 1);
    var n2 := Kept(n1, 2);
    DrainKept(PAIR, 1);
    DrainKept(n1, 2);
    TwoSteps(PAIR, POLICY, Hold(1, EMPTIED, DRAIN, true), Hold(2, EMPTIED, DRAIN, true), n1, n2);
    DrainRevoked(n2, 1);
    PanicsExactly(Step(n2, POLICY, Revoke(1, Some(DRAIN))).value, POLICY, Revoke(2, Some(DRAIN)));
  }

  const FUNDINGS := map[1 := FUNDING, 2 := FUNDING]

  /** The two channels, before and after they are drained. */
  predicate Plainly(n: Node) {
    && n.ledger.payments == map[] && n.ledger.invoices == map[] && n.channels.Keys == {1, 2}
    && forall c :: c in n.channels ==>
         && n.channels[c].counterparty == FULL.counterparty
         && (n.channels[c].holder == FULL.holder || n.channels[c].holder == Some(EMPTIED))
  }

  lemma PlainlyFits(n: Node, c: ChannelId)
    requires Plainly(n) && c in FUNDINGS
    ensures Fits(FUNDINGS[c], Of(n, c))
  {
  }

  lemma PlainlyMirrors(n: Node, c: ChannelId, h: Hash)
    requires Plainly(n)
    ensures Mirrors(n, c, h)
  {
  }

  lemma PlainlySane(n: Node)
    requires Plainly(n)
    ensures Sane(n, FUNDINGS)
  {
    forall c | c in FUNDINGS ensures Fits(FUNDINGS[c], Of(n, c)) { PlainlyFits(n, c); }
    forall c: ChannelId, h: Hash ensures Mirrors(n, c, h) { PlainlyMirrors(n, c, h); }
  }

  lemma KeptAttached(n: Node, e: Event, c: ChannelId, h: Hash)
    requires e.Hold? || e.Revoke?
    ensures !Detaches(n, POLICY, e, c, h)
  {
  }

  lemma PlainlyUnknown(n: Node)
    requires Plainly(n)
    ensures KnownHashes(n.ledger) == {}
  {
  }

  lemma PlainlyRegular(n: Node, e: Event, n': Node)
    requires Plainly(n) && Plainly(n') && Step(n, POLICY, e) == Some(n') && (e.Hold? || e.Revoke?) && Priced(n, FUNDINGS, e)
    ensures Regular(n, POLICY, FUNDINGS, e)
  {
    PlainlySane(n');
    PlainlyUnknown(n);
    PlainlyUnknown(n');
    forall c: ChannelId, h: Hash ensures !Detaches(n, POLICY, e, c, h) { KeptAttached(n, e, c, h); }
  }

  lemma HoldIsRegular(n: Node, c: ChannelId)
    requires Plainly(n) && n.ledger == PAIR.ledger && c in n.channels && Of(n, c) == FULL
    ensures Plainly(Kept(n, c)) && Regular(n, POLICY, FUNDINGS, Hold(c, EMPTIED, DRAIN, true))
  {
    DrainKept(n, c);
    DrainIsPriced(KnownHashes(n.ledger));
    PlainlyRegular(n, Hold(c, EMPTIED, DRAIN, true), Kept(n, c));
  }

  lemma RevokeIsRegular(n: Node, c: ChannelId)
    requires Plainly(n) && n.ledger == PAIR.ledger && c in n.channels && Of(n, c) == FULL.(pending := Some(EMPTIED))
    ensures Regular(n, POLICY, FUNDINGS, Revoke(c, Some(DRAIN)))
  {
    DrainRevoked(n, c);
    DrainIsPriced(KnownHashes(n.ledger));
    PlainlyRegular(n, Revoke(c, Some(DRAIN)), Drained(n, c));
  }

  /** That run is a regular one, up to the revocation that panics. */
  lemma DrainIsRegular()
    ensures Sane(PAIR, FUNDINGS)
    ensures
      var es := [Hold(1, EMPTIED, DRAIN, true), Hold(2, EMPTIED, DRAIN, true), Revoke(1, Some(DRAIN))];
      RegularRun(PAIR, POLICY, FUNDINGS, es) && Run(PAIR, POLICY, es).Some?
  {
    var n1 := Kept(PAIR, 1);
    var n2 := Kept(n1, 2);
    PlainlySane(PAIR);
    HoldIsRegular(PAIR, 1);
    DrainKept(PAIR, 1);
    HoldIsRegular(n1, 2);
    DrainKept(n1, 2);
    RevokeIsRegular(n2, 1);
    DrainRevoked(n2, 1);
    ThreeRegular(PAIR, Hold(1, EMPTIED, DRAIN, true), Hold(2, EMPTIED, DRAIN, true), Revoke(1, Some(DRAIN)),
                 n1, n2, Drained(n2, 1));
  }

  lemma {:induction false} ThreeRegular(n: Node, a: Event, b: Event, c: Event, n1: Node, n2: Node, n3: Node)
    requires Step(n, POLICY, a) == Some(n1) && Step(n1, POLICY, b) == Some(n2) && Step(n2, POLICY, c) == Some(n3)
    requires Regular(n, POLICY, FUNDINGS, a) && Regular(n1, POLICY, FUNDINGS, b) && Regular(n2, POLICY, FUNDINGS, c)
    ensures RegularRun(n, POLICY, FUNDINGS, [a, b, c]) && Run(n, POLICY, [a, b, c]) == Some(n3)
  {
    assert [a, b, c][1..] == [b, c] && [b, c][1..] == [c] && [c][1..] == [];
    assert RegularRun(n3, POLICY, FUNDINGS, []) && Run(n3, POLICY, []) == Some(n3);
    assert RegularRun(n2, POLICY, FUNDINGS, [c]) && Run(n2, POLICY, [c]) == Some(n3);
    assert RegularRun(n1, POLICY, FUNDINGS, [b, c]) && Run(n1, POLICY, [b, c]) == Some(n3);
  }

  // ---------------------------------------------------------------------------
  // Two kept commitments pay an invoice twice
  // ---------------------------------------------------------------------------

  const INVOICE := PaymentState(0, 10000, 0, 0, false, PaymentType.Invoice)
  const OFFER := Carrying([HTLC], [])

  function Invoiced(p: RoutedPayment): NodeState {
    NodeState(map[9 := INVOICE], map[], map[9 := p], 0)
  }

  /** One invoice of 10000 msat, and two channels that have nothing in flight. */
  const UNPAID := Node(Invoiced(NEW_PAYMENT), map[])

  lemma OfferUpdate(c: ChannelId)
    ensures
      var u := HolderUpdate(c, NO_COMMITMENTS, OFFER, EVEN);
      && u.incoming == map[] && u.outgoing == map[9 := 10] && u.Hashes() == {9} && u.info == Some(OFFER)
      && IncomingCltv(u.info, 9) == None && OutgoingCltv(u.info, 9) == Some(0)
  {
    AmountOne(HTLC);
    assert OFFER.offered[1..] == [];
    assert HighestCltv([], 9) == None;
  }

  const OFFERED := NO_COMMITMENTS.(pending := Some(OFFER))

  lemma OfferKept(n: Node, c: ChannelId)
    requires n.ledger == UNPAID.ledger && Of(n, c) == NO_COMMITMENTS
    ensures Step(n, POLICY, Hold(c, OFFER, EVEN, true)) == Some(n.(channels := n.channels[c := OFFERED]))
  {
    OfferUpdate(c);
    assert Sum<ChannelId>(map[]) == 0;
    var u := HolderUpdate(c, NO_COMMITMENTS, OFFER, EVEN);
    assert !CltvBad(n.ledger, POLICY, 9) && !Unbalanced(n.ledger, POLICY, u, 9);
    assert VerdictOn(n, POLICY, Hold(c, OFFER, EVEN, true)) == Accepted;
  }

  function Sent(p: RoutedPayment, c: ChannelId): RoutedPayment {
    ApplyPayment(p, c, 0, 10, None, Some(0))
  }

  lemma OfferRevoked(n: Node, c: ChannelId, p: RoutedPayment)
    requires n.ledger == Invoiced(p) && Of(n, c) == OFFERED
    ensures Step(n, POLICY, Revoke(c, Some(EVEN))) ==
            Some(Node(Invoiced(Sent(p, c)), n.channels[c := Commitments(Some(OFFER), None, None)]))
  {
    OfferUpdate(c);
    var u := HolderUpdate(c, NO_COMMITMENTS, OFFER, EVEN);
    assert Applied(n, POLICY, Revoke(c, Some(EVEN))) == Some(u);
    var s := ApplyPayments(n.ledger, POLICY, u).value;
    assert s.payments == map[9 := Sent(p, c)];
    assert s.issued == map[];
  }

  lemma SentTwice()
    ensures
      var p := Sent(Sent(NEW_PAYMENT, 1), 2);
      Outgoing(p) == 20 && Incoming(p) == 0
  {
    assert Sum<ChannelId>(map[]) == 0;
    ApplyPaymentTotals(NEW_PAYMENT, 1, 0, 10, None, Some(0));
    assert Get(Sent(NEW_PAYMENT, 1).incoming, 2) == 0 && Get(Sent(NEW_PAYMENT, 1).outgoing, 2) == 0;
    ApplyPaymentTotals(Sent(NEW_PAYMENT, 1), 2, 0, 10, None, Some(0));
  }

  const BOTH_KEPT := UNPAID.(channels := map[1 := OFFERED, 2 := OFFERED])

  lemma BothOffersKept()
    ensures Run(UNPAID, POLICY, [Hold(1, OFFER, EVEN, true), Hold(2, OFFER, EVEN, true)]) == Some(BOTH_KEPT)
  {
    var n := UNPAID.(channels := map[1 := OFFERED]);
    OfferKept(UNPAID, 1);
    OfferKept(n, 2);
    TwoSteps(UNPAID, POLICY, Hold(1, OFFER, EVEN, true), Hold(2, OFFER, EVEN, true), n, BOTH_KEPT);
  }

  lemma BothOffersRevoked()
    ensures
      var paid := Run(BOTH_KEPT, POLICY, [Revoke(1, Some(EVEN)), Revoke(2, Some(EVEN))]);
      paid.Some? && paid.value.ledger == Invoiced(Sent(Sent(NEW_PAYMENT, 1), 2))
  {
    OfferRevoked(BOTH_KEPT, 1, NEW_PAYMENT);
    var n := Step(BOTH_KEPT, POLICY, Revoke(1, Some(EVEN))).value;
    OfferRevoked(n, 2, Sent(NEW_PAYMENT, 1));
    TwoSteps(BOTH_KEPT, POLICY, Revoke(1, Some(EVEN)), Revoke(2, Some(EVEN)), n,
             Step(n, POLICY, Revoke(2, Some(EVEN))).value);
  }

  /** Holder commitments of two channels are validated one after the other, each paying the
      one invoice in full; after both revocations it is paid twice. */
  lemma RevokedTogetherOverpays()
    ensures
      var kept := Run(UNPAID, POLICY, [Hold(1, OFFER, EVEN, true), Hold(2, OFFER, EVEN, true)]);
      && Within(UNPAID.ledger, POLICY, 9) && kept.Some?
      && var paid := Run(kept.value, POLICY, [Revoke(1, Some(EVEN)), Revoke(2, Some(EVEN))]);
      && paid.Some? && Indexed(paid.value.ledger) && !Within(paid.value.ledger, POLICY, 9)
  {
    BothOffersKept();
    BothOffersRevoked();
    SentTwice();
    assert Sum<ChannelId>(map[]) == 0;
  }

  // ---------------------------------------------------------------------------
  // A kept commitment moves a frozen payment
  // ---------------------------------------------------------------------------

  /** A payment whose expiries are too close, while a commitment that pays more of it is kept. */
  const FROZEN :=
    Node(NodeState(map[], map[], map[9 := RoutedPayment(map[], map[], Some(0), Some(5), None)], 0), map[1 := OFFERED])

  lemma FrozenStillMoves()
    ensures CltvBad(FROZEN.ledger, POLICY, 9)
    ensures
      var n := Step(FROZEN, POLICY, Revoke(1, Some(EVEN)));
      n.Some? && Stake(n.value.ledger, 9, 1) == (0, 10) && Stake(FROZEN.ledger, 9, 1) == (0, 0)
  {
    OfferUpdate(1);
    var u := HolderUpdate(1, NO_COMMITMENTS, OFFER, EVEN);
    assert Applied(FROZEN, POLICY, Revoke(1, Some(EVEN))) == Some(u);
    ApplyStakes(FROZEN.ledger, POLICY, u, 9);
  }

  // ---------------------------------------------------------------------------
  // Accepted commitments do not protect the settlement
  // ---------------------------------------------------------------------------

  const INCOMING := Carrying([], [HTLC])
  const NOTHING := Carrying([], [])

  /** A payment comes in on channel 1: both its commitments have it. */
  const ARRIVED := Commitments(Some(INCOMING), Some(AsCounterparty(OFFER)), None)

  function Routed(p: RoutedPayment, k1: Commitments, k2: Commitments): Node {
    Node(NodeState(map[], map[], map[9 := p], 0), map[1 := k1, 2 := k2])
  }

  const START := Routed(InFlight(map[1 := 10], map[1 := 0]), ARRIVED, NO_COMMITMENTS)
  const FORWARD := Sign(2, INCOMING, EVEN, true)
  const WITHDRAW := Sign(1, NOTHING, EVEN, true)

  const PASSED := Routed(ApplyPayment(InFlight(map[1 := 10], map[1 := 0]), 2, 0, 10, None, Some(0)), ARRIVED,
                         NO_COMMITMENTS.(counterparty := Some(AsCounterparty(INCOMING))))

  lemma ForwardUpdate()
    ensures
      var u := CounterpartyUpdate(2, NO_COMMITMENTS, INCOMING, EVEN);
      && u.incoming == map[] && u.outgoing == map[9 := 10] && u.Hashes() == {9}
      && IncomingCltv(u.info, 9) == None && OutgoingCltv(u.info, 9) == Some(0)
  {
    AmountOne(HTLC);
    assert INCOMING.received[1..] == [];
    assert HighestCltv([], 9) == None;
  }

  lemma ForwardAccepted()
    ensures VerdictOn(START, POLICY, FORWARD) == Accepted
  {
    ForwardUpdate();
    SumOne(1, 10);
    SumOne(1, 0);
    assert !Unbalanced(START.ledger, POLICY, CounterpartyUpdate(2, NO_COMMITMENTS, INCOMING, EVEN), 9);
  }

  lemma ForwardApplied(u: Update)
    requires u == CounterpartyUpdate(2, NO_COMMITMENTS, INCOMING, EVEN)
    ensures ApplyPayments(START.ledger, POLICY, u) == Some(PASSED.ledger)
  {
    ForwardUpdate();
    var s := ApplyPayments(START.ledger, POLICY, u).value;
    assert s.payments == PASSED.ledger.payments;
    assert s.issued == map[];
  }

  lemma Forwarded()
    ensures Step(START, POLICY, FORWARD) == Some(PASSED)
  {
    ForwardAccepted();
    ForwardApplied(CounterpartyUpdate(2, NO_COMMITMENTS, INCOMING, EVEN));
    assert START.channels[2 := PASSED.channels[2]] == PASSED.channels;
  }

  lemma WithdrawUpdate()
    ensures
      var u := CounterpartyUpdate(1, ARRIVED, NOTHING, EVEN);
      u.incoming == map[9 := 0] && u.outgoing == map[] && u.Hashes() == {9}
    ensures VerdictOn(PASSED, POLICY, WITHDRAW) == Accepted
  {
    AmountOne(HTLC);
  }

  lemma PassedTotals()
    ensures Incoming(PASSED.ledger.payments[9]) == 10 && Outgoing(PASSED.ledger.payments[9]) == 10
  {
    SumOne(1, 10);
    SumOne(1, 0);
    ApplyPaymentTotals(InFlight(map[1 := 10], map[1 := 0]), 2, 0, 10, None, Some(0));
  }

  lemma WithdrawTotals(u: Update)
    requires u == CounterpartyUpdate(1, ARRIVED, NOTHING, EVEN)
    ensures ApplyPayments(PASSED.ledger, POLICY, u).Some?
    ensures
      var p := ApplyPayments(PASSED.ledger, POLICY, u).value.payments[9];
      Incoming(p) == 0 && Outgoing(p) == 10
  {
    WithdrawUpdate();
    PredictionIsEffect(PASSED.ledger, POLICY, u, 9);
    PassedTotals();
  }

  lemma Withdrawn()
    ensures
      var n := Step(PASSED, POLICY, WITHDRAW);
      && n.Some? && Indexed(n.value.ledger) && Settles(n.value.ledger, 9) && n.value.ledger.excess == 0
      && Incoming(n.value.ledger.payments[9]) == 0 && Outgoing(n.value.ledger.payments[9]) == 10
  {
    WithdrawUpdate();
    WithdrawTotals(CounterpartyUpdate(1, ARRIVED, NOTHING, EVEN));
  }

  /** A payment is forwarded, its incoming side is withdrawn, both accepted, and then its
      preimage arrives: the node panics. */
  lemma AcceptedRunPanics(preimage: Preimage)
    ensures
      var n := Run(START, POLICY, [FORWARD, WITHDRAW]);
      n.Some? && Indexed(n.value.ledger) && Step(n.value, POLICY, Fulfill(9, preimage)).None?
  {
    Forwarded();
    Withdrawn();
    var n := Step(PASSED, POLICY, WITHDRAW).value;
    TwoSteps(START, POLICY, FORWARD, WITHDRAW, PASSED, n);
    PanicsExactly(n, POLICY, Fulfill(9, preimage));
  }

  // ---------------------------------------------------------------------------
  // A lock leaves a record behind
  // ---------------------------------------------------------------------------

  const SENDING := NO_COMMITMENTS.(counterparty := Some(AsCounterparty(INCOMING)))
  const SPLICED := Node(NodeState(map[], map[], map[9 := InFlight(map[1 := 0], map[1 := 10])], 0), map[1 := SENDING])

  /** The baselines a lock installs name no payment, so a later commitment without the HTLC
      does not clear it: no commitment has it any more, and the ledger still does. */
  lemma LockLeavesStake()
    ensures Mirrors(SPLICED, 1, 9)
    ensures
      var n := Run(SPLICED, POLICY, [Lock(1, 0, 0), Sign(1, NOTHING, EVEN, true)]);
      n.Some? && Committed(Of(n.value, 1), 9) == (0, 0) && Stake(n.value.ledger, 9, 1) == (0, 10)
  {
    AmountOne(HTLC);
    var n := Step(SPLICED, POLICY, Lock(1, 0, 0)).value;
    var e := Sign(1, NOTHING, EVEN, true);
    var u := CounterpartyUpdate(1, Of(n, 1), NOTHING, EVEN);
    assert u.Hashes() == {};
    assert VerdictOn(n, POLICY, e) == Accepted;
    ApplyStakes(n.ledger, POLICY, u, 9);
    TwoSteps(SPLICED, POLICY, Lock(1, 0, 0), e, n, Step(n, POLICY, e).value);
  }
}
