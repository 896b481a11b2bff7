/**
 What bounds a payment over the runs of `LedgerRuns`: the amount of its invoice, and the
 distance of its expiries. Validation enforces both when a commitment is validated; a holder
 commitment is applied later, so each bound comes with the exact event that breaks it.
 */
module LedgerBounds {
  import opened Options
  import opened Sums
  import opened Ledger
  import opened LedgerRuns

  // ---------------------------------------------------------------------------
  // Invoiced payments stay within their invoice
  // ---------------------------------------------------------------------------

  /** More goes out than comes in, plus the amount and the routing fee allowed. */
  predicate Over(incoming: nat, outgoing: nat, policy: Policy, amountMsat: nat) {
    outgoing * 1000 > incoming * 1000 + amountMsat + policy.maxRoutingFeeMsat
  }

  ghost predicate Within(s: NodeState, policy: Policy, hash: Hash) {
    hash in s.invoices && hash in s.payments ==>
      !Over(Incoming(s.payments[hash]), Outgoing(s.payments[hash]), policy, s.invoices[hash].amountMsat)
  }

  /** The invoice arrives for a payment that is already in flight for more than it allows. */
  ghost predicate TooLate(n: Node, policy: Policy, e: Event, hash: Hash) {
    var s := n.ledger;
    && e.NewInvoice? && e.hash == hash && hash !in s.invoices
    && |s.invoices| < e.maxInvoices && e.withinVelocity
    && hash in s.payments && Over(Incoming(s.payments[hash]), Outgoing(s.payments[hash]), policy, e.invoice.amountMsat)
  }

  /** A revocation applies a kept commitment that takes the payment, as it is by now, over its invoice. */
  ghost predicate Overshoots(n: Node, policy: Policy, e: Event, hash: Hash) {
    var u := Applied(n, policy, e);
    && e.Revoke? && u.Some? && hash in u.value.Hashes() && hash in n.ledger.invoices
    && var (incoming, outgoing) := PredictedFor(n.ledger, u.value, hash);
    Over(incoming, outgoing, policy, n.ledger.invoices[hash].amountMsat)
  }

  lemma ApplyWithin(s: NodeState, policy: Policy, u: Update, hash: Hash)
    requires ApplyPayments(s, policy, u).Some? && Within(s, policy, hash)
    ensures
      Within(ApplyPayments(s, policy, u).value, policy, hash) <==>
      !(hash in u.Hashes() && hash in s.invoices
        && Over(PredictedFor(s, u, hash).0, PredictedFor(s, u, hash).1, policy, s.invoices[hash].amountMsat))
  {
    PredictionIsEffect(s, policy, u, hash);
  }

  lemma AcceptedIsWithin(s: NodeState, policy: Policy, u: Update, hash: Hash)
    requires Validate(s, policy, u) == Accepted && hash in u.Hashes() && hash in s.invoices
    ensures !Over(PredictedFor(s, u, hash).0, PredictedFor(s, u, hash).1, policy, s.invoices[hash].amountMsat)
  {
    assert !Unbalanced(s, policy, u, hash);
  }

  lemma SettlingKeepsTotals(s: NodeState, policy: Policy, settled: Hash, preimage: Preimage, hash: Hash)
    requires HtlcFulfilled(s, policy, settled, preimage).Some?
    ensures var s' := HtlcFulfilled(s, policy, settled, preimage).value;
            && s'.invoices == s.invoices && s'.payments.Keys == s.payments.Keys
            && (hash in s.payments ==> s'.payments[hash].incoming == s.payments[hash].incoming
                                       && s'.payments[hash].outgoing == s.payments[hash].outgoing)
  {
  }

  /** A step breaks the bound exactly when it brings an invoice too late, or applies a kept
      commitment that overshoots by now. */
  lemma StepKeepsWithin(n: Node, policy: Policy, e: Event, hash: Hash)
    requires Indexed(n.ledger) && Within(n.ledger, policy, hash) && Step(n, policy, e).Some?
    ensures Within(Step(n, policy, e).value.ledger, policy, hash) <==>
            !TooLate(n, policy, e, hash) && !Overshoots(n, policy, e, hash)
  {
    var u := Applied(n, policy, e);
    if u.Some? {
      ApplyWithin(n.ledger, policy, u.value, hash);
      if e.Sign? && hash in u.value.Hashes() && hash in n.ledger.invoices {
        AcceptedIsWithin(n.ledger, policy, u.value, hash);
      }
    } else {
      match e {
        case Fulfill(settled, preimage) => SettlingKeepsTotals(n.ledger, policy, settled, preimage, hash);
        case NewInvoice(_, _, _, _) => assert Sum<ChannelId>(map[]) == 0;
        case Heartbeat(now) =>
          if hash in n.ledger.payments {
            PruneIsSafe(n.ledger, now, hash);
          }
        case _ =>
      }
    }
  }

  /** No step of the run brings the invoice of this hash too late or overshoots it. */
  ghost predicate Respected(n: Node, policy: Policy, es: seq<Event>, hash: Hash)
    decreases |es|
  {
    es == [] ||
    (&& (Step(n, policy, es[0]).Some? ==> !TooLate(n, policy, es[0], hash) && !Overshoots(n, policy, es[0], hash))
     && (Step(n, policy, es[0]).Some? ==> Respected(Step(n, policy, es[0]).value, policy, es[1..], hash)))
  }

  ghost predicate AlwaysWithin(n: Node, policy: Policy, es: seq<Event>, hash: Hash)
    decreases |es|
  {
    Within(n.ledger, policy, hash) &&
    (es != [] && Step(n, policy, es[0]).Some? ==> AlwaysWithin(Step(n, policy, es[0]).value, policy, es[1..], hash))
  }

  /** Over every run, an invoice bounds what its payment sends out at every point, if and only
      if no step brings the invoice too late or applies a kept commitment that overshoots it. */
  lemma {:induction false} InvoicedIsBounded(n: Node, policy: Policy, es: seq<Event>, hash: Hash)
    requires Indexed(n.ledger) && Within(n.ledger, policy, hash)
    ensures AlwaysWithin(n, policy, es, hash) <==> Respected(n, policy, es, hash)
    decreases |es|
  {
    if es != [] && Step(n, policy, es[0]).Some? {
      var n' := Step(n, policy, es[0]).value;
      StepKeepsWithin(n, policy, es[0], hash);
      StepKeepsIndex(n, policy, es[0]);
      if Within(n'.ledger, policy, hash) {
        InvoicedIsBounded(n', policy, es[1..], hash);
      }
    }
  }

  // ---------------------------------------------------------------------------
  // A kept commitment that nothing disturbed
  // ---------------------------------------------------------------------------

  /** Between the validation of a channel's commitment and its revocation: no event of that
      channel, and no other channel moves the payment. */
  ghost predicate Undisturbed(n: Node, policy: Policy, es: seq<Event>, channel: ChannelId, hash: Hash)
    decreases |es|
  {
    es == [] ||
    (&& !(OnChannel(es[0]) && es[0].channel == channel)
     && (Applied(n, policy, es[0]).Some? ==> hash !in Applied(n, policy, es[0]).value.Hashes())
     && (Step(n, policy, es[0]).Some? ==> Undisturbed(Step(n, policy, es[0]).value, policy, es[1..], channel, hash)))
  }

  /** The invoice and the amounts are as they were. */
  ghost predicate SameStake(s: NodeState, t: NodeState, hash: Hash) {
    && hash in s.invoices && hash in t.invoices && s.invoices[hash] == t.invoices[hash]
    && hash in s.payments && hash in t.payments
    && s.payments[hash].incoming == t.payments[hash].incoming
    && s.payments[hash].outgoing == t.payments[hash].outgoing
  }

  lemma StepKeepsStake(n: Node, policy: Policy, e: Event, hash: Hash)
    requires Indexed(n.ledger) && hash in n.ledger.invoices && Step(n, policy, e).Some?
    requires hash in Step(n, policy, e).value.ledger.payments
    requires Applied(n, policy, e).Some? ==> hash !in Applied(n, policy, e).value.Hashes()
    ensures SameStake(n.ledger, Step(n, policy, e).value.ledger, hash)
  {
    var u := Applied(n, policy, e);
    if u.Some? {
      PredictionIsEffect(n.ledger, policy, u.value, hash);
    } else if e.Heartbeat? {
      PruneIsSafe(n.ledger, e.now, hash);
      PrunedTogether(n.ledger, e.now, hash);
    } else if e.Fulfill? {
      SettlingKeepsTotals(n.ledger, policy, e.hash, e.preimage, hash);
    }
  }

  /** An invoice leaves only with its payment. */
  lemma PrunedTogether(s: NodeState, now: nat, hash: Hash)
    requires Indexed(s) && hash in s.invoices && Prune(s, now).Some? && hash in Prune(s, now).value.payments
    ensures hash in Prune(s, now).value.invoices
  {
  }

  lemma {:induction false} RunKeepsStake(n: Node, policy: Policy, es: seq<Event>, channel: ChannelId, hash: Hash)
    requires Indexed(n.ledger) && hash in n.ledger.invoices && Run(n, policy, es).Some?
    requires NeverDropped(n, policy, es, hash) && Undisturbed(n, policy, es, channel, hash)
    ensures SameStake(n.ledger, Run(n, policy, es).value.ledger, hash) && Of(Run(n, policy, es).value, channel) == Of(n, channel)
    decreases |es|
  {
    if es != [] {
      StepKeepsStake(n, policy, es[0], hash);
      StepKeepsIndex(n, policy, es[0]);
      RunKeepsStake(Step(n, policy, es[0]).value, policy, es[1..], channel, hash);
    }
  }

  /** What validation does buy: a commitment accepted and kept while its payment had an
      invoice does not overshoot it when it is revoked into, whatever else happened, if its
      channel did nothing in between and no other channel moved that payment. */
  lemma UndisturbedIsWithin(n: Node, policy: Policy, hold: Event, es: seq<Event>, change: Option<BalanceDelta>, hash: Hash)
    requires Indexed(n.ledger) && hash in n.ledger.invoices
    requires hold.Hold? && hold.isNext && VerdictOn(n, policy, hold) == Accepted
    requires var kept := Step(n, policy, hold).value;
             && NeverDropped(kept, policy, es, hash) && Undisturbed(kept, policy, es, hold.channel, hash)
             && Run(kept, policy, es).Some?
    ensures !Overshoots(Run(Step(n, policy, hold).value, policy, es).value, policy, Revoke(hold.channel, change), hash)
  {
    var kept := Step(n, policy, hold).value;
    var m := Run(kept, policy, es).value;
    RunKeepsStake(kept, policy, es, hold.channel, hash);
    var u := Checked(n, hold).value;
    var v := Applied(m, policy, Revoke(hold.channel, change));
    if v.Some? && hash in v.value.Hashes() {
      assert v.value.incoming == u.incoming && v.value.outgoing == u.outgoing;
      AcceptedIsWithin(n.ledger, policy, u, hash);
    }
  }

  // ---------------------------------------------------------------------------
  // Expiries
  // ---------------------------------------------------------------------------

  lemma {:induction false} LowestIsLeast(htlcs: seq<Htlc>, hash: Hash, k: nat)
    requires k < |htlcs| && htlcs[k].paymentHash == hash
    ensures LowestCltv(htlcs, hash).Some? && LowestCltv(htlcs, hash).value <= htlcs[k].cltvExpiry
  {
    if k > 0 {
      assert htlcs[1..][k - 1] == htlcs[k];
      LowestIsLeast(htlcs[1..], hash, k - 1);
    }
  }

  lemma {:induction false} HighestIsGreatest(htlcs: seq<Htlc>, hash: Hash, k: nat)
    requires k < |htlcs| && htlcs[k].paymentHash == hash
    ensures HighestCltv(htlcs, hash).Some? && HighestCltv(htlcs, hash).value >= htlcs[k].cltvExpiry
  {
    if k > 0 {
      assert htlcs[1..][k - 1] == htlcs[k];
      HighestIsGreatest(htlcs[1..], hash, k - 1);
    }
  }

  /** The expiries a payment records bound those of the HTLCs. */
  ghost predicate Covers(p: RoutedPayment, hash: Hash, incoming: seq<Htlc>, outgoing: seq<Htlc>) {
    && (forall k :: 0 <= k < |incoming| && incoming[k].paymentHash == hash ==>
                      p.incomingCltvMin.Some? && p.incomingCltvMin.value <= incoming[k].cltvExpiry)
    && (forall k :: 0 <= k < |outgoing| && outgoing[k].paymentHash == hash ==>
                      p.outgoingCltvMax.Some? && p.outgoingCltvMax.value >= outgoing[k].cltvExpiry)
  }

  /** The later bounds are at least as tight. */
  ghost predicate Tightens(p: RoutedPayment, q: RoutedPayment) {
    && (p.incomingCltvMin.Some? ==> q.incomingCltvMin.Some? && q.incomingCltvMin.value <= p.incomingCltvMin.value)
    && (p.outgoingCltvMax.Some? ==> q.outgoingCltvMax.Some? && q.outgoingCltvMax.value >= p.outgoingCltvMax.value)
  }

  lemma StepTightens(n: Node, policy: Policy, e: Event, hash: Hash)
    requires Step(n, policy, e).Some?
    requires hash in n.ledger.payments ==> hash in Step(n, policy, e).value.ledger.payments
    ensures Tightens(PaymentFor(n.ledger, hash), PaymentFor(Step(n, policy, e).value.ledger, hash))
  {
    if Applied(n, policy, e).Some? {
      ApplyTightens(n.ledger, policy, Applied(n, policy, e).value, hash);
    }
  }

  lemma ApplyTightens(s: NodeState, policy: Policy, u: Update, hash: Hash)
    requires ApplyPayments(s, policy, u).Some?
    ensures Tightens(PaymentFor(s, hash), PaymentFor(ApplyPayments(s, policy, u).value, hash))
  {
    if hash !in u.Hashes() {
      PredictionIsEffect(s, policy, u, hash);
    }
  }

  lemma {:induction false} RunTightens(n: Node, policy: Policy, es: seq<Event>, hash: Hash)
    requires Run(n, policy, es).Some? && NeverDropped(n, policy, es, hash)
    ensures Tightens(PaymentFor(n.ledger, hash), PaymentFor(Run(n, policy, es).value.ledger, hash))
    decreases |es|
  {
    if es != [] {
      StepTightens(n, policy, es[0], hash);
      RunTightens(Step(n, policy, es[0]).value, policy, es[1..], hash);
    }
  }

  /** Applying an update covers its HTLCs. */
  lemma UpdateCovers(s: NodeState, policy: Policy, u: Update, hash: Hash)
    requires ApplyPayments(s, policy, u).Some? && hash in u.Hashes() && u.info.Some?
    ensures Covers(PaymentFor(ApplyPayments(s, policy, u).value, hash), hash,
                   IncomingHtlcs(u.info.value), OutgoingHtlcs(u.info.value))
  {
    var ins, outs := IncomingHtlcs(u.info.value), OutgoingHtlcs(u.info.value);
    forall k | 0 <= k < |ins| && ins[k].paymentHash == hash
      ensures LowestCltv(ins, hash).Some? && LowestCltv(ins, hash).value <= ins[k].cltvExpiry
    {
      LowestIsLeast(ins, hash, k);
    }
    forall k | 0 <= k < |outs| && outs[k].paymentHash == hash
      ensures HighestCltv(outs, hash).Some? && HighestCltv(outs, hash).value >= outs[k].cltvExpiry
    {
      HighestIsGreatest(outs, hash, k);
    }
  }

  /** Whenever a commitment is applied, at its validation or at a revocation, and however the
      run goes on, the expiries its payments record bound those of its HTLCs for as long as
      the payment is not pruned. */
  lemma ExpiriesCovered(n: Node, policy: Policy, e: Event, es: seq<Event>, hash: Hash)
    requires Applied(n, policy, e).Some? && hash in Applied(n, policy, e).value.Hashes()
    requires Run(n, policy, [e] + es).Some? && NeverDropped(Step(n, policy, e).value, policy, es, hash)
    ensures
      var info := Applied(n, policy, e).value.info.value;
      Covers(PaymentFor(Run(n, policy, [e] + es).value.ledger, hash), hash, IncomingHtlcs(info), OutgoingHtlcs(info))
  {
    assert ([e] + es)[1..] == es;
    UpdateCovers(n.ledger, policy, Applied(n, policy, e).value, hash);
    RunTightens(Step(n, policy, e).value, policy, es, hash);
  }

  // ---------------------------------------------------------------------------
  // Expiries too close
  // ---------------------------------------------------------------------------

  /** What a channel has in flight for the payment. */
  ghost function Stake(s: NodeState, hash: Hash, channel: ChannelId): (nat, nat) {
    (Get(PaymentFor(s, hash).incoming, channel), Get(PaymentFor(s, hash).outgoing, channel))
  }

  /** A revocation applies a kept commitment that names the payment with other amounts. */
  ghost predicate Moves(n: Node, policy: Policy, e: Event, hash: Hash) {
    var u := Applied(n, policy, e);
    && e.Revoke? && u.Some? && hash in u.value.Hashes()
    && (Get(u.value.incoming, hash), Get(u.value.outgoing, hash)) != Stake(n.ledger, hash, e.channel)
  }

  ghost predicate KeepsStakes(n: Node, policy: Policy, e: Event, hash: Hash) {
    Step(n, policy, e).Some? ==>
      forall c: ChannelId :: Stake(Step(n, policy, e).value.ledger, hash, c) == Stake(n.ledger, hash, c)
  }

  /** No new commitment that names the payment is accepted. */
  lemma FrozenRefuses(n: Node, policy: Policy, e: Event, hash: Hash)
    requires CltvBad(n.ledger, policy, hash) && Checked(n, e).Some? && hash in Checked(n, e).value.Hashes()
    ensures VerdictOn(n, policy, e) == BadCltv
  {
  }

  lemma ApplyStakes(s: NodeState, policy: Policy, u: Update, hash: Hash)
    requires ApplyPayments(s, policy, u).Some?
    ensures
      var s' := ApplyPayments(s, policy, u).value;
      forall c: ChannelId ::
        Stake(s', hash, c) ==
        if hash in u.Hashes() && c == u.channel then (Get(u.incoming, hash), Get(u.outgoing, hash)) else Stake(s, hash, c)
  {
  }

  /** A heartbeat prunes the payment. */
  ghost predicate Dropped(s: NodeState, now: nat, hash: Hash) {
    hash in s.payments && Prune(s, now).Some? && hash !in Prune(s, now).value.payments
  }

  /** What is not applied leaves the amounts alone, except for a payment that is pruned. */
  lemma LedgerOnly(n: Node, policy: Policy, e: Event, channel: ChannelId, hash: Hash)
    requires Indexed(n.ledger) && Step(n, policy, e).Some? && Applied(n, policy, e).None?
    ensures
      Stake(Step(n, policy, e).value.ledger, hash, channel) ==
      if e.Heartbeat? && Dropped(n.ledger, e.now, hash) then (0, 0) else Stake(n.ledger, hash, channel)
  {
    if e.Fulfill? {
      SettlingKeepsTotals(n.ledger, policy, e.hash, e.preimage, hash);
    } else if e.Heartbeat? && hash in n.ledger.payments {
      PruneIsSafe(n.ledger, e.now, hash);
    }
  }

  lemma AppliedStakes(n: Node, policy: Policy, e: Event, hash: Hash)
    requires Step(n, policy, e).Some? && Applied(n, policy, e).Some? && CltvBad(n.ledger, policy, hash)
    ensures KeepsStakes(n, policy, e, hash) <==> !Moves(n, policy, e, hash)
  {
    var u := Applied(n, policy, e).value;
    ApplyStakes(n.ledger, policy, u, hash);
    if e.Sign? && hash in u.Hashes() {
      FrozenRefuses(n, policy, e, hash);
    }
    if Moves(n, policy, e, hash) {
      assert Stake(Step(n, policy, e).value.ledger, hash, e.channel) != Stake(n.ledger, hash, e.channel);
    }
  }

  lemma FrozenStep(n: Node, policy: Policy, e: Event, hash: Hash)
    requires Indexed(n.ledger) && CltvBad(n.ledger, policy, hash) && Step(n, policy, e).Some?
    requires hash in Step(n, policy, e).value.ledger.payments
    ensures CltvBad(Step(n, policy, e).value.ledger, policy, hash)
    ensures KeepsStakes(n, policy, e, hash) <==> !Moves(n, policy, e, hash)
  {
    StepTightens(n, policy, e, hash);
    if Applied(n, policy, e).Some? {
      AppliedStakes(n, policy, e, hash);
    } else {
      forall c: ChannelId ensures Stake(Step(n, policy, e).value.ledger, hash, c) == Stake(n.ledger, hash, c) {
        LedgerOnly(n, policy, e, c, hash);
      }
    }
  }

  /** Every step of the run keeps what each channel has in flight for the payment. */
  ghost predicate StaysFrozen(n: Node, policy: Policy, es: seq<Event>, hash: Hash)
    decreases |es|
  {
    es == [] ||
    (&& KeepsStakes(n, policy, es[0], hash)
     && (Step(n, policy, es[0]).Some? ==> StaysFrozen(Step(n, policy, es[0]).value, policy, es[1..], hash)))
  }

  ghost predicate NoneMoves(n: Node, policy: Policy, es: seq<Event>, hash: Hash)
    decreases |es|
  {
    es == [] ||
    (&& (Step(n, policy, es[0]).Some? ==> !Moves(n, policy, es[0], hash))
     && (Step(n, policy, es[0]).Some? ==> NoneMoves(Step(n, policy, es[0]).value, policy, es[1..], hash)))
  }

  /** A payment whose expiries are too close is frozen: in any run that does not prune it they
      stay too close, so no commitment that names it is accepted any more, and what each
      channel has in flight for it stays as it is, if and only if no revocation applies a
      kept commitment with other amounts. */
  lemma {:induction false} BadExpiryFreezes(n: Node, policy: Policy, es: seq<Event>, hash: Hash)
    requires Indexed(n.ledger) && CltvBad(n.ledger, policy, hash) && NeverDropped(n, policy, es, hash)
    ensures Run(n, policy, es).Some? ==> CltvBad(Run(n, policy, es).value.ledger, policy, hash)
    ensures StaysFrozen(n, policy, es, hash) <==> NoneMoves(n, policy, es, hash)
    decreases |es|
  {
    if es != [] && Step(n, policy, es[0]).Some? {
      FrozenStep(n, policy, es[0], hash);
      StepKeepsIndex(n, policy, es[0]);
      BadExpiryFreezes(Step(n, policy, es[0]).value, policy, es[1..], hash);
    }
  }
}
