/**
 The payment ledger of the node: invoices, in-flight amounts per payment hash and
 channel, and the excess register. `None` is a panic.
 */
module Ledger {
  import opened Options
  import opened Sums

  type Hash = nat
  type ChannelId = nat
  type Preimage = nat

  const U64_MAX: nat := 0xFFFF_FFFF_FFFF_FFFF
  const INVOICE_PRUNE_TIME: nat := 60 * 60 * 24
  const KEYSEND_PRUNE_TIME: nat := 0

  /** The stand-in preimage that marks an issued invoice as paid. */
  const DUMMY_PREIMAGE: Preimage := 0

  datatype PaymentType = Invoice | Keysend

  datatype PaymentState = PaymentState(
    invoiceHash: nat, amountMsat: nat, sinceEpoch: nat, expiry: nat, isFulfilled: bool, paymentType: PaymentType)

  datatype RoutedPayment = RoutedPayment(
    incoming: map<ChannelId, nat>,
    outgoing: map<ChannelId, nat>,
    incomingCltvMin: Option<nat>,
    outgoingCltvMax: Option<nat>,
    preimage: Option<Preimage>)

  const NEW_PAYMENT := RoutedPayment(map[], map[], None, None, None)

  datatype NodeState = NodeState(
    invoices: map<Hash, PaymentState>,
    issued: map<Hash, PaymentState>,
    payments: map<Hash, RoutedPayment>,
    excess: nat)

  /** The balance change of a commitment: first the loss, then the gain. */
  datatype BalanceDelta = BalanceDelta(loss: nat, gain: nat)

  /** The validator's settings. */
  datatype Policy = Policy(enforceBalance: bool, maxRoutingFeeMsat: nat, maxFeeratePercentage: nat, cltvDelta: nat)

  datatype Htlc = Htlc(paymentHash: Hash, cltvExpiry: nat, valueSat: nat)

  /** A commitment as its broadcaster sees it. */
  datatype CommitmentInfo = CommitmentInfo(
    isCounterparty: bool, toCountersigner: nat, toBroadcaster: nat, offered: seq<Htlc>, received: seq<Htlc>)

  /** The incoming and the outgoing side of a commitment, whoever broadcasts it. */
  function IncomingHtlcs(info: CommitmentInfo): seq<Htlc> {
    if info.isCounterparty then info.offered else info.received
  }

  function OutgoingHtlcs(info: CommitmentInfo): seq<Htlc> {
    if info.isCounterparty then info.received else info.offered
  }

  /** What a new commitment says about the payments of one channel. */
  datatype Update = Update(
    channel: ChannelId,
    incoming: map<Hash, nat>,
    outgoing: map<Hash, nat>,
    delta: BalanceDelta,
    info: Option<CommitmentInfo>)
  {
    function Hashes(): set<Hash> {
      incoming.Keys + outgoing.Keys
    }
  }

  // ---------------------------------------------------------------------------
  // One routed payment
  // ---------------------------------------------------------------------------

  ghost function Incoming(p: RoutedPayment): nat {
    Sum(p.incoming)
  }

  ghost function Outgoing(p: RoutedPayment): nat {
    Sum(p.outgoing)
  }

  /** The totals if the channel moves to the given amounts, computed without moving it. */
  ghost function Predicted(p: RoutedPayment, channel: ChannelId, incoming: nat, outgoing: nat): (nat, nat) {
    SumAtLeast(p.incoming, channel);
    SumAtLeast(p.outgoing, channel);
    (Sum(p.incoming) + incoming - Get(p.incoming, channel), Sum(p.outgoing) + outgoing - Get(p.outgoing, channel))
  }

  function MinOpt(a: Option<nat>, b: Option<nat>): Option<nat> {
    if a.None? then b else if b.None? then a else if a.value <= b.value then a else b
  }

  function MaxOpt(a: Option<nat>, b: Option<nat>): Option<nat> {
    if a.None? then b else if b.None? then a else if a.value >= b.value then a else b
  }

  function ApplyPayment(p: RoutedPayment, channel: ChannelId, incoming: nat, outgoing: nat,
                        incomingCltv: Option<nat>, outgoingCltv: Option<nat>): RoutedPayment {
    p.(incoming := p.incoming[channel := incoming],
       outgoing := p.outgoing[channel := outgoing],
       incomingCltvMin := MinOpt(p.incomingCltvMin, incomingCltv),
       outgoingCltvMax := MaxOpt(p.outgoingCltvMax, outgoingCltv))
  }

  function LowestCltv(htlcs: seq<Htlc>, hash: Hash): Option<nat> {
    if htlcs == [] then None
    else MinOpt(if htlcs[0].paymentHash == hash then Some(htlcs[0].cltvExpiry) else None, LowestCltv(htlcs[1..], hash))
  }

  function HighestCltv(htlcs: seq<Htlc>, hash: Hash): Option<nat> {
    if htlcs == [] then None
    else MaxOpt(if htlcs[0].paymentHash == hash then Some(htlcs[0].cltvExpiry) else None, HighestCltv(htlcs[1..], hash))
  }

  function IncomingCltv(info: Option<CommitmentInfo>, hash: Hash): Option<nat> {
    if info.None? then None
    else LowestCltv(IncomingHtlcs(info.value), hash)
  }

  function OutgoingCltv(info: Option<CommitmentInfo>, hash: Hash): Option<nat> {
    if info.None? then None
    else HighestCltv(OutgoingHtlcs(info.value), hash)
  }

  // ---------------------------------------------------------------------------
  // Validation
  // ---------------------------------------------------------------------------

  predicate CltvOk(policy: Policy, incoming: nat, outgoing: nat) {
    incoming > outgoing && incoming - outgoing >= policy.cltvDelta
  }

  predicate BalanceOk(policy: Policy, incoming: nat, outgoing: nat, invoiced: Option<nat>) {
    && incoming + (if invoiced.Some? then invoiced.value + policy.maxRoutingFeeMsat else 0) >= outgoing
    && (invoiced.Some? && invoiced.value + incoming <= outgoing ==>
          var fee := outgoing - invoiced.value - incoming;
          && fee * 100 <= U64_MAX
          && fee * 100 / (if invoiced.value > 1 then invoiced.value else 1) <= policy.maxFeeratePercentage)
  }

  function PaymentFor(s: NodeState, hash: Hash): RoutedPayment {
    if hash in s.payments then s.payments[hash] else NEW_PAYMENT
  }

  ghost function PredictedFor(s: NodeState, u: Update, hash: Hash): (nat, nat) {
    if hash in s.payments
    then Predicted(s.payments[hash], u.channel, Get(u.incoming, hash), Get(u.outgoing, hash))
    else (Get(u.incoming, hash), Get(u.outgoing, hash))
  }

  predicate CltvBad(s: NodeState, policy: Policy, hash: Hash) {
    && hash in s.payments
    && var p := s.payments[hash];
    && p.incomingCltvMin.Some? && p.outgoingCltvMax.Some?
    && !CltvOk(policy, p.incomingCltvMin.value, p.outgoingCltvMax.value)
  }

  /** An existing payment without an invoice may go out of balance (the source's workaround). */
  ghost predicate Unbalanced(s: NodeState, policy: Policy, u: Update, hash: Hash) {
    var (incoming, outgoing) := PredictedFor(s, u, hash);
    var invoiced := if hash in s.invoices then Some(s.invoices[hash].amountMsat) else None;
    && !BalanceOk(policy, incoming * 1000, outgoing * 1000, invoiced)
    && !(hash in s.payments && invoiced.None?)
  }

  datatype Verdict = Accepted | BadCltv | BadBalance | Shortfall | Panic

  ghost function Validate(s: NodeState, policy: Policy, u: Update): Verdict {
    if exists h :: h in u.Hashes() && CltvBad(s, policy, h) then BadCltv
    else if exists h :: h in u.Hashes() && Unbalanced(s, policy, u, h) then BadBalance
    else if !policy.enforceBalance then Accepted
    else if s.excess + u.delta.gain > U64_MAX then Panic
    else if s.excess + u.delta.gain < u.delta.loss then Shortfall
    else Accepted
  }

  // ---------------------------------------------------------------------------
  // Applying
  // ---------------------------------------------------------------------------

  /** The update pays an issued invoice that was still open. */
  ghost predicate Pays(s: NodeState, u: Update, hash: Hash) {
    && hash in u.Hashes() && hash in s.issued && PaymentFor(s, hash).preimage.None?
    && var (incoming, outgoing) := Predicted(PaymentFor(s, hash), u.channel, Get(u.incoming, hash), Get(u.outgoing, hash));
       incoming >= outgoing + s.issued[hash].amountMsat / 1000
  }

  ghost function AppliedPayment(s: NodeState, policy: Policy, u: Update, hash: Hash): RoutedPayment {
    var p := PaymentFor(s, hash);
    var marked := if policy.enforceBalance && Pays(s, u, hash) then p.(preimage := Some(DUMMY_PREIMAGE)) else p;
    ApplyPayment(marked, u.channel, Get(u.incoming, hash), Get(u.outgoing, hash),
                 IncomingCltv(u.info, hash), OutgoingCltv(u.info, hash))
  }

  ghost function ApplyPayments(s: NodeState, policy: Policy, u: Update): Option<NodeState> {
    if policy.enforceBalance && (s.excess + u.delta.gain > U64_MAX || s.excess + u.delta.gain < u.delta.loss) then None
    else Some(NodeState(
                s.invoices,
                map h | h in s.issued :: if Pays(s, u, h) then s.issued[h].(isFulfilled := true) else s.issued[h],
                map h | h in s.payments.Keys + u.Hashes() ::
                  if h in u.Hashes() then AppliedPayment(s, policy, u, h) else s.payments[h],
                if policy.enforceBalance then s.excess + u.delta.gain - u.delta.loss else s.excess))
  }

  /** The excess register after an uninvoiced payment is settled by its preimage. */
  ghost function Settled(excess: nat, p: RoutedPayment): Option<nat> {
    if excess + Incoming(p) > U64_MAX || excess + Incoming(p) < Outgoing(p) then None
    else Some(excess + Incoming(p) - Outgoing(p))
  }

  /** The preimage settles a payment that still lacks one and has no invoice. */
  predicate Settles(s: NodeState, hash: Hash) {
    hash in s.payments && s.payments[hash].preimage.None? && hash !in s.invoices
  }

  ghost function HtlcFulfilled(s: NodeState, policy: Policy, hash: Hash, preimage: Preimage): Option<NodeState> {
    var excess := if policy.enforceBalance && Settles(s, hash) then Settled(s.excess, s.payments[hash]) else Some(s.excess);
    if excess.None? then None
    else Some(NodeState(
                s.invoices,
                if hash in s.issued then s.issued[hash := s.issued[hash].(isFulfilled := true)] else s.issued,
                if hash in s.payments && s.payments[hash].preimage.None?
                then s.payments[hash := s.payments[hash].(preimage := Some(preimage))] else s.payments,
                excess.value))
  }

  // ---------------------------------------------------------------------------
  // Invoices and pruning
  // ---------------------------------------------------------------------------

  function PruneTime(i: PaymentState): nat {
    i.sinceEpoch + i.expiry + match i.paymentType case Invoice => INVOICE_PRUNE_TIME case Keysend => KEYSEND_PRUNE_TIME
  }

  ghost predicate InvoicePrunable(now: nat, i: PaymentState, p: RoutedPayment) {
    now > PruneTime(i) && (p.preimage.Some? || Outgoing(p) == 0)
  }

  ghost predicate ForwardPrunable(s: NodeState, hash: Hash, p: RoutedPayment) {
    hash !in s.invoices && hash !in s.issued && Incoming(p) == 0 && Outgoing(p) == 0
  }

  ghost function PruneInvoices(s: NodeState, now: nat): Option<NodeState> {
    if !(s.invoices.Keys <= s.payments.Keys) then None else
      var pruned := set h | h in s.invoices && InvoicePrunable(now, s.invoices[h], s.payments[h]);
      Some(s.(invoices := s.invoices - pruned, payments := s.payments - pruned))
  }

  ghost function PruneIssued(s: NodeState, now: nat): NodeState {
    s.(issued := map h | h in s.issued && PruneTime(s.issued[h]) > now :: s.issued[h])
  }

  ghost function PruneForwarded(s: NodeState): NodeState {
    s.(payments := map h | h in s.payments && !ForwardPrunable(s, h, s.payments[h]) :: s.payments[h])
  }

  /** The pruning done by every heartbeat. */
  ghost function Prune(s: NodeState, now: nat): Option<NodeState> {
    var s1 := PruneInvoices(s, now);
    if s1.None? then None else Some(PruneForwarded(PruneIssued(s1.value, now)))
  }

  datatype AddResult = Added(bool) | TooMany | Different

  /** A new invoice or keysend; the velocity control's answer is a parameter. */
  function AddInvoice(s: NodeState, hash: Hash, i: PaymentState, maxInvoices: nat, withinVelocity: bool): (NodeState, AddResult) {
    if |s.invoices| >= maxInvoices then (s, TooMany)
    else if hash in s.invoices then
      (s, if s.invoices[hash].invoiceHash == i.invoiceHash then Added(true) else Different)
    else if !withinVelocity then (s, Added(false))
    else (s.(invoices := s.invoices[hash := i],
             payments := if hash in s.payments then s.payments else s.payments[hash := NEW_PAYMENT]), Added(true))
  }

  /** An invoice of ours is signed; one for nothing is not remembered. */
  function IssueInvoice(s: NodeState, hash: Hash, i: PaymentState, maxInvoices: nat): (NodeState, AddResult) {
    if |s.issued| >= maxInvoices then (s, TooMany)
    else if hash in s.issued then
      (s, if s.issued[hash].invoiceHash == i.invoiceHash then Added(true) else Different)
    else (if i.amountMsat > 0 then s.(issued := s.issued[hash := i]) else s, Added(true))
  }

  /** Restoring from storage gives every invoice a payment. */
  function Restore(s: NodeState): NodeState {
    s.(payments := s.payments + map h | h in s.invoices :: NEW_PAYMENT)
  }

  // ---------------------------------------------------------------------------
  // Prediction equals effect
  // ---------------------------------------------------------------------------

  lemma ApplyPaymentTotals(p: RoutedPayment, channel: ChannelId, incoming: nat, outgoing: nat,
                           incomingCltv: Option<nat>, outgoingCltv: Option<nat>)
    ensures
      var q := ApplyPayment(p, channel, incoming, outgoing, incomingCltv, outgoingCltv);
      (Incoming(q), Outgoing(q)) == Predicted(p, channel, incoming, outgoing)
  {
    SumUpdate(p.incoming, channel, incoming);
    SumUpdate(p.outgoing, channel, outgoing);
  }

  /** The totals that validation checked are the totals after the update is applied, for
      every payment the update names; every other payment, and every invoice, is untouched. */
  lemma PredictionIsEffect(s: NodeState, policy: Policy, u: Update, hash: Hash)
    requires ApplyPayments(s, policy, u).Some?
    ensures
      var s' := ApplyPayments(s, policy, u).value;
      && s'.invoices == s.invoices
      && (hash in u.Hashes() ==>
            && hash in s'.payments
            && (Incoming(s'.payments[hash]), Outgoing(s'.payments[hash])) == PredictedFor(s, u, hash))
      && (hash !in u.Hashes() ==>
            && (hash in s'.payments <==> hash in s.payments)
            && (hash in s.payments ==> s'.payments[hash] == s.payments[hash]))
  {
    if hash in u.Hashes() {
      var p := PaymentFor(s, hash);
      var marked := if policy.enforceBalance && Pays(s, u, hash) then p.(preimage := Some(DUMMY_PREIMAGE)) else p;
      ApplyPaymentTotals(marked, u.channel, Get(u.incoming, hash), Get(u.outgoing, hash),
                         IncomingCltv(u.info, hash), OutgoingCltv(u.info, hash));
      if hash !in s.payments {
        assert Sum<ChannelId>(map[]) == 0;
      }
    }
  }

  /** Applying right after an accepted validation does not panic, and keeps every payment
      it touched within what validation allows. */
  lemma AcceptedApplies(s: NodeState, policy: Policy, u: Update)
    requires Validate(s, policy, u) == Accepted
    ensures ApplyPayments(s, policy, u).Some?
    ensures
      var s' := ApplyPayments(s, policy, u).value;
      forall h :: h in u.Hashes() && (h in s.invoices || h !in s.payments) ==>
        BalanceOk(policy, Incoming(s'.payments[h]) * 1000, Outgoing(s'.payments[h]) * 1000,
                  if h in s.invoices then Some(s.invoices[h].amountMsat) else None)
  {
    var s' := ApplyPayments(s, policy, u).value;
    forall h | h in u.Hashes() && (h in s.invoices || h !in s.payments)
      ensures BalanceOk(policy, Incoming(s'.payments[h]) * 1000, Outgoing(s'.payments[h]) * 1000,
                        if h in s.invoices then Some(s.invoices[h].amountMsat) else None)
    {
      PredictionIsEffect(s, policy, u, h);
      assert !Unbalanced(s, policy, u, h);
    }
  }
}
