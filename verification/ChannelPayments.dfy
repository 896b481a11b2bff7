/**
 What the commitments of one channel say about payments: the amounts in flight per payment
 hash, which the node's ledger is told whenever a commitment changes, and the balance a
 commitment is worth to the holder.
 */
module ChannelPayments {
  import opened Options
  import opened Sums
  import opened Ledger

  /** The two current commitments, and the holder's next one once validated but not yet revoked into. */
  datatype Commitments = Commitments(
    holder: Option<CommitmentInfo>, counterparty: Option<CommitmentInfo>, pending: Option<CommitmentInfo>)

  const NO_COMMITMENTS := Commitments(None, None, None)

  function OfferedIn(info: Option<CommitmentInfo>): seq<Htlc> {
    if info.Some? then info.value.offered else []
  }

  function ReceivedIn(info: Option<CommitmentInfo>): seq<Htlc> {
    if info.Some? then info.value.received else []
  }

  // ---------------------------------------------------------------------------
  // Amounts in flight
  // ---------------------------------------------------------------------------

  /** Several HTLCs of one payment add up. */
  function Amount(htlcs: seq<Htlc>, hash: Hash): nat {
    if htlcs == [] then 0
    else Amount(htlcs[1..], hash) + if htlcs[0].paymentHash == hash then htlcs[0].valueSat else 0
  }

  function Named(htlcs: seq<Htlc>): set<Hash> {
    set i | 0 <= i < |htlcs| :: htlcs[i].paymentHash
  }

  function Max(a: nat, b: nat): nat {
    if a >= b then a else b
  }

  function Min(a: nat, b: nat): nat {
    if a <= b then a else b
  }

  /** What goes out is the greater, and what comes in the lesser, of what the two commitments say. */
  function OutgoingAmount(holder: Option<CommitmentInfo>, counterparty: Option<CommitmentInfo>, hash: Hash): nat {
    Max(Amount(OfferedIn(holder), hash), Amount(ReceivedIn(counterparty), hash))
  }

  function IncomingAmount(holder: Option<CommitmentInfo>, counterparty: Option<CommitmentInfo>, hash: Hash): nat {
    Min(Amount(ReceivedIn(holder), hash), Amount(OfferedIn(counterparty), hash))
  }

  /** The summary of a new pair of commitments also names, at zero, what only the current pair has. */
  function OutgoingSummary(k: Commitments, holder: Option<CommitmentInfo>, counterparty: Option<CommitmentInfo>): map<Hash, nat> {
    map h | h in Named(OfferedIn(holder)) + Named(ReceivedIn(counterparty))
                 + Named(OfferedIn(k.holder)) + Named(ReceivedIn(k.counterparty)) ::
      OutgoingAmount(holder, counterparty, h)
  }

  /** A payment comes in only once both commitments have it. */
  function IncomingSummary(k: Commitments, holder: Option<CommitmentInfo>, counterparty: Option<CommitmentInfo>): map<Hash, nat> {
    map h | h in Named(ReceivedIn(holder)) * Named(OfferedIn(counterparty))
                 + Named(ReceivedIn(k.holder)) + Named(OfferedIn(k.counterparty)) ::
      IncomingAmount(holder, counterparty, h)
  }

  function SummaryUpdate(channel: ChannelId, k: Commitments, holder: Option<CommitmentInfo>,
                         counterparty: Option<CommitmentInfo>, delta: BalanceDelta, info: CommitmentInfo): Update {
    Update(channel, IncomingSummary(k, holder, counterparty), OutgoingSummary(k, holder, counterparty), delta, Some(info))
  }

  function AsHolder(info: CommitmentInfo): CommitmentInfo {
    info.(isCounterparty := false)
  }

  function AsCounterparty(info: CommitmentInfo): CommitmentInfo {
    info.(isCounterparty := true)
  }

  /** What the ledger is told about a new holder commitment, and about a new counterparty commitment. */
  function HolderUpdate(channel: ChannelId, k: Commitments, info: CommitmentInfo, delta: BalanceDelta): Update {
    SummaryUpdate(channel, k, Some(AsHolder(info)), k.counterparty, delta, AsHolder(info))
  }

  function CounterpartyUpdate(channel: ChannelId, k: Commitments, info: CommitmentInfo, delta: BalanceDelta): Update {
    SummaryUpdate(channel, k, k.holder, Some(AsCounterparty(info)), delta, AsCounterparty(info))
  }

  lemma {:induction false} UnnamedAmount(htlcs: seq<Htlc>, hash: Hash)
    requires hash !in Named(htlcs)
    ensures Amount(htlcs, hash) == 0
  {
    if htlcs != [] {
      assert htlcs[0].paymentHash in Named(htlcs);
      forall h | h in Named(htlcs[1..]) ensures h in Named(htlcs) {
        var i :| 0 <= i < |htlcs[1..]| && htlcs[1..][i].paymentHash == h;
        assert htlcs[i + 1].paymentHash == h;
      }
      UnnamedAmount(htlcs[1..], hash);
    }
  }

  /** The summaries give the amount of every payment, whether they name it or not; and they
      leave out only payments that neither the current nor the new pair has in flight. */
  lemma SummaryAmounts(channel: ChannelId, k: Commitments, holder: Option<CommitmentInfo>, counterparty: Option<CommitmentInfo>,
                       delta: BalanceDelta, info: CommitmentInfo, hash: Hash)
    ensures
      var u := SummaryUpdate(channel, k, holder, counterparty, delta, info);
      && Get(u.outgoing, hash) == OutgoingAmount(holder, counterparty, hash)
      && Get(u.incoming, hash) == IncomingAmount(holder, counterparty, hash)
      && (hash !in u.Hashes() ==>
            && OutgoingAmount(holder, counterparty, hash) == OutgoingAmount(k.holder, k.counterparty, hash) == 0
            && IncomingAmount(holder, counterparty, hash) == IncomingAmount(k.holder, k.counterparty, hash) == 0)
  {
    Unnamed(OfferedIn(holder), hash);
    Unnamed(ReceivedIn(holder), hash);
    Unnamed(OfferedIn(counterparty), hash);
    Unnamed(ReceivedIn(counterparty), hash);
    Unnamed(OfferedIn(k.holder), hash);
    Unnamed(ReceivedIn(k.counterparty), hash);
    Unnamed(ReceivedIn(k.holder), hash);
    Unnamed(OfferedIn(k.counterparty), hash);
  }

  lemma Unnamed(htlcs: seq<Htlc>, hash: Hash)
    ensures hash !in Named(htlcs) ==> Amount(htlcs, hash) == 0
  {
    if hash !in Named(htlcs) { UnnamedAmount(htlcs, hash); }
  }

  // ---------------------------------------------------------------------------
  // What a commitment is worth
  // ---------------------------------------------------------------------------

  /** The funding a channel's commitments divide, and the holder's part of it at the start. */
  datatype Funding = Funding(value: nat, isOutbound: bool, initialHolder: nat)

  /** The payments whose preimage the node knows. */
  function KnownHashes(s: NodeState): set<Hash> {
    set h | h in s.payments && s.payments[h].preimage.Some?
  }

  function Total(htlcs: seq<Htlc>): nat {
    if htlcs == [] then 0 else Total(htlcs[1..]) + htlcs[0].valueSat
  }

  /** The value of the HTLCs whose preimage is known, or of those whose preimage is not. */
  function ValueOf(known: set<Hash>, htlcs: seq<Htlc>, wanted: bool): nat {
    if htlcs == [] then 0
    else ValueOf(known, htlcs[1..], wanted) + if (htlcs[0].paymentHash in known) == wanted then htlcs[0].valueSat else 0
  }

  function TotalValue(info: CommitmentInfo): nat {
    info.toBroadcaster + info.toCountersigner + Total(info.offered) + Total(info.received)
  }

  /** Our output, the fee if we funded the channel, what we offer without a preimage and
      what we are offered with one; `None` if the totals do not fit. */
  function Claimable(known: set<Hash>, f: Funding, info: CommitmentInfo): Option<nat> {
    var ours := if info.isCounterparty then info.toCountersigner else info.toBroadcaster;
    if f.isOutbound && TotalValue(info) > f.value then None else
      var fee := if f.isOutbound then f.value - TotalValue(info) else 0;
      var balance := ours + fee + ValueOf(known, OutgoingHtlcs(info), false) + ValueOf(known, IncomingHtlcs(info), true);
      if balance > U64_MAX then None else Some(balance)
  }

  function ClaimableIn(known: set<Hash>, f: Funding, info: Option<CommitmentInfo>): Option<nat> {
    if info.None? then None else Claimable(known, f, info.value)
  }

  /** The lesser of the two, and before the first commitment the initial value. */
  function Worth(known: set<Hash>, f: Funding, holder: Option<CommitmentInfo>, counterparty: Option<CommitmentInfo>): nat {
    var balance := MinOpt(ClaimableIn(known, f, holder), ClaimableIn(known, f, counterparty));
    if balance.None? then f.initialHolder else balance.value
  }

  /** The balance before and after a new commitment of a channel with one funding; `None`
      where a new commitment that does not fit is refused. */
  function HolderDelta(known: set<Hash>, f: Funding, k: Commitments, info: CommitmentInfo): Option<BalanceDelta> {
    if Claimable(known, f, AsHolder(info)).None? then None
    else Some(BalanceDelta(Worth(known, f, k.holder, k.counterparty), Worth(known, f, Some(AsHolder(info)), k.counterparty)))
  }

  function CounterpartyDelta(known: set<Hash>, f: Funding, k: Commitments, info: CommitmentInfo): Option<BalanceDelta> {
    if Claimable(known, f, AsCounterparty(info)).None? then None
    else Some(BalanceDelta(Worth(known, f, k.holder, k.counterparty), Worth(known, f, k.holder, Some(AsCounterparty(info)))))
  }

  // ---------------------------------------------------------------------------
  // What a preimage changes
  // ---------------------------------------------------------------------------

  /** The two commitments have the same in flight for a payment. */
  predicate Agreed(k: Commitments, hash: Hash) {
    && Amount(OfferedIn(k.holder), hash) == Amount(ReceivedIn(k.counterparty), hash)
    && Amount(ReceivedIn(k.holder), hash) == Amount(OfferedIn(k.counterparty), hash)
  }

  /** The current commitments are the right way round and within the funding. */
  predicate Fits(f: Funding, k: Commitments) {
    && f.value <= U64_MAX
    && (k.holder.Some? ==> !k.holder.value.isCounterparty && TotalValue(k.holder.value) <= f.value)
    && (k.counterparty.Some? ==> k.counterparty.value.isCounterparty && TotalValue(k.counterparty.value) <= f.value)
  }

  lemma {:induction false} ValueBounded(known: set<Hash>, htlcs: seq<Htlc>, wanted: bool)
    ensures ValueOf(known, htlcs, wanted) <= Total(htlcs)
  {
    if htlcs != [] { ValueBounded(known, htlcs[1..], wanted); }
  }

  lemma {:induction false} LearnValue(known: set<Hash>, htlcs: seq<Htlc>, hash: Hash)
    requires hash !in known
    ensures ValueOf(known + {hash}, htlcs, false) + Amount(htlcs, hash) == ValueOf(known, htlcs, false)
    ensures ValueOf(known + {hash}, htlcs, true) == ValueOf(known, htlcs, true) + Amount(htlcs, hash)
  {
    if htlcs != [] { LearnValue(known, htlcs[1..], hash); }
  }

  lemma LearnClaim(known: set<Hash>, f: Funding, info: CommitmentInfo, hash: Hash)
    requires hash !in known && TotalValue(info) <= f.value <= U64_MAX
    ensures Claimable(known, f, info).Some? && Claimable(known + {hash}, f, info).Some?
    ensures Claimable(known + {hash}, f, info).value + Amount(OutgoingHtlcs(info), hash)
            == Claimable(known, f, info).value + Amount(IncomingHtlcs(info), hash)
  {
    LearnValue(known, OutgoingHtlcs(info), hash);
    LearnValue(known, IncomingHtlcs(info), hash);
    ValueBounded(known, OutgoingHtlcs(info), false);
    ValueBounded(known, IncomingHtlcs(info), true);
    ValueBounded(known + {hash}, OutgoingHtlcs(info), false);
    ValueBounded(known + {hash}, IncomingHtlcs(info), true);
  }

  /** A new preimage makes a channel that agrees on the payment worth what comes in more, and
      what goes out less. */
  lemma LearnWorth(known: set<Hash>, f: Funding, k: Commitments, hash: Hash)
    requires hash !in known && Fits(f, k) && Agreed(k, hash)
    ensures Worth(known + {hash}, f, k.holder, k.counterparty) + OutgoingAmount(k.holder, k.counterparty, hash)
            == Worth(known, f, k.holder, k.counterparty) + IncomingAmount(k.holder, k.counterparty, hash)
  {
    if k.holder.Some? { LearnClaim(known, f, k.holder.value, hash); }
    if k.counterparty.Some? { LearnClaim(known, f, k.counterparty.value, hash); }
  }
}
