/**
 The ledger against the channels' own commitments. What the ledger records for a channel and
 a payment is what that channel's two current commitments have in flight, over every run,
 until an event moves one and not the other; the bound of an invoice then bounds what the
 commitments of all channels together send out.
 */
module LedgerMirror {
  import opened Options
  import opened Sums
  import opened Ledger
  import opened ChannelPayments
  import opened LedgerRuns
  import opened LedgerBounds

  /** What the two current commitments of a channel have in flight for a payment. */
  function Committed(k: Commitments, hash: Hash): (nat, nat) {
    (IncomingAmount(k.holder, k.counterparty, hash), OutgoingAmount(k.holder, k.counterparty, hash))
  }

  ghost predicate Mirrors(n: Node, channel: ChannelId, hash: Hash) {
    Stake(n.ledger, hash, channel) == Committed(Of(n, channel), hash)
  }

  /** The event moves the ledger's record of the channel, or the channel's commitments, without
      the other: a signature that does not advance, an activation, a splice or a lock of that
      channel, or a heartbeat that prunes the payment. */
  ghost predicate Detaches(n: Node, policy: Policy, e: Event, channel: ChannelId, hash: Hash) {
    var k := Of(n, channel);
    match e
    case Sign(c, info, _, advances) =>
      && c == channel && !advances && VerdictOn(n, policy, e) == Accepted
      && Committed(k.(counterparty := Some(AsCounterparty(info))), hash) != Committed(k, hash)
    case Activate(c) => c == channel && k.pending.Some? && Committed(Promoted(k), hash) != Committed(k, hash)
    case Splice(c) => c == channel && Committed(k, hash) != (0, 0)
    case Lock(c, _, _) => c == channel && Committed(k, hash) != (0, 0)
    case Heartbeat(now) => Dropped(n.ledger, now, hash) && Committed(k, hash) != (0, 0)
    case _ => false
  }

  /** Applying the summaries of a new pair of commitments records exactly that pair. */
  lemma AppliedPair(s: NodeState, policy: Policy, c: ChannelId, k: Commitments, holder: Option<CommitmentInfo>,
                    counterparty: Option<CommitmentInfo>, delta: BalanceDelta, info: CommitmentInfo, hash: Hash)
    requires ApplyPayments(s, policy, SummaryUpdate(c, k, holder, counterparty, delta, info)).Some?
    requires Stake(s, hash, c) == Committed(k, hash)
    ensures
      var s' := ApplyPayments(s, policy, SummaryUpdate(c, k, holder, counterparty, delta, info)).value;
      && Stake(s', hash, c) == Committed(Commitments(holder, counterparty, None), hash)
      && forall other: ChannelId :: other != c ==> Stake(s', hash, other) == Stake(s, hash, other)
  {
    ApplyStakes(s, policy, SummaryUpdate(c, k, holder, counterparty, delta, info), hash);
    SummaryAmounts(c, k, holder, counterparty, delta, info, hash);
  }

  lemma AppliedElsewhere(n: Node, policy: Policy, e: Event, channel: ChannelId, hash: Hash)
    requires Step(n, policy, e).Some? && Applied(n, policy, e).Some? && e.channel != channel
    ensures Stake(Step(n, policy, e).value.ledger, hash, channel) == Stake(n.ledger, hash, channel)
    ensures Of(Step(n, policy, e).value, channel) == Of(n, channel)
  {
    ApplyStakes(n.ledger, policy, Applied(n, policy, e).value, hash);
  }

  lemma AppliedHere(n: Node, policy: Policy, e: Event, hash: Hash)
    requires Step(n, policy, e).Some? && Applied(n, policy, e).Some? && Mirrors(n, e.channel, hash)
    ensures Mirrors(Step(n, policy, e).value, e.channel, hash) <==> !Detaches(n, policy, e, e.channel, hash)
  {
    var k := Of(n, e.channel);
    var u := Applied(n, policy, e).value;
    if e.Sign? {
      AppliedPair(n.ledger, policy, e.channel, k, k.holder, Some(AsCounterparty(e.info)), e.delta, u.info.value, hash);
    } else {
      AppliedPair(n.ledger, policy, e.channel, k, Some(AsHolder(k.pending.value)), k.counterparty, e.change.value,
                  u.info.value, hash);
    }
  }

  /** A step keeps the ledger's record of a channel equal to the channel's commitments,
      exactly when it does not detach them. */
  lemma StepKeepsMirror(n: Node, policy: Policy, e: Event, channel: ChannelId, hash: Hash)
    requires Indexed(n.ledger) && Mirrors(n, channel, hash) && Step(n, policy, e).Some?
    ensures Mirrors(Step(n, policy, e).value, channel, hash) <==> !Detaches(n, policy, e, channel, hash)
  {
    if Applied(n, policy, e).Some? {
      if e.channel == channel { AppliedHere(n, policy, e, hash); } else { AppliedElsewhere(n, policy, e, channel, hash); }
    } else {
      LedgerOnly(n, policy, e, channel, hash);
    }
  }

  ghost predicate AlwaysMirrors(n: Node, policy: Policy, es: seq<Event>, channel: ChannelId, hash: Hash)
    decreases |es|
  {
    Mirrors(n, channel, hash) &&
    (es != [] && Step(n, policy, es[0]).Some? ==>
       AlwaysMirrors(Step(n, policy, es[0]).value, policy, es[1..], channel, hash))
  }

  ghost predicate Attached(n: Node, policy: Policy, es: seq<Event>, channel: ChannelId, hash: Hash)
    decreases |es|
  {
    es == [] ||
    (Step(n, policy, es[0]).Some? ==>
       && !Detaches(n, policy, es[0], channel, hash)
       && Attached(Step(n, policy, es[0]).value, policy, es[1..], channel, hash))
  }

  /** Over every run, at every point, the ledger has for a channel and a payment what the
      channel's current commitments have, if and only if no step detaches the two. */
  lemma {:induction false} LedgerMirrorsCommitments(n: Node, policy: Policy, es: seq<Event>, channel: ChannelId, hash: Hash)
    requires Indexed(n.ledger) && Mirrors(n, channel, hash)
    ensures AlwaysMirrors(n, policy, es, channel, hash) <==> Attached(n, policy, es, channel, hash)
    decreases |es|
  {
    if es != [] && Step(n, policy, es[0]).Some? {
      var n' := Step(n, policy, es[0]).value;
      StepKeepsMirror(n, policy, es[0], channel, hash);
      StepKeepsIndex(n, policy, es[0]);
      if Mirrors(n', channel, hash) {
        LedgerMirrorsCommitments(n', policy, es[1..], channel, hash);
      }
    }
  }

  lemma {:induction false} MirrorsAtEnd(n: Node, policy: Policy, es: seq<Event>, channel: ChannelId, hash: Hash)
    requires AlwaysMirrors(n, policy, es, channel, hash) && Run(n, policy, es).Some?
    ensures Mirrors(Run(n, policy, es).value, channel, hash)
    decreases |es|
  {
    if es != [] { MirrorsAtEnd(Step(n, policy, es[0]).value, policy, es[1..], channel, hash); }
  }

  lemma {:induction false} WithinAtEnd(n: Node, policy: Policy, es: seq<Event>, hash: Hash)
    requires AlwaysWithin(n, policy, es, hash) && Run(n, policy, es).Some?
    ensures Within(Run(n, policy, es).value.ledger, policy, hash)
    decreases |es|
  {
    if es != [] { WithinAtEnd(Step(n, policy, es[0]).value, policy, es[1..], hash); }
  }

  /** What each channel's commitments have in flight for a payment. */
  function IncomingBy(n: Node, hash: Hash): map<ChannelId, nat> {
    map c | c in n.channels :: Committed(n.channels[c], hash).0
  }

  function OutgoingBy(n: Node, hash: Hash): map<ChannelId, nat> {
    map c | c in n.channels :: Committed(n.channels[c], hash).1
  }

  lemma StakeIsCommitted(n: Node, c: ChannelId, hash: Hash)
    requires Mirrors(n, c, hash)
    ensures Get(PaymentFor(n.ledger, hash).incoming, c) == Get(IncomingBy(n, hash), c)
    ensures Get(PaymentFor(n.ledger, hash).outgoing, c) == Get(OutgoingBy(n, hash), c)
  {
  }

  lemma TotalsAreCommitted(n: Node, hash: Hash)
    requires forall c: ChannelId :: Mirrors(n, c, hash)
    ensures Incoming(PaymentFor(n.ledger, hash)) == Sum(IncomingBy(n, hash))
    ensures Outgoing(PaymentFor(n.ledger, hash)) == Sum(OutgoingBy(n, hash))
  {
    var p := PaymentFor(n.ledger, hash);
    forall c: ChannelId
      ensures Get(p.incoming, c) == Get(IncomingBy(n, hash), c) && Get(p.outgoing, c) == Get(OutgoingBy(n, hash), c)
    {
      StakeIsCommitted(n, c, hash);
    }
    SumSame(p.incoming, IncomingBy(n, hash));
    SumSame(p.outgoing, OutgoingBy(n, hash));
  }

  /** Over every run that respects the invoice and detaches nothing, the current commitments
      of all channels together send out at most what they bring in plus the invoice and the
      routing fee. */
  lemma CommittedIsBounded(n: Node, policy: Policy, es: seq<Event>, hash: Hash)
    requires Indexed(n.ledger) && Within(n.ledger, policy, hash) && Respected(n, policy, es, hash)
    requires forall c: ChannelId :: Mirrors(n, c, hash) && Attached(n, policy, es, c, hash)
    requires Run(n, policy, es).Some? && hash in Run(n, policy, es).value.ledger.invoices
    ensures
      var m := Run(n, policy, es).value;
      Sum(OutgoingBy(m, hash)) * 1000
      <= Sum(IncomingBy(m, hash)) * 1000 + m.ledger.invoices[hash].amountMsat + policy.maxRoutingFeeMsat
  {
    var m := Run(n, policy, es).value;
    InvoicedIsBounded(n, policy, es, hash);
    WithinAtEnd(n, policy, es, hash);
    RunKeepsIndex(n, policy, es);
    forall c: ChannelId ensures Mirrors(m, c, hash) {
      assert Mirrors(n, c, hash) && Attached(n, policy, es, c, hash);
      LedgerMirrorsCommitments(n, policy, es, c, hash);
      MirrorsAtEnd(n, policy, es, c, hash);
    }
    TotalsAreCommitted(m, hash);
  }
}
