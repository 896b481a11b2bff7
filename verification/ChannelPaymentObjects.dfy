/**
 A channel's summaries and balances computed by the source's loops, and the channel's part in
 the runs of `LedgerRuns` updated in place; `ok` is false where the source panics.
 */
module ChannelPaymentObjects {
  import opened Options
  import opened Sums
  import opened Ledger
  import opened ChannelPayments
  import opened LedgerRuns
  import opened LedgerObjects

  // ---------------------------------------------------------------------------
  // Summaries
  // ---------------------------------------------------------------------------

  lemma {:induction false} AmountSnoc(htlcs: seq<Htlc>, h: Htlc, hash: Hash)
    ensures Amount(htlcs + [h], hash) == Amount(htlcs, hash) + if h.paymentHash == hash then h.valueSat else 0
  {
    if htlcs == [] {
      assert htlcs + [h] == [h] && [h][1..] == [];
    } else {
      assert (htlcs + [h])[1..] == htlcs[1..] + [h];
      AmountSnoc(htlcs[1..], h, hash);
    }
  }

  lemma NamedSnoc(htlcs: seq<Htlc>, h: Htlc)
    ensures Named(htlcs + [h]) == Named(htlcs) + {h.paymentHash}
  {
    assert (htlcs + [h])[|htlcs|].paymentHash in Named(htlcs + [h]);
    forall x | x in Named(htlcs) ensures x in Named(htlcs + [h]) {
      var i :| 0 <= i < |htlcs| && htlcs[i].paymentHash == x;
      assert (htlcs + [h])[i].paymentHash == x;
    }
  }

  function Summarized(htlcs: seq<Htlc>): map<Hash, nat> {
    map h | h in Named(htlcs) :: Amount(htlcs, h)
  }

  method SummarizePayments(htlcs: seq<Htlc>) returns (summary: map<Hash, nat>)
    ensures summary == Summarized(htlcs)
  {
    summary := map[];
    for i := 0 to |htlcs|
      invariant summary == Summarized(htlcs[..i])
    {
      var h := htlcs[i];
      SummarizedSnoc(htlcs[..i], h);
      assert htlcs[..i + 1] == htlcs[..i] + [h];
      summary := summary[h.paymentHash := Get(summary, h.paymentHash) + h.valueSat];
    }
    assert htlcs[..|htlcs|] == htlcs;
  }

  lemma SummarizedSnoc(htlcs: seq<Htlc>, h: Htlc)
    ensures Summarized(htlcs + [h]) ==
            Summarized(htlcs)[h.paymentHash := Get(Summarized(htlcs), h.paymentHash) + h.valueSat]
  {
    NamedSnoc(htlcs, h);
    Unnamed(htlcs, h.paymentHash);
    forall x | x in Named(htlcs + [h])
      ensures Amount(htlcs + [h], x) == Amount(htlcs, x) + if h.paymentHash == x then h.valueSat else 0
    {
      AmountSnoc(htlcs, h, x);
    }
  }

  function Entered(start: map<Hash, nat>, htlcs: seq<Htlc>): map<Hash, nat> {
    map h | h in start.Keys + Named(htlcs) :: Get(start, h)
  }

  function United(start: map<Hash, nat>, other: map<Hash, nat>): map<Hash, nat> {
    map h | h in start.Keys + other.Keys :: Max(Get(start, h), Get(other, h))
  }

  function Intersected(start: map<Hash, nat>, other: map<Hash, nat>): map<Hash, nat> {
    map h | h in start.Keys * other.Keys :: Min(start[h], other[h])
  }

  /** Payments the summary lacks enter it at zero. */
  method EnterZeros(start: map<Hash, nat>, htlcs: seq<Htlc>) returns (summary: map<Hash, nat>)
    ensures summary == Entered(start, htlcs)
  {
    summary := start;
    for i := 0 to |htlcs|
      invariant summary == Entered(start, htlcs[..i])
    {
      NamedSnoc(htlcs[..i], htlcs[i]);
      assert htlcs[..i + 1] == htlcs[..i] + [htlcs[i]];
      if htlcs[i].paymentHash !in summary {
        summary := summary[htlcs[i].paymentHash := 0];
      }
    }
    assert htlcs[..|htlcs|] == htlcs;
  }

  /** The greater amount of each payment. */
  method Unite(start: map<Hash, nat>, other: map<Hash, nat>) returns (summary: map<Hash, nat>)
    ensures summary == United(start, other)
  {
    summary := start;
    var rest := other.Keys;
    while rest != {}
      invariant rest <= other.Keys
      invariant summary == map h | h in start.Keys + (other.Keys - rest) ::
                             if h in rest then Get(start, h) else Max(Get(start, h), Get(other, h))
      decreases rest
    {
      var h :| h in rest;
      summary := summary[h := if h in summary then Max(summary[h], other[h]) else other[h]];
      rest := rest - {h};
    }
  }

  /** The lesser amount of each payment in both. */
  method Intersect(start: map<Hash, nat>, other: map<Hash, nat>) returns (summary: map<Hash, nat>)
    ensures summary == Intersected(start, other)
  {
    summary := map h | h in start && h in other :: start[h];
    var rest := other.Keys;
    while rest != {}
      invariant rest <= other.Keys
      invariant summary == map h | h in start.Keys * other.Keys :: if h in rest then start[h] else Min(start[h], other[h])
      decreases rest
    {
      var h :| h in rest;
      if h in summary {
        summary := summary[h := Min(summary[h], other[h])];
      }
      rest := rest - {h};
    }
  }

  function Or(given: Option<CommitmentInfo>, current: Option<CommitmentInfo>): Option<CommitmentInfo> {
    if given.Some? then given else current
  }

  lemma SummarizedAmount(htlcs: seq<Htlc>, hash: Hash)
    ensures Get(Summarized(htlcs), hash) == Amount(htlcs, hash)
  {
    Unnamed(htlcs, hash);
  }

  lemma EnteredTwice(start: map<Hash, nat>, xs: seq<Htlc>, ys: seq<Htlc>, twice: map<Hash, nat>)
    requires twice == Entered(Entered(start, xs), ys)
    ensures twice.Keys == start.Keys + Named(xs) + Named(ys)
    ensures forall h :: h in twice ==> twice[h] == Get(start, h)
  {
  }

  lemma UnitedIsOutgoing(k: Commitments, holder: Option<CommitmentInfo>, counterparty: Option<CommitmentInfo>,
                         united: map<Hash, nat>)
    requires united == United(Summarized(OfferedIn(holder)), Summarized(ReceivedIn(counterparty)))
    ensures Entered(Entered(united, OfferedIn(k.holder)), ReceivedIn(k.counterparty)) == OutgoingSummary(k, holder, counterparty)
  {
    var all := OutgoingSummary(k, holder, counterparty);
    var twice := Entered(Entered(united, OfferedIn(k.holder)), ReceivedIn(k.counterparty));
    EnteredTwice(united, OfferedIn(k.holder), ReceivedIn(k.counterparty), twice);
    UnitedKeys(OfferedIn(holder), ReceivedIn(counterparty));
    assert twice.Keys == all.Keys;
    forall h | h in all ensures twice[h] == all[h] {
      UnitedAmount(OfferedIn(holder), ReceivedIn(counterparty), h);
    }
  }

  lemma UnitedKeys(xs: seq<Htlc>, ys: seq<Htlc>)
    ensures United(Summarized(xs), Summarized(ys)).Keys == Named(xs) + Named(ys)
  {
  }

  lemma UnitedAmount(xs: seq<Htlc>, ys: seq<Htlc>, hash: Hash)
    ensures Get(United(Summarized(xs), Summarized(ys)), hash) == Max(Amount(xs, hash), Amount(ys, hash))
  {
    SummarizedAmount(xs, hash);
    SummarizedAmount(ys, hash);
  }

  lemma IntersectedIsIncoming(k: Commitments, holder: Option<CommitmentInfo>, counterparty: Option<CommitmentInfo>,
                              both: map<Hash, nat>)
    requires both == Intersected(Summarized(ReceivedIn(holder)), Summarized(OfferedIn(counterparty)))
    ensures Entered(Entered(both, ReceivedIn(k.holder)), OfferedIn(k.counterparty)) == IncomingSummary(k, holder, counterparty)
  {
    var twice := Entered(Entered(both, ReceivedIn(k.holder)), OfferedIn(k.counterparty));
    EnteredTwice(both, ReceivedIn(k.holder), OfferedIn(k.counterparty), twice);
    forall h | h in twice ensures twice[h] == IncomingAmount(holder, counterparty, h) {
      IntersectedAmount(ReceivedIn(holder), OfferedIn(counterparty), h);
    }
  }

  lemma IntersectedAmount(xs: seq<Htlc>, ys: seq<Htlc>, hash: Hash)
    ensures Get(Intersected(Summarized(xs), Summarized(ys)), hash) == Min(Amount(xs, hash), Amount(ys, hash))
  {
    SummarizedAmount(xs, hash);
    SummarizedAmount(ys, hash);
  }

  method PaymentsSummary(k: Commitments, newHolder: Option<CommitmentInfo>, newCounterparty: Option<CommitmentInfo>)
    returns (summary: map<Hash, nat>)
    ensures summary == OutgoingSummary(k, Or(newHolder, k.holder), Or(newCounterparty, k.counterparty))
  {
    var holder, counterparty := Or(newHolder, k.holder), Or(newCounterparty, k.counterparty);
    var ours := SummarizePayments(OfferedIn(holder));
    var theirs := SummarizePayments(ReceivedIn(counterparty));
    summary := Unite(ours, theirs);
    UnitedIsOutgoing(k, holder, counterparty, summary);
    summary := EnterZeros(summary, OfferedIn(k.holder));
    summary := EnterZeros(summary, ReceivedIn(k.counterparty));
  }

  method IncomingPaymentsSummary(k: Commitments, newHolder: Option<CommitmentInfo>, newCounterparty: Option<CommitmentInfo>)
    returns (summary: map<Hash, nat>)
    ensures summary == IncomingSummary(k, Or(newHolder, k.holder), Or(newCounterparty, k.counterparty))
  {
    var holder, counterparty := Or(newHolder, k.holder), Or(newCounterparty, k.counterparty);
    var ours := SummarizePayments(ReceivedIn(holder));
    var theirs := SummarizePayments(OfferedIn(counterparty));
    summary := Intersect(ours, theirs);
    IntersectedIsIncoming(k, holder, counterparty, summary);
    summary := EnterZeros(summary, ReceivedIn(k.holder));
    summary := EnterZeros(summary, OfferedIn(k.counterparty));
  }

  // ---------------------------------------------------------------------------
  // Balances
  // ---------------------------------------------------------------------------

  lemma {:induction false} ValueSnoc(known: set<Hash>, htlcs: seq<Htlc>, h: Htlc, wanted: bool)
    ensures ValueOf(known, htlcs + [h], wanted) ==
            ValueOf(known, htlcs, wanted) + if (h.paymentHash in known) == wanted then h.valueSat else 0
  {
    if htlcs == [] {
      assert htlcs + [h] == [h] && [h][1..] == [];
    } else {
      assert (htlcs + [h])[1..] == htlcs[1..] + [h];
      ValueSnoc(known, htlcs[1..], h, wanted);
    }
  }

  lemma {:induction false} ValuePrefix(known: set<Hash>, htlcs: seq<Htlc>, i: nat, wanted: bool)
    requires i <= |htlcs|
    ensures ValueOf(known, htlcs[..i], wanted) <= ValueOf(known, htlcs, wanted)
    decreases |htlcs| - i
  {
    if i == |htlcs| {
      assert htlcs[..i] == htlcs;
    } else {
      assert htlcs[..i + 1] == htlcs[..i] + [htlcs[i]];
      ValueSnoc(known, htlcs[..i], htlcs[i], wanted);
      ValuePrefix(known, htlcs, i + 1, wanted);
    }
  }

  /** A checked sum: `None` as soon as it leaves the 64-bit range. */
  method AddValues(known: set<Hash>, start: nat, htlcs: seq<Htlc>, wanted: bool) returns (balance: Option<nat>)
    requires start <= U64_MAX
    ensures balance == var sum := start + ValueOf(known, htlcs, wanted); if sum > U64_MAX then None else Some(sum)
  {
    var sum := start;
    for i := 0 to |htlcs|
      invariant sum == start + ValueOf(known, htlcs[..i], wanted) && sum <= U64_MAX
    {
      assert htlcs[..i + 1] == htlcs[..i] + [htlcs[i]];
      ValueSnoc(known, htlcs[..i], htlcs[i], wanted);
      if (htlcs[i].paymentHash in known) == wanted {
        sum := sum + htlcs[i].valueSat;
        if sum > U64_MAX {
          ValuePrefix(known, htlcs, i + 1, wanted);
          return None;
        }
      }
    }
    assert htlcs[..|htlcs|] == htlcs;
    balance := Some(sum);
  }

  method ClaimableBalance(known: set<Hash>, f: Funding, info: CommitmentInfo) returns (balance: Option<nat>)
    ensures balance == Claimable(known, f, info)
  {
    var sum := if info.isCounterparty then info.toCountersigner else info.toBroadcaster;
    if f.isOutbound {
      var total := TotalValue(info);
      if f.value < total {
        return None;
      }
      sum := sum + (f.value - total);
    }
    if sum > U64_MAX {
      return None;
    }
    balance := AddValues(known, sum, OutgoingHtlcs(info), false);
    if balance.Some? {
      balance := AddValues(known, balance.value, IncomingHtlcs(info), true);
    }
  }

  // ---------------------------------------------------------------------------
  // The channel and the ledger
  // ---------------------------------------------------------------------------

  /** A node with one channel. */
  function Alone(s: NodeState, c: ChannelId, k: Commitments): Node {
    Node(s, map[c := k])
  }

  ghost function AloneWith(s: Option<NodeState>, c: ChannelId, k: Commitments): Option<Node> {
    if s.None? then None else Some(Alone(s.value, c, k))
  }

  lemma AloneStep(s: NodeState, c: ChannelId, k: Commitments, policy: Policy, e: Event)
    requires OnChannel(e) && e.channel == c
    ensures
      var n := Alone(s, c, k);
      Step(n, policy, e) == AloneWith(NextLedger(n, policy, e), c, NextCommitments(n, policy, e, k))
  {
    assert forall k': Commitments :: map[c := k][c := k'] == map[c := k'];
  }

  class LivePayments {
    const id: ChannelId
    const ledger: LiveLedger
    var holder: Option<CommitmentInfo>
    var counterparty: Option<CommitmentInfo>
    var pending: Option<CommitmentInfo>

    constructor (id: ChannelId, ledger: LiveLedger)
      ensures this.id == id && this.ledger == ledger && Own() == NO_COMMITMENTS
    {
      this.id, this.ledger := id, ledger;
      holder, counterparty, pending := None, None, None;
    }

    function Own(): Commitments
      reads this
    {
      Commitments(holder, counterparty, pending)
    }

    function View(): Node
      reads this, ledger
    {
      Alone(ledger.Value(), id, Own())
    }

    method Summary(newHolder: Option<CommitmentInfo>, newCounterparty: Option<CommitmentInfo>, delta: BalanceDelta,
                   info: CommitmentInfo) returns (u: Update)
      ensures u == SummaryUpdate(id, Own(), Or(newHolder, holder), Or(newCounterparty, counterparty), delta, info)
    {
      var incoming := IncomingPaymentsSummary(Own(), newHolder, newCounterparty);
      var outgoing := PaymentsSummary(Own(), newHolder, newCounterparty);
      u := Update(id, incoming, outgoing, delta, Some(info));
    }

    /** A counterparty commitment is validated and applied at once. */
    method SignCounterpartyCommitment(policy: Policy, info: CommitmentInfo, delta: BalanceDelta, advances: bool)
      returns (ok: bool)
      modifies this`counterparty, ledger
      ensures ok == Step(old(View()), policy, Sign(id, info, delta, advances)).Some?
      ensures ok ==> Some(View()) == Step(old(View()), policy, Sign(id, info, delta, advances))
    {
      AloneStep(ledger.Value(), id, Own(), policy, Sign(id, info, delta, advances));
      var u := Summary(None, Some(AsCounterparty(info)), delta, AsCounterparty(info));
      var v := ledger.ValidatePayments(policy, u);
      ok := v != Panic;
      if v == Accepted {
        if advances {
          counterparty := Some(AsCounterparty(info));
        }
        ok := ledger.ApplyPayments(policy, u);
      }
    }

    /** A holder commitment is validated and, if it is the next one, kept. */
    method ValidateHolderCommitment(policy: Policy, info: CommitmentInfo, delta: BalanceDelta, isNext: bool)
      returns (ok: bool)
      modifies this`pending
      ensures ok == Step(old(View()), policy, Hold(id, info, delta, isNext)).Some?
      ensures ok ==> Some(View()) == Step(old(View()), policy, Hold(id, info, delta, isNext))
    {
      AloneStep(ledger.Value(), id, Own(), policy, Hold(id, info, delta, isNext));
      var u := Summary(Some(AsHolder(info)), None, delta, AsHolder(info));
      var v := ledger.ValidatePayments(policy, u);
      ok := v != Panic;
      if v == Accepted && isNext {
        pending := Some(AsHolder(info));
      }
    }

    /** The kept commitment is taken, summarised anew and applied. */
    method RevokePreviousCommitment(policy: Policy, change: Option<BalanceDelta>) returns (ok: bool)
      modifies this`holder, this`pending, ledger
      ensures ok == Step(old(View()), policy, Revoke(id, change)).Some?
      ensures ok ==> Some(View()) == Step(old(View()), policy, Revoke(id, change))
    {
      AloneStep(ledger.Value(), id, Own(), policy, Revoke(id, change));
      ok := true;
      if pending.Some? {
        var info := AsHolder(pending.value);
        pending := None;
        if change.Some? {
          var u := Summary(Some(info), None, change.value, info);
          holder := Some(info);
          ok := ledger.ApplyPayments(policy, u);
        }
      }
    }
  }
}
