/**
 The ledger updated in place, with the source's loops over unordered sets. Each method
 computes the function of the same name whatever order the loops take, so the outcome
 does not depend on that order; `ok` is false where the source panics.
 */
module LedgerObjects {
  import opened Options
  import opened Sums
  import opened Ledger

  method PredictTotals(p: RoutedPayment, channel: ChannelId, incoming: nat, outgoing: nat) returns (i: nat, o: nat)
    ensures (i, o) == Predicted(p, channel, incoming, outgoing)
  {
    SumAtLeast(p.incoming, channel);
    SumAtLeast(p.outgoing, channel);
    var inTotal := Total(p.incoming);
    var outTotal := Total(p.outgoing);
    i := inTotal + incoming - Get(p.incoming, channel);
    o := outTotal + outgoing - Get(p.outgoing, channel);
  }

  method FindLowestCltv(htlcs: seq<Htlc>, hash: Hash) returns (low: Option<nat>)
    ensures low == LowestCltv(htlcs, hash)
  {
    low := None;
    var i := |htlcs|;
    while i > 0
      invariant 0 <= i <= |htlcs| && low == LowestCltv(htlcs[i..], hash)
    {
      i := i - 1;
      assert htlcs[i..][1..] == htlcs[i + 1..];
      low := MinOpt(if htlcs[i].paymentHash == hash then Some(htlcs[i].cltvExpiry) else None, low);
    }
    assert htlcs[0..] == htlcs;
  }

  method FindHighestCltv(htlcs: seq<Htlc>, hash: Hash) returns (high: Option<nat>)
    ensures high == HighestCltv(htlcs, hash)
  {
    high := None;
    var i := |htlcs|;
    while i > 0
      invariant 0 <= i <= |htlcs| && high == HighestCltv(htlcs[i..], hash)
    {
      i := i - 1;
      assert htlcs[i..][1..] == htlcs[i + 1..];
      high := MaxOpt(if htlcs[i].paymentHash == hash then Some(htlcs[i].cltvExpiry) else None, high);
    }
    assert htlcs[0..] == htlcs;
  }

  /** One payment moved to the update's amounts. */
  ghost function Moved(p: RoutedPayment, u: Update, hash: Hash): RoutedPayment {
    ApplyPayment(p, u.channel, Get(u.incoming, hash), Get(u.outgoing, hash),
                 IncomingCltv(u.info, hash), OutgoingCltv(u.info, hash))
  }

  /** Creating the missing payments, marking the paid ones and moving each, in that order, is the update. */
  lemma PhasesApply(s: NodeState, policy: Policy, u: Update, paid: set<Hash>,
                    created: map<Hash, RoutedPayment>, marked: map<Hash, RoutedPayment>, moved: map<Hash, RoutedPayment>)
    requires paid == set h | h in u.Hashes() && Pays(s, u, h)
    requires created == map h | h in s.payments.Keys + u.Hashes() :: PaymentFor(s, h)
    requires marked == map h | h in created ::
                         if policy.enforceBalance && h in paid then created[h].(preimage := Some(DUMMY_PREIMAGE))
                         else created[h]
    requires moved == map h | h in marked :: if h in u.Hashes() then Moved(marked[h], u, h) else marked[h]
    ensures moved == map h | h in s.payments.Keys + u.Hashes() ::
                       if h in u.Hashes() then AppliedPayment(s, policy, u, h) else s.payments[h]
  {
    forall h | h in moved
      ensures moved[h] == if h in u.Hashes() then AppliedPayment(s, policy, u, h) else s.payments[h]
    {
      assert created[h] == PaymentFor(s, h);
    }
  }

  lemma PhasesIssue(s: NodeState, u: Update, paid: set<Hash>, issued: map<Hash, PaymentState>)
    requires paid == set h | h in u.Hashes() && Pays(s, u, h)
    requires issued == map h | h in s.issued :: if h in paid then s.issued[h].(isFulfilled := true) else s.issued[h]
    ensures issued == map h | h in s.issued :: if Pays(s, u, h) then s.issued[h].(isFulfilled := true) else s.issued[h]
  {
  }

  class LiveLedger {
    var invoices: map<Hash, PaymentState>
    var issued: map<Hash, PaymentState>
    var payments: map<Hash, RoutedPayment>
    var excess: nat

    function Value(): NodeState
      reads this
    {
      NodeState(invoices, issued, payments, excess)
    }

    constructor ()
      ensures Value() == NodeState(map[], map[], map[], 0)
    {
      invoices, issued, payments, excess := map[], map[], map[], 0;
    }

    /** Whether one payment would be out of balance. */
    method CheckBalance(policy: Policy, u: Update, hash: Hash) returns (bad: bool)
      ensures bad == Unbalanced(Value(), policy, u, hash)
    {
      var i, o := Get(u.incoming, hash), Get(u.outgoing, hash);
      if hash in payments {
        i, o := PredictTotals(payments[hash], u.channel, i, o);
      }
      var invoiced := if hash in invoices then Some(invoices[hash].amountMsat) else None;
      bad := !BalanceOk(policy, i * 1000, o * 1000, invoiced) && !(hash in payments && invoiced.None?);
    }

    method ValidatePayments(policy: Policy, u: Update) returns (v: Verdict)
      ensures v == Validate(Value(), policy, u)
    {
      var hashes := u.Hashes();
      var rest := hashes;
      var unbalanced: seq<Hash> := [];
      while rest != {}
        invariant rest <= hashes
        invariant forall h :: h in hashes - rest ==> !CltvBad(Value(), policy, h)
        invariant forall h :: h in unbalanced ==> h in hashes && Unbalanced(Value(), policy, u, h)
        invariant forall h :: h in hashes - rest && Unbalanced(Value(), policy, u, h) ==> h in unbalanced
        decreases rest
      {
        var hash :| hash in rest;
        if CltvBad(Value(), policy, hash) {
          return BadCltv;
        }
        var bad := CheckBalance(policy, u, hash);
        if bad {
          unbalanced := unbalanced + [hash];
        }
        rest := rest - {hash};
      }
      if unbalanced != [] {
        assert unbalanced[0] in unbalanced;
        return BadBalance;
      }
      if policy.enforceBalance {
        if excess + u.delta.gain > U64_MAX {
          return Panic;
        }
        if excess + u.delta.gain < u.delta.loss {
          return Shortfall;
        }
      }
      v := Accepted;
    }

    /** The issued invoices an update pays; payments the update names are created. */
    method FindPaid(u: Update) returns (paid: set<Hash>)
      modifies this`payments
      ensures paid == set h | h in u.Hashes() && Pays(old(Value()), u, h)
      ensures payments == map h | h in old(payments).Keys + u.Hashes() :: PaymentFor(old(Value()), h)
    {
      var hashes := u.Hashes();
      var rest := hashes;
      paid := {};
      while rest != {}
        invariant rest <= hashes
        invariant payments == map h | h in old(payments).Keys + (hashes - rest) :: PaymentFor(old(Value()), h)
        invariant paid == set h | h in hashes - rest && Pays(old(Value()), u, h)
        decreases rest
      {
        var hash :| hash in rest;
        if hash !in payments {
          payments := payments[hash := NEW_PAYMENT];
        }
        if hash in issued && payments[hash].preimage.None? {
          var i, o := PredictTotals(payments[hash], u.channel, Get(u.incoming, hash), Get(u.outgoing, hash));
          if i >= o + issued[hash].amountMsat / 1000 {
            paid := paid + {hash};
          }
        }
        rest := rest - {hash};
      }
    }

    method MarkIssued(paid: set<Hash>)
      requires paid <= issued.Keys
      modifies this`issued
      ensures issued == map h | h in old(issued) ::
                          if h in paid then old(issued)[h].(isFulfilled := true) else old(issued)[h]
    {
      var rest := paid;
      while rest != {}
        invariant rest <= paid
        invariant issued == map h | h in old(issued) ::
                              if h in paid - rest then old(issued)[h].(isFulfilled := true) else old(issued)[h]
        decreases rest
      {
        var hash :| hash in rest;
        issued := issued[hash := issued[hash].(isFulfilled := true)];
        rest := rest - {hash};
      }
    }

    method MarkPaid(paid: set<Hash>)
      requires paid <= payments.Keys
      modifies this`payments
      ensures payments == map h | h in old(payments) ::
                            if h in paid then old(payments)[h].(preimage := Some(DUMMY_PREIMAGE)) else old(payments)[h]
    {
      var rest := paid;
      while rest != {}
        invariant rest <= paid
        invariant payments == map h | h in old(payments) ::
                                if h in paid - rest then old(payments)[h].(preimage := Some(DUMMY_PREIMAGE))
                                else old(payments)[h]
        decreases rest
      {
        var hash :| hash in rest;
        payments := payments[hash := payments[hash].(preimage := Some(DUMMY_PREIMAGE))];
        rest := rest - {hash};
      }
    }

    method ApplyEach(u: Update)
      requires u.Hashes() <= payments.Keys
      modifies this`payments
      ensures payments == map h | h in old(payments) ::
                            if h in u.Hashes() then Moved(old(payments)[h], u, h) else old(payments)[h]
    {
      var hashes := u.Hashes();
      var rest := hashes;
      while rest != {}
        invariant rest <= hashes
        invariant payments == map h | h in old(payments) ::
                                if h in hashes - rest then Moved(old(payments)[h], u, h) else old(payments)[h]
        decreases rest
      {
        var hash :| hash in rest;
        var inCltv, outCltv := None, None;
        if u.info.Some? {
          inCltv := FindLowestCltv(if u.info.value.isCounterparty then u.info.value.offered else u.info.value.received, hash);
          outCltv := FindHighestCltv(if u.info.value.isCounterparty then u.info.value.received else u.info.value.offered, hash);
        }
        payments := payments[hash := ApplyPayment(payments[hash], u.channel, Get(u.incoming, hash), Get(u.outgoing, hash),
                                                  inCltv, outCltv)];
        rest := rest - {hash};
      }
    }

    method TakeBalance(policy: Policy, delta: BalanceDelta, paid: set<Hash>) returns (ok: bool)
      requires paid <= payments.Keys
      modifies this`payments, this`excess
      ensures ok == !(policy.enforceBalance && (old(excess) + delta.gain > U64_MAX || old(excess) + delta.gain < delta.loss))
      ensures ok ==> excess == if policy.enforceBalance then old(excess) + delta.gain - delta.loss else old(excess)
      ensures ok ==> payments == map h | h in old(payments) ::
                                   if policy.enforceBalance && h in paid then old(payments)[h].(preimage := Some(DUMMY_PREIMAGE))
                                   else old(payments)[h]
    {
      ok := true;
      if policy.enforceBalance {
        ok := excess + delta.gain <= U64_MAX && excess + delta.gain >= delta.loss;
        if ok {
          MarkPaid(paid);
          excess := excess + delta.gain - delta.loss;
        }
      }
    }

    method ApplyPayments(policy: Policy, u: Update) returns (ok: bool)
      modifies this
      ensures ok == Ledger.ApplyPayments(old(Value()), policy, u).Some?
      ensures ok ==> Value() == Ledger.ApplyPayments(old(Value()), policy, u).value
    {
      ghost var s := Value();
      var paid := FindPaid(u);
      ghost var created := payments;
      MarkIssued(paid);
      PhasesIssue(s, u, paid, issued);
      ok := TakeBalance(policy, u.delta, paid);
      if ok {
        ghost var marked := payments;
        ApplyEach(u);
        PhasesApply(s, policy, u, paid, created, marked, payments);
      }
    }

    method HtlcFulfilled(policy: Policy, hash: Hash, preimage: Preimage) returns (ok: bool, fulfilled: bool)
      modifies this
      ensures ok == Ledger.HtlcFulfilled(old(Value()), policy, hash, preimage).Some?
      ensures ok ==> Value() == Ledger.HtlcFulfilled(old(Value()), policy, hash, preimage).value
      ensures ok ==> (fulfilled <==> (hash in old(issued) && !old(issued)[hash].isFulfilled)
                                     || (hash in old(payments) && old(payments)[hash].preimage.None?))
    {
      ok, fulfilled := true, false;
      if hash in issued && !issued[hash].isFulfilled {
        issued := issued[hash := issued[hash].(isFulfilled := true)];
        fulfilled := true;
      }
      if hash in payments && payments[hash].preimage.None? {
        var i := Total(payments[hash].incoming);
        var o := Total(payments[hash].outgoing);
        if hash !in invoices && policy.enforceBalance {
          ok := excess + i <= U64_MAX && excess + i >= o;
          if !ok {
            return;
          }
          excess := excess + i - o;
        }
        payments := payments[hash := payments[hash].(preimage := Some(preimage))];
        fulfilled := true;
      }
    }

    method AddInvoice(hash: Hash, i: PaymentState, maxInvoices: nat, withinVelocity: bool) returns (r: AddResult)
      modifies this
      ensures (Value(), r) == Ledger.AddInvoice(old(Value()), hash, i, maxInvoices, withinVelocity)
    {
      if |invoices| >= maxInvoices {
        return TooMany;
      }
      if hash in invoices {
        return if invoices[hash].invoiceHash == i.invoiceHash then Added(true) else Different;
      }
      if !withinVelocity {
        return Added(false);
      }
      invoices := invoices[hash := i];
      if hash !in payments {
        payments := payments[hash := NEW_PAYMENT];
      }
      r := Added(true);
    }

    method SignInvoice(hash: Hash, i: PaymentState, maxInvoices: nat) returns (r: AddResult)
      modifies this
      ensures (Value(), r) == IssueInvoice(old(Value()), hash, i, maxInvoices)
    {
      if |issued| >= maxInvoices {
        return TooMany;
      }
      if hash in issued {
        return if issued[hash].invoiceHash == i.invoiceHash then Added(true) else Different;
      }
      if i.amountMsat > 0 {
        issued := issued[hash := i];
      }
      r := Added(true);
    }

    method PruneInvoices(now: nat) returns (ok: bool)
      modifies this
      ensures ok == Ledger.PruneInvoices(old(Value()), now).Some?
      ensures ok ==> Value() == Ledger.PruneInvoices(old(Value()), now).value
    {
      var rest := invoices.Keys;
      var pruned: set<Hash> := {};
      while rest != {}
        invariant rest <= invoices.Keys && invoices.Keys - rest <= payments.Keys
        invariant pruned == set h | h in invoices && h !in rest && InvoicePrunable(now, invoices[h], payments[h])
        invariant Value() == old(Value())
        decreases rest
      {
        var hash :| hash in rest;
        if hash !in payments {
          return false;
        }
        var o := Total(payments[hash].outgoing);
        if now > PruneTime(invoices[hash]) && (payments[hash].preimage.Some? || o == 0) {
          pruned := pruned + {hash};
        }
        rest := rest - {hash};
      }
      ok := true;
      invoices := invoices - pruned;
      payments := payments - pruned;
    }

    method PruneIssuedInvoices(now: nat)
      modifies this`issued
      ensures Value() == PruneIssued(old(Value()), now)
    {
      issued := map h | h in issued && PruneTime(issued[h]) > now :: issued[h];
    }

    method PruneForwardedPayments()
      modifies this`payments
      ensures Value() == PruneForwarded(old(Value()))
    {
      var rest := payments.Keys;
      var kept: map<Hash, RoutedPayment> := map[];
      while rest != {}
        invariant rest <= payments.Keys && Value() == old(Value())
        invariant kept == map h | h in payments && h !in rest && !ForwardPrunable(Value(), h, payments[h]) :: payments[h]
        decreases rest
      {
        var hash :| hash in rest;
        var i := Total(payments[hash].incoming);
        var o := Total(payments[hash].outgoing);
        if hash in invoices || hash in issued || i != 0 || o != 0 {
          kept := kept[hash := payments[hash]];
        }
        rest := rest - {hash};
      }
      payments := kept;
    }

    /** The ledger's part of a heartbeat. */
    method Heartbeat(now: nat) returns (ok: bool)
      modifies this
      ensures ok == Prune(old(Value()), now).Some?
      ensures ok ==> Value() == Prune(old(Value()), now).value
    {
      ok := PruneInvoices(now);
      if ok {
        PruneIssuedInvoices(now);
        PruneForwardedPayments();
      }
    }
  }
}
