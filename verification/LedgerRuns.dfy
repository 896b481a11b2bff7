/**
 Runs of a node's ledger together with the commitments of its channels: counterparty
 commitments are validated and applied at once; holder commitments are validated, kept, and
 applied later, when the one before is revoked, without being validated again. In between
 come preimages, invoices to pay and invoices issued, splices and heartbeats, in any order.
 */
module LedgerRuns {
  import opened Options
  import opened Ledger
  import opened ChannelPayments

  datatype Node = Node(ledger: NodeState, channels: map<ChannelId, Commitments>)

  function Of(n: Node, channel: ChannelId): Commitments {
    if channel in n.channels then n.channels[channel] else NO_COMMITMENTS
  }

  /** The balance change is worked out by the channel when the event arrives, and depends on its funding eras. */
  datatype Event =
    | Sign(channel: ChannelId, info: CommitmentInfo, delta: BalanceDelta, advances: bool)
    | Hold(channel: ChannelId, info: CommitmentInfo, delta: BalanceDelta, isNext: bool)
    | Revoke(channel: ChannelId, change: Option<BalanceDelta>)
    | Activate(channel: ChannelId)
    | Splice(channel: ChannelId)
    | Lock(channel: ChannelId, toHolder: nat, toCounterparty: nat)
    | Fulfill(hash: Hash, preimage: Preimage)
    | NewInvoice(hash: Hash, invoice: PaymentState, maxInvoices: nat, withinVelocity: bool)
    | Issue(hash: Hash, invoice: PaymentState, maxInvoices: nat)
    | Heartbeat(now: nat)

  /** The update a request is validated with. */
  function Checked(n: Node, e: Event): Option<Update> {
    match e
    case Sign(c, info, delta, _) => Some(CounterpartyUpdate(c, Of(n, c), info, delta))
    case Hold(c, info, delta, _) => Some(HolderUpdate(c, Of(n, c), info, delta))
    case _ => None
  }

  ghost function VerdictOn(n: Node, policy: Policy, e: Event): Verdict {
    var u := Checked(n, e);
    if u.None? then Accepted else Validate(n.ledger, policy, u.value)
  }

  /** The update an event applies to the ledger: a counterparty commitment just accepted, or
      the holder commitment kept since its validation, summarised anew. */
  ghost function Applied(n: Node, policy: Policy, e: Event): Option<Update> {
    match e
    case Sign(_, _, _, _) => if VerdictOn(n, policy, e) == Accepted then Checked(n, e) else None
    case Revoke(c, change) =>
      var k := Of(n, c);
      if k.pending.Some? && change.Some? then Some(HolderUpdate(c, k, k.pending.value, change.value)) else None
    case _ => None
  }

  /** The ledger after an event; `None` where the node panics. */
  ghost function NextLedger(n: Node, policy: Policy, e: Event): Option<NodeState> {
    var u := Applied(n, policy, e);
    if VerdictOn(n, policy, e) == Panic then None
    else if u.Some? then ApplyPayments(n.ledger, policy, u.value)
    else match e {
      case Fulfill(hash, preimage) => HtlcFulfilled(n.ledger, policy, hash, preimage)
      case NewInvoice(hash, i, maxInvoices, withinVelocity) =>
        Some(AddInvoice(n.ledger, hash, i, maxInvoices, withinVelocity).0)
      case Issue(hash, i, maxInvoices) => Some(IssueInvoice(n.ledger, hash, i, maxInvoices).0)
      case Heartbeat(now) => Prune(n.ledger, now)
      case _ => Some(n.ledger)
    }
  }

  /** A lock installs commitments without HTLCs. */
  function Baseline(isCounterparty: bool, toHolder: nat, toCounterparty: nat): CommitmentInfo {
    if isCounterparty then CommitmentInfo(true, toHolder, toCounterparty, [], [])
    else CommitmentInfo(false, toCounterparty, toHolder, [], [])
  }

  /** The kept commitment becomes the current one. */
  function Promoted(k: Commitments): Commitments
    requires k.pending.Some?
  {
    k.(holder := Some(AsHolder(k.pending.value)), pending := None)
  }

  /** The commitments of a channel after an event of its own. A repeated signature does not
      advance; a revocation takes the kept commitment even if it then fails; a splice puts
      all three away. */
  ghost function NextCommitments(n: Node, policy: Policy, e: Event, k: Commitments): Commitments {
    match e
    case Sign(_, info, _, advances) =>
      if VerdictOn(n, policy, e) == Accepted && advances then k.(counterparty := Some(AsCounterparty(info))) else k
    case Hold(_, info, _, isNext) =>
      if VerdictOn(n, policy, e) == Accepted && isNext then k.(pending := Some(AsHolder(info))) else k
    case Revoke(_, change) =>
      if change.Some? && k.pending.Some? then Promoted(k) else k.(pending := None)
    case Activate(_) => if k.pending.Some? then Promoted(k) else k
    case Splice(_) => NO_COMMITMENTS
    case Lock(_, toHolder, toCounterparty) =>
      k.(holder := Some(Baseline(false, toHolder, toCounterparty)),
         counterparty := Some(Baseline(true, toHolder, toCounterparty)))
    case _ => k
  }

  predicate OnChannel(e: Event) {
    e.Sign? || e.Hold? || e.Revoke? || e.Activate? || e.Splice? || e.Lock?
  }

  /** One event; a refused request leaves the ledger alone. */
  ghost function Step(n: Node, policy: Policy, e: Event): Option<Node> {
    var s := NextLedger(n, policy, e);
    if s.None? then None
    else if OnChannel(e)
    then Some(Node(s.value, n.channels[e.channel := NextCommitments(n, policy, e, Of(n, e.channel))]))
    else Some(n.(ledger := s.value))
  }

  ghost function Run(n: Node, policy: Policy, es: seq<Event>): Option<Node>
    decreases |es|
  {
    if es == [] then Some(n) else
      var n' := Step(n, policy, es[0]);
      if n'.None? then None else Run(n'.value, policy, es[1..])
  }

  // ---------------------------------------------------------------------------
  // Conservation of the excess register
  // ---------------------------------------------------------------------------

  /** What moved through the excess register: the changes of applied commitments, and the
      in-flight totals of each uninvoiced payment when its first preimage arrived. */
  datatype Entry = Delta(delta: BalanceDelta) | Settlement(hash: Hash, incoming: nat, outgoing: nat)

  ghost function Entries(n: Node, policy: Policy, e: Event): seq<Entry> {
    if !policy.enforceBalance then []
    else if Applied(n, policy, e).Some? then [Delta(Applied(n, policy, e).value.delta)]
    else if e.Fulfill? && Settles(n.ledger, e.hash)
    then [Settlement(e.hash, Incoming(n.ledger.payments[e.hash]), Outgoing(n.ledger.payments[e.hash]))]
    else []
  }

  /** The book of a run. */
  ghost function Book(n: Node, policy: Policy, es: seq<Event>): seq<Entry>
    decreases |es|
  {
    if es == [] || Step(n, policy, es[0]).None? then []
    else Entries(n, policy, es[0]) + Book(Step(n, policy, es[0]).value, policy, es[1..])
  }

  function Gained(book: seq<Entry>): nat {
    if book == [] then 0
    else Gained(book[1..]) + match book[0] case Delta(d) => d.gain case Settlement(_, incoming, _) => incoming
  }

  function Lost(book: seq<Entry>): nat {
    if book == [] then 0
    else Lost(book[1..]) + match book[0] case Delta(d) => d.loss case Settlement(_, _, outgoing) => outgoing
  }

  lemma StepExcess(n: Node, policy: Policy, e: Event)
    requires Step(n, policy, e).Some?
    ensures Step(n, policy, e).value.ledger.excess + Lost(Entries(n, policy, e))
            == n.ledger.excess + Gained(Entries(n, policy, e))
  {
    var book := Entries(n, policy, e);
    if book != [] { assert book[1..] == []; }
  }

  lemma {:induction false} BookAppend(xs: seq<Entry>, ys: seq<Entry>)
    ensures Gained(xs + ys) == Gained(xs) + Gained(ys)
    ensures Lost(xs + ys) == Lost(xs) + Lost(ys)
    decreases |xs|
  {
    if xs == [] {
      assert xs + ys == ys;
    } else {
      assert (xs + ys)[0] == xs[0] && (xs + ys)[1..] == xs[1..] + ys;
      BookAppend(xs[1..], ys);
    }
  }

  /** Over every run, the register ends at its start plus everything gained minus
      everything lost: nothing else ever moves it. */
  lemma {:induction false} ExcessConserved(n: Node, policy: Policy, es: seq<Event>)
    requires Run(n, policy, es).Some?
    ensures Run(n, policy, es).value.ledger.excess + Lost(Book(n, policy, es))
            == n.ledger.excess + Gained(Book(n, policy, es))
    decreases |es|
  {
    if es != [] {
      var n' := Step(n, policy, es[0]).value;
      StepExcess(n, policy, es[0]);
      ExcessConserved(n', policy, es[1..]);
      BookAppend(Entries(n, policy, es[0]), Book(n', policy, es[1..]));
    }
  }

  // ---------------------------------------------------------------------------
  // Preimages are written once
  // ---------------------------------------------------------------------------

  ghost predicate Known(s: NodeState, hash: Hash, preimage: Preimage) {
    hash in s.payments && s.payments[hash].preimage == Some(preimage)
  }

  /** The payment is never pruned along the run. */
  ghost predicate NeverDropped(n: Node, policy: Policy, es: seq<Event>, hash: Hash)
    decreases |es|
  {
    es == [] ||
    (Step(n, policy, es[0]).Some? ==>
       && (hash in n.ledger.payments ==> hash in Step(n, policy, es[0]).value.ledger.payments)
       && NeverDropped(Step(n, policy, es[0]).value, policy, es[1..], hash))
  }

  /** Only heartbeats prune. */
  lemma {:induction false} NotDropped(n: Node, policy: Policy, es: seq<Event>, hash: Hash)
    requires forall i :: 0 <= i < |es| ==> !es[i].Heartbeat?
    ensures NeverDropped(n, policy, es, hash)
    decreases |es|
  {
    if es != [] && Step(n, policy, es[0]).Some? {
      assert forall i :: 0 <= i < |es[1..]| ==> es[1..][i] == es[i + 1];
      NotDropped(Step(n, policy, es[0]).value, policy, es[1..], hash);
    }
  }

  lemma PreimageKeptByStep(n: Node, policy: Policy, e: Event, hash: Hash, preimage: Preimage)
    requires Known(n.ledger, hash, preimage) && Step(n, policy, e).Some? && hash in Step(n, policy, e).value.ledger.payments
    ensures Known(Step(n, policy, e).value.ledger, hash, preimage)
  {
  }

  /** No payment is settled a second time, until a heartbeat prunes it. */
  predicate SettledOnce(book: seq<Entry>) {
    forall i, j :: 0 <= i < j < |book| && book[i].Settlement? && book[j].Settlement? ==> book[i].hash != book[j].hash
  }

  lemma {:induction false} KnownIsNotSettled(n: Node, policy: Policy, es: seq<Event>, hash: Hash, preimage: Preimage)
    requires Known(n.ledger, hash, preimage) && NeverDropped(n, policy, es, hash)
    ensures forall i :: 0 <= i < |Book(n, policy, es)| && Book(n, policy, es)[i].Settlement? ==>
                          Book(n, policy, es)[i].hash != hash
    ensures Run(n, policy, es).Some? ==> Known(Run(n, policy, es).value.ledger, hash, preimage)
    decreases |es|
  {
    if es != [] && Step(n, policy, es[0]).Some? {
      var n' := Step(n, policy, es[0]).value;
      PreimageKeptByStep(n, policy, es[0], hash, preimage);
      KnownIsNotSettled(n', policy, es[1..], hash, preimage);
    }
  }

  lemma {:induction false} EachSettledOnce(n: Node, policy: Policy, es: seq<Event>)
    requires forall i :: 0 <= i < |es| ==> !es[i].Heartbeat?
    ensures SettledOnce(Book(n, policy, es))
    decreases |es|
  {
    if es != [] && Step(n, policy, es[0]).Some? {
      var n' := Step(n, policy, es[0]).value;
      assert forall i :: 0 <= i < |es[1..]| ==> es[1..][i] == es[i + 1];
      EachSettledOnce(n', policy, es[1..]);
      var now := Entries(n, policy, es[0]);
      if now != [] && now[0].Settlement? {
        NotDropped(n', policy, es[1..], es[0].hash);
        KnownIsNotSettled(n', policy, es[1..], es[0].hash, es[0].preimage);
      }
    }
  }

  // ---------------------------------------------------------------------------
  // When a step panics
  // ---------------------------------------------------------------------------

  /** Every invoice has a payment. */
  ghost predicate Indexed(s: NodeState) {
    s.invoices.Keys <= s.payments.Keys
  }

  lemma {:induction false} StepKeepsIndex(n: Node, policy: Policy, e: Event)
    requires Indexed(n.ledger) && Step(n, policy, e).Some?
    ensures Indexed(Step(n, policy, e).value.ledger)
  {
    if e.Heartbeat? { PruneKeepsIndex(n.ledger, e.now); }
  }

  lemma PruneKeepsIndex(s: NodeState, now: nat)
    requires Indexed(s)
    ensures Prune(s, now).Some? && Indexed(Prune(s, now).value)
  {
    var s1 := PruneInvoices(s, now).value;
    assert Indexed(s1);
    var s2 := PruneIssued(s1, now);
    assert Indexed(PruneForwarded(s2));
  }

  /** No payment of the update keeps it from being accepted. */
  ghost predicate Unobjectionable(s: NodeState, policy: Policy, u: Update) {
    forall h :: h in u.Hashes() ==> !CltvBad(s, policy, h) && !Unbalanced(s, policy, u, h)
  }

  /** A node whose ledger is indexed panics in one step exactly when the register would leave
      the range of a 64-bit unsigned number: on the gain of an otherwise acceptable commitment,
      on the gain or the loss of a kept commitment that becomes current, which nothing checks
      again, or on settling an uninvoiced payment. Heartbeats never panic. */
  lemma {:induction false} PanicsExactly(n: Node, policy: Policy, e: Event)
    requires Indexed(n.ledger)
    ensures Step(n, policy, e).None? <==>
            && policy.enforceBalance
            && match e {
                 case Sign(_, _, delta, _) =>
                   n.ledger.excess + delta.gain > U64_MAX && Unobjectionable(n.ledger, policy, Checked(n, e).value)
                 case Hold(_, _, delta, _) =>
                   n.ledger.excess + delta.gain > U64_MAX && Unobjectionable(n.ledger, policy, Checked(n, e).value)
                 case Revoke(c, change) =>
                   && Of(n, c).pending.Some? && change.Some?
                   && !(change.value.loss <= n.ledger.excess + change.value.gain <= U64_MAX)
                 case Fulfill(h, _) =>
                   && Settles(n.ledger, h)
                   && var p := n.ledger.payments[h];
                   && !(Outgoing(p) <= n.ledger.excess + Incoming(p) <= U64_MAX)
                 case _ => false
               }
  {
    if e.Heartbeat? { PruneKeepsIndex(n.ledger, e.now); }
    if Checked(n, e).Some? { PanicVerdict(n.ledger, policy, Checked(n, e).value); }
  }

  lemma PanicVerdict(s: NodeState, policy: Policy, u: Update)
    ensures Validate(s, policy, u) == Panic <==>
            policy.enforceBalance && s.excess + u.delta.gain > U64_MAX && Unobjectionable(s, policy, u)
    ensures Validate(s, policy, u) == Accepted ==> ApplyPayments(s, policy, u).Some?
  {
  }

  /** From a restored or new ledger, every reachable ledger is indexed. */
  lemma {:induction false} ReachableIndexed(n: Node, policy: Policy, es: seq<Event>)
    requires Run(n.(ledger := Restore(n.ledger)), policy, es).Some?
    ensures Indexed(Run(n.(ledger := Restore(n.ledger)), policy, es).value.ledger)
  {
    RunKeepsIndex(n.(ledger := Restore(n.ledger)), policy, es);
  }

  lemma {:induction false} RunKeepsIndex(n: Node, policy: Policy, es: seq<Event>)
    requires Indexed(n.ledger) && Run(n, policy, es).Some?
    ensures Indexed(Run(n, policy, es).value.ledger)
    decreases |es|
  {
    if es != [] {
      StepKeepsIndex(n, policy, es[0]);
      RunKeepsIndex(Step(n, policy, es[0]).value, policy, es[1..]);
    }
  }

  // ---------------------------------------------------------------------------
  // Pruning
  // ---------------------------------------------------------------------------

  /** Pruning drops a payment only if it is fulfilled or has nothing outgoing; what it
      keeps it does not change. */
  lemma {:induction false} PruneIsSafe(s: NodeState, now: nat, hash: Hash)
    requires Indexed(s) && hash in s.payments
    ensures Prune(s, now).Some?
    ensures
      var s' := Prune(s, now).value;
      && (hash !in s'.payments ==> s.payments[hash].preimage.Some? || Outgoing(s.payments[hash]) == 0)
      && (hash in s'.payments ==> s'.payments[hash] == s.payments[hash])
      && s'.excess == s.excess
      && (hash in s.invoices ==>
            (hash in s'.invoices <==> !InvoicePrunable(now, s.invoices[hash], s.payments[hash]))
            && (hash in s'.invoices ==> hash in s'.payments && s'.invoices[hash] == s.invoices[hash]))
  {
    PruneKeepsIndex(s, now);
  }

  lemma NothingToPrune(s: NodeState, now: nat)
    requires Indexed(s) && (forall h :: h in s.invoices ==> !InvoicePrunable(now, s.invoices[h], s.payments[h]))
    ensures PruneInvoices(s, now) == Some(s)
  {
    var pruned := set h | h in s.invoices && InvoicePrunable(now, s.invoices[h], s.payments[h]);
    assert pruned == {};
    assert s.invoices - pruned == s.invoices && s.payments - pruned == s.payments;
  }

  /** Pruning again at the same time changes nothing. */
  lemma PruneTwice(s: NodeState, now: nat)
    requires Indexed(s)
    ensures Prune(s, now).Some? && Prune(Prune(s, now).value, now) == Prune(s, now)
  {
    PruneKeepsIndex(s, now);
    var s1 := PruneInvoices(s, now).value;
    var s2 := PruneIssued(s1, now);
    var s3 := PruneForwarded(s2);
    forall h | h in s3.invoices ensures !InvoicePrunable(now, s3.invoices[h], s3.payments[h]) {
      assert s3.payments[h] == s.payments[h] && s3.invoices[h] == s.invoices[h];
    }
    NothingToPrune(s3, now);
    assert PruneIssued(s3, now) == s3;
    assert PruneForwarded(s3) == s3;
  }
}
