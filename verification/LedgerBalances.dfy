/**
 The excess register against what the channels are worth. A channel is worth to the holder
 what the lesser of its two current commitments gives them, HTLCs going to whoever has the
 preimage. Over every run in which each channel keeps its funding, the register and the worth
 of all channels together move alike, but for preimages that settle nothing: those of invoices
 we pay or are paid (`WorthAccounted`). Hence the channels together never lose more than the
 register held and the invoices paid allow (`WorthProtected`), which is what the ledger is for,
 and a revocation panics exactly when it would (`RevocationPanics`).
 */
module LedgerBalances {
  import opened Options
  import opened Sums
  import opened Ledger
  import opened ChannelPayments
  import opened LedgerRuns
  import opened LedgerBounds
  import opened LedgerMirror

  type Fundings = map<ChannelId, Funding>

  function WorthOf(known: set<Hash>, f: Funding, k: Commitments): nat {
    Worth(known, f, k.holder, k.counterparty)
  }

  /** What each channel is worth when these preimages are known. */
  function Worths(known: set<Hash>, n: Node, fs: Fundings): map<ChannelId, nat> {
    map c | c in fs :: WorthOf(known, fs[c], Of(n, c))
  }

  /** What all channels together are worth. */
  ghost function TotalWorth(n: Node, fs: Fundings): nat {
    Sum(Worths(KnownHashes(n.ledger), n, fs))
  }

  // ---------------------------------------------------------------------------
  // Regular events
  // ---------------------------------------------------------------------------

  /** The balance change of the event is the one its channel works out. */
  predicate Priced(n: Node, fs: Fundings, e: Event) {
    OnChannel(e) ==>
      && e.channel in fs
      && var f, k, known := fs[e.channel], Of(n, e.channel), KnownHashes(n.ledger);
      match e
      case Sign(_, info, delta, _) => CounterpartyDelta(known, f, k, info) == Some(delta)
      case Hold(_, info, delta, _) => HolderDelta(known, f, k, info) == Some(delta)
      case Revoke(_, change) => k.pending.Some? ==> change == HolderDelta(known, f, k, k.pending.value)
      case _ => true
  }

  /** The funding stays, a signature that does not advance repeats the last one, and an
      activation, which is not applied, makes no difference to what the channel is worth. */
  predicate Plain(n: Node, fs: Fundings, e: Event)
    requires OnChannel(e) ==> e.channel in fs
  {
    && !e.Splice? && !e.Lock?
    && (e.Sign? && !e.advances ==> Of(n, e.channel).counterparty == Some(AsCounterparty(e.info)))
    && (e.Activate? && Of(n, e.channel).pending.Some? ==>
          var f, k, known := fs[e.channel], Of(n, e.channel), KnownHashes(n.ledger);
          WorthOf(known, f, Promoted(k)) == WorthOf(known, f, k))
  }

  /** Every channel has a funding its current commitments fit. */
  ghost predicate Funded(n: Node, fs: Fundings) {
    n.channels.Keys <= fs.Keys && forall c :: c in fs ==> Fits(fs[c], Of(n, c))
  }

  /** Both commitments of every channel have the same in flight for the payment. */
  ghost predicate AllAgree(n: Node, fs: Fundings, hash: Hash) {
    forall c :: c in fs ==> Agreed(Of(n, c), hash)
  }

  /** Such an event; the ledger and the commitments stay attached, and channels agree on a
      payment when its preimage becomes known or is pruned. */
  ghost predicate Regular(n: Node, policy: Policy, fs: Fundings, e: Event) {
    && Priced(n, fs, e) && Plain(n, fs, e)
    && (forall c: ChannelId, h: Hash :: !Detaches(n, policy, e, c, h))
    && (Step(n, policy, e).Some? ==>
          var n' := Step(n, policy, e).value;
          && Funded(n', fs)
          && forall h: Hash :: (h in KnownHashes(n.ledger)) != (h in KnownHashes(n'.ledger)) ==> AllAgree(n', fs, h))
  }

  ghost predicate Mirrored(n: Node) {
    forall c: ChannelId, h: Hash :: Mirrors(n, c, h)
  }

  /** What holds along a regular run. */
  ghost predicate Sane(n: Node, fs: Fundings) {
    Indexed(n.ledger) && Funded(n, fs) && Mirrored(n)
  }

  lemma RegularKeepsSane(n: Node, policy: Policy, fs: Fundings, e: Event)
    requires Sane(n, fs) && Regular(n, policy, fs, e) && Step(n, policy, e).Some?
    ensures Sane(Step(n, policy, e).value, fs)
  {
    StepKeepsIndex(n, policy, e);
    var n' := Step(n, policy, e).value;
    forall c: ChannelId, h: Hash ensures Mirrors(n', c, h) {
      assert Mirrors(n, c, h) && !Detaches(n, policy, e, c, h);
      StepKeepsMirror(n, policy, e, c, h);
    }
  }

  // ---------------------------------------------------------------------------
  // What a preimage changes in all channels
  // ---------------------------------------------------------------------------

  function InBy(n: Node, fs: Fundings, hash: Hash): map<ChannelId, nat> {
    map c | c in fs :: Committed(Of(n, c), hash).0
  }

  function OutBy(n: Node, fs: Fundings, hash: Hash): map<ChannelId, nat> {
    map c | c in fs :: Committed(Of(n, c), hash).1
  }

  lemma LearnTotal(n: Node, fs: Fundings, known: set<Hash>, hash: Hash)
    requires Funded(n, fs) && AllAgree(n, fs, hash) && hash !in known
    ensures Sum(Worths(known + {hash}, n, fs)) + Sum(OutBy(n, fs, hash)) == Sum(Worths(known, n, fs)) + Sum(InBy(n, fs, hash))
  {
    var after, out, before, back := Worths(known + {hash}, n, fs), OutBy(n, fs, hash), Worths(known, n, fs), InBy(n, fs, hash);
    forall c | c in fs ensures after[c] + out[c] == before[c] + back[c] {
      LearnWorth(known, fs[c], Of(n, c), hash);
    }
    SumShift(after, out, before, back);
  }

  /** What is in flight for several payments. */
  ghost function InOf(n: Node, fs: Fundings, hashes: set<Hash>): map<Hash, nat> {
    map h | h in hashes :: Sum(InBy(n, fs, h))
  }

  ghost function OutOf(n: Node, fs: Fundings, hashes: set<Hash>): map<Hash, nat> {
    map h | h in hashes :: Sum(OutBy(n, fs, h))
  }

  lemma TakeOne(n: Node, fs: Fundings, hashes: set<Hash>, hash: Hash)
    requires hash in hashes
    ensures Sum(InOf(n, fs, hashes)) == Sum(InBy(n, fs, hash)) + Sum(InOf(n, fs, hashes - {hash}))
    ensures Sum(OutOf(n, fs, hashes)) == Sum(OutBy(n, fs, hash)) + Sum(OutOf(n, fs, hashes - {hash}))
  {
    TakeFrom(InOf(n, fs, hashes), InOf(n, fs, hashes - {hash}), hash);
    TakeFrom(OutOf(n, fs, hashes), OutOf(n, fs, hashes - {hash}), hash);
  }

  lemma TakeFrom(m: map<Hash, nat>, rest: map<Hash, nat>, hash: Hash)
    requires hash in m && rest.Keys == m.Keys - {hash} && (forall h :: h in rest ==> rest[h] == m[h])
    ensures Sum(m) == m[hash] + Sum(rest)
  {
    SumRemove(m, hash);
    assert m - {hash} == rest;
  }

  lemma {:induction false} LearnAll(n: Node, fs: Fundings, known: set<Hash>, more: set<Hash>)
    requires Funded(n, fs) && known !! more && (forall h :: h in more ==> AllAgree(n, fs, h))
    ensures Sum(Worths(known + more, n, fs)) + Sum(OutOf(n, fs, more)) == Sum(Worths(known, n, fs)) + Sum(InOf(n, fs, more))
    decreases more
  {
    if more == {} {
      assert known + more == known;
      NothingIn(n, fs);
    } else {
      var h :| h in more;
      var rest := more - {h};
      LearnAll(n, fs, known, rest);
      LearnTotal(n, fs, known + rest, h);
      assert known + rest + {h} == known + more;
      TakeOne(n, fs, more, h);
    }
  }

  lemma NothingIn(n: Node, fs: Fundings)
    ensures InOf(n, fs, {}) == map[] && OutOf(n, fs, {}) == map[]
  {
  }

  /** In a mirrored ledger these are the totals of the payment. */
  lemma TotalsBy(n: Node, fs: Fundings, hash: Hash)
    requires Sane(n, fs)
    ensures Incoming(PaymentFor(n.ledger, hash)) == Sum(InBy(n, fs, hash))
    ensures Outgoing(PaymentFor(n.ledger, hash)) == Sum(OutBy(n, fs, hash))
  {
    var p := PaymentFor(n.ledger, hash);
    forall c: ChannelId
      ensures Get(p.incoming, c) == Get(InBy(n, fs, hash), c) && Get(p.outgoing, c) == Get(OutBy(n, fs, hash), c)
    {
      assert Mirrors(n, c, hash);
    }
    SumSame(p.incoming, InBy(n, fs, hash));
    SumSame(p.outgoing, OutBy(n, fs, hash));
  }

  // ---------------------------------------------------------------------------
  // One step
  // ---------------------------------------------------------------------------

  /** The payments whose preimage becomes known, and those of them the register takes no notice of. */
  ghost function Learned(n: Node, policy: Policy, e: Event): set<Hash> {
    if Step(n, policy, e).None? then {} else KnownHashes(Step(n, policy, e).value.ledger) - KnownHashes(n.ledger)
  }

  ghost predicate Settling(n: Node, policy: Policy, e: Event) {
    policy.enforceBalance && e.Fulfill? && Settles(n.ledger, e.hash)
  }

  ghost function Unbooked(n: Node, policy: Policy, e: Event): set<Hash> {
    if Settling(n, policy, e) then {} else Learned(n, policy, e)
  }

  ghost predicate Accounted(n: Node, n': Node, fs: Fundings, ins: nat, outs: nat) {
    n'.ledger.excess + TotalWorth(n, fs) + ins == n.ledger.excess + TotalWorth(n', fs) + outs
  }

  lemma KnowledgeGrows(n: Node, policy: Policy, e: Event)
    requires Step(n, policy, e).Some? && !e.Heartbeat?
    ensures KnownHashes(n.ledger) <= KnownHashes(Step(n, policy, e).value.ledger)
  {
    forall h | h in KnownHashes(n.ledger) ensures h in KnownHashes(Step(n, policy, e).value.ledger) {
      PreimageKeptByStep(n, policy, e, h, n.ledger.payments[h].preimage.value);
    }
  }

  /** The register moves by the change in worth of the event's channel, at the preimages known before it. */
  lemma AppliedWorth(n: Node, policy: Policy, fs: Fundings, e: Event)
    requires policy.enforceBalance && Priced(n, fs, e) && Plain(n, fs, e) && OnChannel(e) && Step(n, policy, e).Some?
    ensures
      var n', f, known := Step(n, policy, e).value, fs[e.channel], KnownHashes(n.ledger);
      n'.ledger.excess + WorthOf(known, f, Of(n, e.channel)) == n.ledger.excess + WorthOf(known, f, Of(n', e.channel))
  {
  }

  lemma OneChannelMoves(known: set<Hash>, n: Node, n': Node, fs: Fundings, channel: ChannelId)
    requires channel in fs && forall c: ChannelId :: c != channel ==> Of(n', c) == Of(n, c)
    ensures Worths(known, n', fs) == Worths(known, n, fs)[channel := WorthOf(known, fs[channel], Of(n', channel))]
  {
  }

  lemma MovedWorth(n: Node, policy: Policy, fs: Fundings, e: Event)
    requires policy.enforceBalance && Priced(n, fs, e) && Plain(n, fs, e) && Step(n, policy, e).Some? && !Settling(n, policy, e)
    ensures
      var n', known := Step(n, policy, e).value, KnownHashes(n.ledger);
      n'.ledger.excess + Sum(Worths(known, n, fs)) == n.ledger.excess + Sum(Worths(known, n', fs))
  {
    var n', known := Step(n, policy, e).value, KnownHashes(n.ledger);
    if OnChannel(e) {
      AppliedWorth(n, policy, fs, e);
      OneChannelMoves(known, n, n', fs, e.channel);
      SumUpdate(Worths(known, n, fs), e.channel, WorthOf(known, fs[e.channel], Of(n', e.channel)));
    } else {
      UnmovedWorth(n, policy, e);
      assert Worths(known, n', fs) == Worths(known, n, fs);
    }
  }

  lemma UnmovedWorth(n: Node, policy: Policy, e: Event)
    requires !OnChannel(e) && Step(n, policy, e).Some? && !Settling(n, policy, e)
    ensures
      var n' := Step(n, policy, e).value;
      n'.channels == n.channels && n'.ledger.excess == n.ledger.excess
  {
  }

  lemma GrowingStep(n: Node, policy: Policy, fs: Fundings, e: Event, n': Node)
    requires policy.enforceBalance && Regular(n, policy, fs, e) && Step(n, policy, e) == Some(n')
    requires !e.Heartbeat? && !Settling(n, policy, e)
    ensures Accounted(n, n', fs, Sum(InOf(n', fs, Unbooked(n, policy, e))), Sum(OutOf(n', fs, Unbooked(n, policy, e))))
  {
    var known, more := KnownHashes(n.ledger), Learned(n, policy, e);
    KnowledgeGrows(n, policy, e);
    assert known + more == KnownHashes(n'.ledger);
    MovedWorth(n, policy, fs, e);
    LearnAll(n', fs, known, more);
  }

  lemma SettledLedger(n: Node, policy: Policy, e: Event, n': Node)
    requires Step(n, policy, e) == Some(n') && Settling(n, policy, e)
    ensures n'.channels == n.channels && e.hash !in KnownHashes(n.ledger)
    ensures KnownHashes(n'.ledger) == KnownHashes(n.ledger) + {e.hash}
    ensures n'.ledger.excess + Outgoing(PaymentFor(n.ledger, e.hash)) == n.ledger.excess + Incoming(PaymentFor(n.ledger, e.hash))
  {
  }

  /** The summaries depend on the commitments alone. */
  lemma SameChannels(n: Node, n': Node, fs: Fundings, known: set<Hash>, hash: Hash)
    requires n'.channels == n.channels
    ensures InBy(n', fs, hash) == InBy(n, fs, hash) && OutBy(n', fs, hash) == OutBy(n, fs, hash)
    ensures Worths(known, n', fs) == Worths(known, n, fs)
  {
  }

  lemma SettlingStep(n: Node, policy: Policy, fs: Fundings, e: Event, n': Node)
    requires Sane(n, fs) && Regular(n, policy, fs, e) && Step(n, policy, e) == Some(n') && Settling(n, policy, e)
    ensures Accounted(n, n', fs, 0, 0)
  {
    var known := KnownHashes(n.ledger);
    SettledLedger(n, policy, e, n');
    LearnTotal(n', fs, known, e.hash);
    TotalsBy(n, fs, e.hash);
    SameChannels(n, n', fs, known, e.hash);
  }

  lemma PrunedKnowledge(n: Node, policy: Policy, e: Event, hash: Hash)
    requires Indexed(n.ledger) && e.Heartbeat? && Step(n, policy, e).Some?
    ensures hash in KnownHashes(Step(n, policy, e).value.ledger) ==> hash in KnownHashes(n.ledger)
    ensures hash in KnownHashes(n.ledger) && hash !in KnownHashes(Step(n, policy, e).value.ledger) ==>
              Dropped(n.ledger, e.now, hash)
  {
    if hash in n.ledger.payments { PruneIsSafe(n.ledger, e.now, hash); }
  }

  lemma NothingCommitted(n: Node, policy: Policy, fs: Fundings, e: Event, hash: Hash)
    requires Regular(n, policy, fs, e) && e.Heartbeat? && Dropped(n.ledger, e.now, hash)
    ensures Sum(InBy(n, fs, hash)) == 0 && Sum(OutBy(n, fs, hash)) == 0
  {
    forall c | c in fs ensures InBy(n, fs, hash)[c] == 0 && OutBy(n, fs, hash)[c] == 0 {
      assert !Detaches(n, policy, e, c, hash);
    }
    SumZero(InBy(n, fs, hash));
    SumZero(OutBy(n, fs, hash));
  }

  lemma NothingGone(n: Node, policy: Policy, fs: Fundings, e: Event, n': Node, gone: set<Hash>)
    requires Indexed(n.ledger) && Regular(n, policy, fs, e) && Step(n, policy, e) == Some(n') && e.Heartbeat?
    requires gone == KnownHashes(n.ledger) - KnownHashes(n'.ledger)
    ensures Sum(InOf(n', fs, gone)) == 0 && Sum(OutOf(n', fs, gone)) == 0
  {
    forall h | h in gone ensures InOf(n', fs, gone)[h] == 0 && OutOf(n', fs, gone)[h] == 0 {
      PrunedKnowledge(n, policy, e, h);
      NothingCommitted(n, policy, fs, e, h);
      SameChannels(n, n', fs, {}, h);
    }
    SumZero(InOf(n', fs, gone));
    SumZero(OutOf(n', fs, gone));
  }

  lemma PruningStep(n: Node, policy: Policy, fs: Fundings, e: Event, n': Node)
    requires policy.enforceBalance && Sane(n, fs) && Regular(n, policy, fs, e) && Step(n, policy, e) == Some(n') && e.Heartbeat?
    ensures Accounted(n, n', fs, 0, 0) && Unbooked(n, policy, e) == {}
  {
    var before, after := KnownHashes(n.ledger), KnownHashes(n'.ledger);
    forall h: Hash ensures h in after ==> h in before { PrunedKnowledge(n, policy, e, h); }
    var gone := before - after;
    NothingGone(n, policy, fs, e, n', gone);
    assert after + gone == before;
    LearnAll(n', fs, after, gone);
    MovedWorth(n, policy, fs, e);
  }

  /** One regular step: the register and the worth of all channels move alike, but for
      preimages that settle nothing. */
  lemma StepAccounted(n: Node, policy: Policy, fs: Fundings, e: Event, n': Node)
    requires policy.enforceBalance && Sane(n, fs) && Regular(n, policy, fs, e) && Step(n, policy, e) == Some(n')
    ensures Accounted(n, n', fs, Sum(InOf(n', fs, Unbooked(n, policy, e))), Sum(OutOf(n', fs, Unbooked(n, policy, e))))
  {
    if e.Heartbeat? {
      PruningStep(n, policy, fs, e, n');
      NothingIn(n', fs);
    } else if Settling(n, policy, e) {
      SettlingStep(n, policy, fs, e, n');
      NothingIn(n', fs);
    } else {
      GrowingStep(n, policy, fs, e, n');
    }
  }

  // ---------------------------------------------------------------------------
  // Whole runs
  // ---------------------------------------------------------------------------

  ghost predicate RegularRun(n: Node, policy: Policy, fs: Fundings, es: seq<Event>)
    decreases |es|
  {
    es == [] ||
    (&& Regular(n, policy, fs, es[0])
     && (Step(n, policy, es[0]).Some? ==> RegularRun(Step(n, policy, es[0]).value, policy, fs, es[1..])))
  }

  /** What came in and went out with preimages that settled nothing. */
  ghost function PaidIn(n: Node, policy: Policy, fs: Fundings, es: seq<Event>): nat
    decreases |es|
  {
    if es == [] || Step(n, policy, es[0]).None? then 0 else
      var n' := Step(n, policy, es[0]).value;
      Sum(InOf(n', fs, Unbooked(n, policy, es[0]))) + PaidIn(n', policy, fs, es[1..])
  }

  ghost function PaidOut(n: Node, policy: Policy, fs: Fundings, es: seq<Event>): nat
    decreases |es|
  {
    if es == [] || Step(n, policy, es[0]).None? then 0 else
      var n' := Step(n, policy, es[0]).value;
      Sum(OutOf(n', fs, Unbooked(n, policy, es[0]))) + PaidOut(n', policy, fs, es[1..])
  }

  /** Over every regular run the register has moved by what all channels together have gained
      or lost in worth, and by what went out and came in with invoices, however validations
      and revocations interleave. */
  lemma {:induction false} WorthAccounted(n: Node, policy: Policy, fs: Fundings, es: seq<Event>)
    requires policy.enforceBalance && Sane(n, fs) && RegularRun(n, policy, fs, es) && Run(n, policy, es).Some?
    ensures Accounted(n, Run(n, policy, es).value, fs, PaidIn(n, policy, fs, es), PaidOut(n, policy, fs, es))
    decreases |es|
  {
    if es != [] {
      var n' := Step(n, policy, es[0]).value;
      StepAccounted(n, policy, fs, es[0], n');
      RegularKeepsSane(n, policy, fs, es[0]);
      WorthAccounted(n', policy, fs, es[1..]);
    }
  }

  /** What the invoice of the payment allows, if the event is the preimage that pays it. */
  ghost function Allowance(n: Node, policy: Policy, e: Event): nat {
    if e.Fulfill? && e.hash in Unbooked(n, policy, e) && e.hash in n.ledger.invoices
    then n.ledger.invoices[e.hash].amountMsat + policy.maxRoutingFeeMsat else 0
  }

  ghost function Allowances(n: Node, policy: Policy, es: seq<Event>): nat
    decreases |es|
  {
    if es == [] || Step(n, policy, es[0]).None? then 0
    else Allowance(n, policy, es[0]) + Allowances(Step(n, policy, es[0]).value, policy, es[1..])
  }

  ghost predicate AllWithin(s: NodeState, policy: Policy) {
    forall h: Hash :: Within(s, policy, h)
  }

  /** A preimage that settles nothing: the payment has an invoice and stays within it. */
  lemma FulfilledWithin(n: Node, policy: Policy, fs: Fundings, e: Event, n': Node)
    requires policy.enforceBalance && Sane(n, fs) && AllWithin(n.ledger, policy) && Step(n, policy, e) == Some(n') && e.Fulfill?
    ensures Sum(OutOf(n', fs, Unbooked(n, policy, e))) * 1000
            <= Sum(InOf(n', fs, Unbooked(n, policy, e))) * 1000 + Allowance(n, policy, e)
  {
    var learned := Unbooked(n, policy, e);
    NothingIn(n', fs);
    if learned != {} {
      assert learned == {e.hash} && e.hash in n.ledger.invoices;
      assert Within(n.ledger, policy, e.hash);
      TotalsBy(n, fs, e.hash);
      SameChannels(n, n', fs, {}, e.hash);
      TakeOne(n', fs, learned, e.hash);
      assert learned - {e.hash} == {};
    }
  }

  /** A commitment that pays an invoice of ours brings in at least what it sends out. */
  lemma PaidToUs(n: Node, policy: Policy, fs: Fundings, e: Event, n': Node, hash: Hash)
    requires Sane(n', fs) && Step(n, policy, e) == Some(n') && Applied(n, policy, e).Some?
    requires hash in Learned(n, policy, e)
    ensures Sum(OutBy(n', fs, hash)) <= Sum(InBy(n', fs, hash))
  {
    var u := Applied(n, policy, e).value;
    PredictionIsEffect(n.ledger, policy, u, hash);
    assert Pays(n.ledger, u, hash);
    TotalsBy(n', fs, hash);
    assert Sum<ChannelId>(map[]) == 0;
  }

  lemma AppliedWithin(n: Node, policy: Policy, fs: Fundings, e: Event, n': Node)
    requires Sane(n', fs) && Step(n, policy, e) == Some(n') && Applied(n, policy, e).Some?
    ensures Sum(OutOf(n', fs, Unbooked(n, policy, e))) <= Sum(InOf(n', fs, Unbooked(n, policy, e)))
  {
    var learned := Unbooked(n, policy, e);
    forall h | h in learned ensures OutOf(n', fs, learned)[h] <= InOf(n', fs, learned)[h] {
      PaidToUs(n, policy, fs, e, n', h);
    }
    SumOrdered(OutOf(n', fs, learned), InOf(n', fs, learned));
  }

  lemma NothingLearned(n: Node, policy: Policy, e: Event)
    requires Indexed(n.ledger) && Applied(n, policy, e).None? && !e.Fulfill?
    ensures Learned(n, policy, e) == {}
  {
    if Step(n, policy, e).Some? && e.Heartbeat? {
      forall h | h in Learned(n, policy, e) ensures false { PrunedKnowledge(n, policy, e, h); }
    }
  }

  lemma StepWithin(n: Node, policy: Policy, fs: Fundings, e: Event, n': Node)
    requires policy.enforceBalance && Sane(n, fs) && Sane(n', fs) && AllWithin(n.ledger, policy) && Step(n, policy, e) == Some(n')
    ensures Sum(OutOf(n', fs, Unbooked(n, policy, e))) * 1000
            <= Sum(InOf(n', fs, Unbooked(n, policy, e))) * 1000 + Allowance(n, policy, e)
  {
    if e.Fulfill? {
      FulfilledWithin(n, policy, fs, e, n');
    } else if Applied(n, policy, e).Some? {
      AppliedWithin(n, policy, fs, e, n');
    } else {
      NothingLearned(n, policy, e);
      NothingIn(n', fs);
    }
  }

  /** No step brings an invoice too late or revokes into a commitment that overshoots one. */
  ghost predicate RespectedRun(n: Node, policy: Policy, es: seq<Event>)
    decreases |es|
  {
    es == [] ||
    (Step(n, policy, es[0]).Some? ==>
       && (forall h: Hash :: !TooLate(n, policy, es[0], h) && !Overshoots(n, policy, es[0], h))
       && RespectedRun(Step(n, policy, es[0]).value, policy, es[1..]))
  }

  lemma StepKeepsAllWithin(n: Node, policy: Policy, e: Event, n': Node)
    requires Indexed(n.ledger) && AllWithin(n.ledger, policy) && Step(n, policy, e) == Some(n')
    requires forall h: Hash :: !TooLate(n, policy, e, h) && !Overshoots(n, policy, e, h)
    ensures AllWithin(n'.ledger, policy)
  {
    forall h: Hash ensures Within(n'.ledger, policy, h) {
      assert Within(n.ledger, policy, h) && !TooLate(n, policy, e, h);
      StepKeepsWithin(n, policy, e, h);
    }
  }

  lemma {:induction false} PaidWithin(n: Node, policy: Policy, fs: Fundings, es: seq<Event>)
    requires policy.enforceBalance && Sane(n, fs) && RegularRun(n, policy, fs, es) && Run(n, policy, es).Some?
    requires AllWithin(n.ledger, policy) && RespectedRun(n, policy, es)
    ensures PaidOut(n, policy, fs, es) * 1000 <= PaidIn(n, policy, fs, es) * 1000 + Allowances(n, policy, es)
    decreases |es|
  {
    if es != [] {
      var n' := Step(n, policy, es[0]).value;
      RegularKeepsSane(n, policy, fs, es[0]);
      StepWithin(n, policy, fs, es[0], n');
      StepKeepsAllWithin(n, policy, es[0], n');
      PaidWithin(n', policy, fs, es[1..]);
    }
  }

  /** Over every regular run that respects the invoices, all channels together lose at most
      what the register held at the start and what the invoices paid on the way allow. */
  lemma WorthProtected(n: Node, policy: Policy, fs: Fundings, es: seq<Event>)
    requires policy.enforceBalance && Sane(n, fs) && RegularRun(n, policy, fs, es) && Run(n, policy, es).Some?
    requires AllWithin(n.ledger, policy) && RespectedRun(n, policy, es)
    ensures TotalWorth(n, fs) * 1000
            <= (TotalWorth(Run(n, policy, es).value, fs) + n.ledger.excess) * 1000 + Allowances(n, policy, es)
  {
    WorthAccounted(n, policy, fs, es);
    PaidWithin(n, policy, fs, es);
  }

  // ---------------------------------------------------------------------------
  // Revocations
  // ---------------------------------------------------------------------------

  /** The channels with a kept commitment made current. */
  function Revoked(n: Node, channel: ChannelId): Node
    requires Of(n, channel).pending.Some?
  {
    n.(channels := n.channels[channel := Promoted(Of(n, channel))])
  }

  lemma RevokedWorth(m: Node, policy: Policy, fs: Fundings, channel: ChannelId, change: BalanceDelta)
    requires policy.enforceBalance && channel in fs && Of(m, channel).pending.Some?
    requires HolderDelta(KnownHashes(m.ledger), fs[channel], Of(m, channel), Of(m, channel).pending.value) == Some(change)
    ensures TotalWorth(Revoked(m, channel), fs) == TotalWorth(m, fs) + change.gain - change.loss
    ensures Step(m, policy, Revoke(channel, Some(change))).None? <==>
            !(change.loss <= m.ledger.excess + change.gain <= U64_MAX)
  {
    var known, r := KnownHashes(m.ledger), Revoked(m, channel);
    OneChannelMoves(known, m, r, fs, channel);
    SumUpdate(Worths(known, m, fs), channel, WorthOf(known, fs[channel], Of(r, channel)));
  }

  /** After every regular run, a revocation panics exactly when all channels together would
      then have lost, invoices apart, more than the register held at the start, or when the
      register overflows before the old worth of the channel is taken off. */
  lemma RevocationPanics(n: Node, policy: Policy, fs: Fundings, es: seq<Event>, m: Node, channel: ChannelId, change: BalanceDelta)
    requires policy.enforceBalance && Sane(n, fs) && RegularRun(n, policy, fs, es) && Run(n, policy, es) == Some(m)
    requires channel in fs && Of(m, channel).pending.Some?
    requires HolderDelta(KnownHashes(m.ledger), fs[channel], Of(m, channel), Of(m, channel).pending.value) == Some(change)
    ensures
      var before := TotalWorth(n, fs) + PaidIn(n, policy, fs, es);
      var after := n.ledger.excess + TotalWorth(Revoked(m, channel), fs) + PaidOut(n, policy, fs, es);
      Step(m, policy, Revoke(channel, Some(change))).None? <==> !(before <= after && after + change.loss <= U64_MAX + before)
  {
    WorthAccounted(n, policy, fs, es);
    RevokedWorth(m, policy, fs, channel, change);
    OutOfRange(n.ledger.excess + PaidOut(n, policy, fs, es), m.ledger.excess, TotalWorth(n, fs) + PaidIn(n, policy, fs, es),
               TotalWorth(m, fs), TotalWorth(Revoked(m, channel), fs), change);
  }

  lemma OutOfRange(start: nat, excess: nat, before: nat, now: nat, after: nat, change: BalanceDelta)
    requires excess + before == start + now && after == now + change.gain - change.loss
    ensures change.loss <= excess + change.gain <= U64_MAX <==>
            before <= start + after && start + after + change.loss <= U64_MAX + before
  {
  }
}
