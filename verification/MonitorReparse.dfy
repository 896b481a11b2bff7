/**
 A block being removed is decoded against the state left by adding it. This module
 proves that the second decoding finds the same changes as the first.
 */
module MonitorReparse {
  import opened Options
  import opened Chain
  import opened Closing
  import opened MonitorState
  import opened MonitorDecode
  import opened MonitorBlocks
  import opened MonitorReplay
  import opened MonitorTruth

  function Txids(block: Block): set<Txid> {
    set i | 0 <= i < |block| :: block[i].txid
  }

  // ---------------------------------------------------------------------------
  // What a block adds to the state carries the txids of its transactions
  // ---------------------------------------------------------------------------

  predicate MadeBy(c: Change, txids: set<Txid>) {
    && (c.FundingConfirmed? ==> c.outpoint.txid in txids)
    && (c.UnilateralClose? ==> c.txid in txids)
    && (c.HtlcOutputSpent? ==> c.second.txid in txids)
  }

  predicate AllMadeBy(cs: seq<Change>, txids: set<Txid>) {
    forall i :: 0 <= i < |cs| ==> MadeBy(cs[i], txids)
  }

  /** `t` follows from `s`; what is new in `t` was created by `txids`. */
  ghost predicate From(s: State, txids: set<Txid>, t: State) {
    && (t.fundingOutpoint == s.fundingOutpoint
        || (s.fundingOutpoint.None? && t.fundingOutpoint.Some? && t.fundingOutpoint.value.txid in txids))
    && (s.closing.None? && t.closing.Some? ==>
          && t.closing.value.txid in txids
          && (forall o :: Has(t.closing.value.secondLevel, o) ==> o.txid in txids))
    && (s.closing.Some? ==>
          && t.closing.Some?
          && SameOutputs(s.closing.value, t.closing.value)
          && (forall o :: Has(s.closing.value.secondLevel, o) ==> Has(t.closing.value.secondLevel, o))
          && (forall o :: Has(t.closing.value.secondLevel, o) ==> Has(s.closing.value.secondLevel, o) || o.txid in txids))
  }

  predicate SameOutputs(c: ClosingOutpoints, c': ClosingOutpoints) {
    && c.txid == c'.txid
    && c.htlcOutputs == c'.htlcOutputs
    && |c.htlcSpents| == |c'.htlcSpents|
    && c.ourOutput.Some? == c'.ourOutput.Some?
    && (c.ourOutput.Some? ==> c.ourOutput.value.vout == c'.ourOutput.value.vout)
  }

  lemma HasAppend(xs: seq<SecondLevel>, e: SecondLevel, o: OutPoint)
    ensures Has(xs + [e], o) <==> Has(xs, o) || e.outpoint == o
  {
    if Has(xs, o) { var i :| 0 <= i < |xs| && xs[i].outpoint == o; assert (xs + [e])[i].outpoint == o; }
    if Has(xs + [e], o) {
      var i :| 0 <= i < |xs + [e]| && (xs + [e])[i].outpoint == o;
      assert i < |xs| ==> xs[i].outpoint == o;
    }
    assert (xs + [e])[|xs|] == e;
  }

  lemma FromForward(s: State, txids: set<Txid>, c: Change)
    requires Fresh(s, c) && MadeBy(c, txids) && Forward(s, c).Some?
    ensures From(s, txids, Forward(s, c).value)
  {
    var t := Forward(s, c).value;
    if s.closing.Some? {
      var xs := s.closing.value.secondLevel;
      forall o ensures
          && (Has(xs, o) ==> Has(t.closing.value.secondLevel, o))
          && (Has(t.closing.value.secondLevel, o) ==> Has(xs, o) || o.txid in txids)
      {
        if c.HtlcOutputSpent? { HasAppend(xs, SecondLevel(c.second, false), o); }
        if c.SecondLevelSpent? { SetHas(xs, c.outpoint, true, o); }
      }
    }
  }

  lemma {:induction false} FromApply(s: State, txids: set<Txid>, cs: seq<Change>)
    requires Good(s, cs) && AllMadeBy(cs, txids)
    ensures Apply(s, cs).Some? && From(s, txids, Apply(s, cs).value)
    decreases |cs|
  {
    if cs != [] {
      var s' := Forward(s, cs[0]).value;
      assert forall i :: 0 <= i < |cs[1..]| ==> cs[1..][i] == cs[i + 1];
      FromForward(s, txids, cs[0]);
      FromApply(s', txids, cs[1..]);
    }
  }

  lemma {:induction false} HtlcMadeBy(txid: Txid, spends: seq<(nat, nat)>)
    ensures forall c :: c in HtlcChanges(txid, spends) ==> MadeBy(c, {txid})
    decreases |spends|
  {
    if spends != [] { HtlcMadeBy(txid, spends[1..]); }
  }

  lemma TxMadeBy(provider: Provider, s: State, tx: Tx)
    ensures forall c :: c in TxChanges(provider, s, tx) ==> MadeBy(c, {tx.txid})
  {
    InputChangesAreInputChanges(s, tx.inputs);
    HtlcMadeBy(tx.txid, HtlcSpends(s, tx.inputs));
  }

  lemma {:induction false} BlockMadeBy(provider: Provider, s: State, block: Block)
    requires BlockChanges(provider, s, block).Some?
    ensures forall c :: c in BlockChanges(provider, s, block).value ==> MadeBy(c, Txids(block))
    decreases |block|
  {
    if block != [] {
      var cs := TxChanges(provider, s, block[0]);
      TxMadeBy(provider, s, block[0]);
      BlockMadeBy(provider, Apply(s, cs).value, block[1..]);
      TxidsCons(block);
      forall c | c in BlockChanges(provider, s, block).value ensures MadeBy(c, Txids(block)) {
        assert c in cs || c in BlockChanges(provider, Apply(s, cs).value, block[1..]).value;
      }
    }
  }

  lemma TxidsCons(block: Block)
    requires block != []
    ensures Txids(block) == {block[0].txid} + Txids(block[1..])
  {
    forall t | t in Txids(block) ensures t in {block[0].txid} + Txids(block[1..]) {
      var i :| 0 <= i < |block| && block[i].txid == t;
      assert i > 0 ==> block[1..][i - 1].txid == t;
    }
    forall t | t in Txids(block[1..]) ensures t in Txids(block) {
      var i :| 0 <= i < |block[1..]| && block[1..][i].txid == t;
      assert block[i + 1].txid == t;
    }
  }

  lemma BlockFrom(provider: Provider, s: State, block: Block)
    requires BlockChanges(provider, s, block).Some? && Good(s, BlockChanges(provider, s, block).value)
    ensures Apply(s, BlockChanges(provider, s, block).value).Some?
    ensures From(s, Txids(block), Apply(s, BlockChanges(provider, s, block).value).value)
  {
    BlockMadeBy(provider, s, block);
    FromApply(s, Txids(block), BlockChanges(provider, s, block).value);
  }

  // ---------------------------------------------------------------------------
  // The second decoding
  // ---------------------------------------------------------------------------

  /** `q`, in the second decoding, against `s`, at the same place of the first one, where
      `last` is the state the block led to: `q` may know in advance what `last` knows. */
  ghost predicate Ahead(s: State, q: State, last: State) {
    && s.fundingTxids == q.fundingTxids
    && s.fundingVouts == q.fundingVouts
    && s.fundingInputs == q.fundingInputs
    && (q.fundingOutpoint == s.fundingOutpoint
        || (s.fundingOutpoint.None? && q.fundingOutpoint == last.fundingOutpoint))
    && (s.closing.None? && q.closing.Some? ==>
          && last.closing.Some?
          && q.closing.value.txid == last.closing.value.txid
          && (forall o :: Has(q.closing.value.secondLevel, o) ==> Has(last.closing.value.secondLevel, o)))
    && (s.closing.Some? ==>
          && q.closing.Some?
          && SameOutputs(s.closing.value, q.closing.value)
          && (forall o :: Has(s.closing.value.secondLevel, o) ==> Has(q.closing.value.secondLevel, o))
          && (forall o :: Has(q.closing.value.secondLevel, o) ==>
                Has(s.closing.value.secondLevel, o)
                || (last.closing.Some? && Has(last.closing.value.secondLevel, o))))
  }

  lemma AheadHtlc(s: State, q: State, last: State, c: Change)
    requires Ahead(s, q, last) && Forward(s, c).Some? && c.HtlcOutputSpent?
    ensures Forward(q, c).Some? && Ahead(Forward(s, c).value, Forward(q, c).value, last)
  {
    var xs, ys := s.closing.value.secondLevel, q.closing.value.secondLevel;
    var e := SecondLevel(c.second, false);
    forall o ensures Has(xs + [e], o) == (Has(xs, o) || o == c.second)
             ensures Has(ys + [e], o) == (Has(ys, o) || o == c.second)
    {
      HasAppend(xs, e, o);
      HasAppend(ys, e, o);
    }
  }

  lemma AheadSecond(s: State, q: State, last: State, c: Change)
    requires Ahead(s, q, last) && Forward(s, c).Some? && c.SecondLevelSpent?
    ensures Forward(q, c).Some? && Ahead(Forward(s, c).value, Forward(q, c).value, last)
  {
    var xs, ys := s.closing.value.secondLevel, q.closing.value.secondLevel;
    forall o ensures Has(SetFirst(xs, c.outpoint, true), o) == Has(xs, o)
             ensures Has(SetFirst(ys, c.outpoint, true), o) == Has(ys, o)
    {
      SetHas(xs, c.outpoint, true, o);
      SetHas(ys, c.outpoint, true, o);
    }
  }

  lemma AheadForward(s: State, q: State, last: State, c: Change)
    requires Ahead(s, q, last) && Forward(s, c).Some?
    ensures Forward(q, c).Some? && Ahead(Forward(s, c).value, Forward(q, c).value, last)
  {
    if c.HtlcOutputSpent? {
      AheadHtlc(s, q, last, c);
    } else if c.SecondLevelSpent? {
      AheadSecond(s, q, last, c);
    } else {
      AheadPlain(s, q, last, c);
    }
  }

  lemma AheadPlain(s: State, q: State, last: State, c: Change)
    requires Ahead(s, q, last) && Forward(s, c).Some? && !c.HtlcOutputSpent? && !c.SecondLevelSpent?
    ensures Forward(q, c).Some? && Ahead(Forward(s, c).value, Forward(q, c).value, last)
  {
    if c.OurOutputSpent? {
      AheadOur(s, q, last, c);
    } else if c.UnilateralClose? {
      AheadClose(s, q, last, c);
    } else {
      SameClosings(s, q, last, c);
    }
  }

  /** Changes that leave the close alone. */
  lemma SameClosings(s: State, q: State, last: State, c: Change)
    requires Ahead(s, q, last) && (c.FundingConfirmed? || c.FundingInputSpent? || c.MutualClose?)
    ensures Forward(s, c).Some? && Forward(q, c).Some? && Ahead(Forward(s, c).value, Forward(q, c).value, last)
  {
    var t, r := Forward(s, c).value, Forward(q, c).value;
    assert t.closing == s.closing && r.closing == q.closing;
  }

  lemma AheadOur(s: State, q: State, last: State, c: Change)
    requires Ahead(s, q, last) && Forward(s, c).Some? && c.OurOutputSpent?
    ensures Forward(q, c).Some? && Ahead(Forward(s, c).value, Forward(q, c).value, last)
  {
  }

  lemma AheadClose(s: State, q: State, last: State, c: Change)
    requires Ahead(s, q, last) && c.UnilateralClose?
    ensures Forward(s, c).Some? && Forward(q, c).Some? && Ahead(Forward(s, c).value, Forward(q, c).value, last)
  {
  }

  lemma {:induction false} AheadApply(s: State, q: State, last: State, cs: seq<Change>)
    requires Ahead(s, q, last) && Apply(s, cs).Some?
    ensures Apply(q, cs).Some? && Ahead(Apply(s, cs).value, Apply(q, cs).value, last)
    decreases |cs|
  {
    if cs != [] {
      AheadForward(s, q, last, cs[0]);
      AheadApply(Forward(s, cs[0]).value, Forward(q, cs[0]).value, last, cs[1..]);
    }
  }

  /** An input that does not spend the block's own outputs reads the same both times. */
  lemma AheadReading(s: State, q: State, last: State, txids: set<Txid>, o: OutPoint)
    requires Ahead(s, q, last) && From(s, txids, last) && o.txid !in txids
    ensures FundingInputChange(s, o) == FundingInputChange(q, o)
    ensures TrackedOutputChange(s, o) == TrackedOutputChange(q, o)
    ensures SpendsHtlc(s, o) == SpendsHtlc(q, o)
    ensures (s.fundingOutpoint == Some(o)) == (q.fundingOutpoint == Some(o))
  {
    if s.closing.Some? {
      assert Has(s.closing.value.secondLevel, o) == Has(q.closing.value.secondLevel, o);
    }
  }

  lemma {:induction false} AheadInputs(s: State, q: State, last: State, txids: set<Txid>, inputs: seq<OutPoint>)
    requires Ahead(s, q, last) && From(s, txids, last)
    requires forall o :: o in inputs ==> o.txid !in txids
    ensures InputChanges(s, inputs) == InputChanges(q, inputs)
    ensures HtlcSpends(s, inputs) == HtlcSpends(q, inputs)
    decreases |inputs|
  {
    if inputs != [] {
      var n := |inputs| - 1;
      assert forall o :: o in inputs[..n] ==> o in inputs;
      AheadInputs(s, q, last, txids, inputs[..n]);
      AheadReading(s, q, last, txids, inputs[n]);
    }
  }

  lemma AheadTx(provider: Provider, s: State, q: State, last: State, txids: set<Txid>, tx: Tx)
    requires Ahead(s, q, last) && From(s, txids, last)
    requires forall o :: o in tx.inputs ==> o.txid !in txids
    ensures TxChanges(provider, s, tx) == TxChanges(provider, q, tx)
    ensures Decodable(s, tx) == Decodable(q, tx)
  {
    AheadInputs(s, q, last, txids, tx.inputs);
    if |tx.inputs| == 1 {
      AheadReading(s, q, last, txids, tx.inputs[0]);
    }
    assert SpendsOnlyFunding(s, tx) == SpendsOnlyFunding(q, tx);
  }

  /** A valid block spends none of the outputs of its current and later transactions. */
  lemma {:induction false} InputsAreEarlier(p: Past, height: nat, block: Block, o: OutPoint)
    requires ValidBlock(p, height, block) && (o in p.spentBy || o == COINBASE)
    ensures o.txid !in Txids(block)
    decreases |block|
  {
    if block != [] {
      TxidsCons(block);
      InputsAreEarlier(Record(p, height, block[0]), height, block[1..], o);
    }
  }

  lemma FirstInputsAreEarlier(p: Past, height: nat, block: Block)
    requires ValidBlock(p, height, block) && block != []
    ensures forall o :: o in block[0].inputs ==> o.txid !in Txids(block)
  {
    TxidsCons(block);
    var p' := Record(p, height, block[0]);
    forall o | o in block[0].inputs ensures o.txid !in Txids(block) {
      InputsAreEarlier(p', height, block[1..], o);
      if o != COINBASE { assert o in p'.spentBy; }
    }
  }

  lemma {:induction false} Reparse(provider: Provider, s: State, q: State, last: State, p: Past, block: Block)
    requires Track(s, p) && ValidBlock(p, s.height, block) && ProviderOk(provider)
    requires WithinLimits(s.fundingTxids, s.fundingVouts, s.fundingInputs, block)
    requires Ahead(s, q, last)
    requires BlockChanges(provider, s, block).Some? && Apply(s, BlockChanges(provider, s, block).value) == Some(last)
    ensures BlockChanges(provider, q, block) == BlockChanges(provider, s, block)
    decreases |block|
  {
    BlockStep(provider, s, p, block);
    if block != [] {
      BlockFrom(provider, s, block);
      FirstInputsAreEarlier(p, s.height, block);
      AheadTx(provider, s, q, last, Txids(block), block[0]);
      ReparseTail(provider, s, q, last, p, block);
    }
  }

  lemma ReparseTail(provider: Provider, s: State, q: State, last: State, p: Past, block: Block)
    requires Track(s, p) && ValidBlock(p, s.height, block) && ProviderOk(provider) && block != []
    requires WithinLimits(s.fundingTxids, s.fundingVouts, s.fundingInputs, block)
    requires Ahead(s, q, last)
    requires BlockChanges(provider, s, block).Some? && Apply(s, BlockChanges(provider, s, block).value) == Some(last)
    requires TxChanges(provider, s, block[0]) == TxChanges(provider, q, block[0])
    requires Decodable(s, block[0]) == Decodable(q, block[0])
    ensures BlockChanges(provider, q, block) == BlockChanges(provider, s, block)
    decreases |block|, 0
  {
    var cs := TxChanges(provider, s, block[0]);
    var s' := Apply(s, cs).value;
    LimitsDecodable(s, p, block);
    TxStep(provider, s, p, block[0]);
    AheadApply(s, q, last, cs);
    ApplyKeepsFrame(s, cs);
    ApplyAppend(s, cs, BlockChanges(provider, s', block[1..]).value);
    Reparse(provider, s', Apply(q, cs).value, last, Record(p, s.height, block[0]), block[1..]);
  }

  /** Decoding a block against the state it led to finds the changes that led there. */
  lemma SecondDecoding(provider: Provider, s: State, p: Past, block: Block, last: State)
    requires Track(s, p) && ValidBlock(p, s.height, block) && ProviderOk(provider)
    requires WithinLimits(s.fundingTxids, s.fundingVouts, s.fundingInputs, block)
    requires BlockChanges(provider, s, block).Some? && Apply(s, BlockChanges(provider, s, block).value) == Some(last)
    ensures BlockChanges(provider, last, block) == BlockChanges(provider, s, block)
  {
    BlockStep(provider, s, p, block);
    BlockFrom(provider, s, block);
    ApplyKeepsFrame(s, BlockChanges(provider, s, block).value);
    Reparse(provider, s, last, last, p, block);
  }
}
