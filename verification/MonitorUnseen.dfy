/**
 A monitor whose funding has not confirmed, and the blocks below its set-up. The tracker makes
 it undo those too; it decodes them for the first time then. It panics on the block that
 holds its funding transaction, and on no other (`UnseenBlock`). If its funding is not on the
 chain, it is as if it had followed that block as well (`Rewinds`).
 */
module MonitorUnseen {
  import opened Options
  import opened Chain
  import opened MonitorState
  import opened MonitorDecode
  import opened MonitorBlocks
  import opened MonitorTruth
  import opened MonitorReorg

  /** Nothing on the chain has concerned the monitor so far. */
  predicate Unfunded(s: State) {
    && |s.fundingTxids| == |s.fundingVouts| == 1
    && s.fundingHeight.None? && s.fundingOutpoint.None? && s.doubleSpentHeight.None?
    && s.mutualHeight.None? && s.unilateralHeight.None? && s.closing.None?
    && s.closingSweptHeight.None? && s.ourSweptHeight.None?
  }

  predicate Contains(block: Block, txid: Txid) {
    exists i :: 0 <= i < |block| && block[i].txid == txid
  }

  /** Only spends of registered funding inputs, each by a transaction of the block. */
  predicate InputSpends(s: State, cs: seq<Change>, block: Block) {
    forall c :: c in cs ==>
      c.FundingInputSpent? && c.input in s.fundingInputs && exists i :: 0 <= i < |block| && c.input in block[i].inputs
  }

  /** The parser has no funding outpoint and no close to look for. */
  predicate Blind(s: State) {
    s.fundingOutpoint.None? && s.closing.None?
  }

  lemma {:induction false} BlindInputs(s: State, inputs: seq<OutPoint>)
    requires Blind(s)
    ensures HtlcSpends(s, inputs) == []
    ensures forall c :: c in InputChanges(s, inputs) ==> c.FundingInputSpent? && c.input in s.fundingInputs && c.input in inputs
  {
    if inputs != [] {
      BlindInputs(s, inputs[..|inputs| - 1]);
    }
  }

  lemma BlindTx(provider: Provider, s: State, tx: Tx)
    requires Blind(s)
    ensures TxChanges(provider, s, tx) == InputChanges(s, tx.inputs) + FundingChange(s, tx.txid)
    ensures tx.txid !in s.fundingTxids ==> Decodable(s, tx)
  {
    BlindInputs(s, tx.inputs);
  }

  lemma {:induction false} InputSpendsApply(s: State, cs: seq<Change>)
    requires forall c :: c in cs ==> c.FundingInputSpent?
    ensures Apply(s, cs).Some? && Apply(s, cs).value == s.(doubleSpentHeight := Apply(s, cs).value.doubleSpentHeight)
    ensures s.doubleSpentHeight.None? ==> Undo(s, cs) == Some(s)
    decreases |cs|
  {
    if cs != [] {
      InputSpendsApply(Forward(s, cs[0]).value, cs[1..]);
      if s.doubleSpentHeight.None? { InputSpendsApply(s, cs[1..]); }
    }
  }

  lemma ContainsCons(block: Block, txid: Txid)
    requires block != []
    ensures Contains(block, txid) <==> block[0].txid == txid || Contains(block[1..], txid)
  {
    if Contains(block, txid) && block[0].txid != txid {
      var i :| 0 <= i < |block| && block[i].txid == txid;
      assert block[1..][i - 1].txid == txid;
    }
    if Contains(block[1..], txid) {
      var i :| 0 <= i < |block[1..]| && block[1..][i].txid == txid;
      assert block[i + 1].txid == txid;
    }
  }

  /** A block without the funding transaction holds nothing but spends of its inputs. */
  lemma {:induction false} QuietBlock(provider: Provider, s: State, block: Block)
    requires Blind(s) && |s.fundingTxids| == 1 && !Contains(block, s.fundingTxids[0])
    ensures BlockChanges(provider, s, block).Some? && InputSpends(s, BlockChanges(provider, s, block).value, block)
    decreases |block|
  {
    if block != [] {
      ContainsCons(block, s.fundingTxids[0]);
      var cs := TxChanges(provider, s, block[0]);
      QuietTx(provider, s, block[0]);
      InputSpendsApply(s, cs);
      var t := Apply(s, cs).value;
      QuietBlock(provider, t, block[1..]);
      QuietCons(s, t, cs, BlockChanges(provider, t, block[1..]).value, block);
    }
  }

  lemma QuietTx(provider: Provider, s: State, tx: Tx)
    requires Blind(s) && tx.txid !in s.fundingTxids
    ensures Decodable(s, tx)
    ensures forall c :: c in TxChanges(provider, s, tx) ==>
                          c.FundingInputSpent? && c.input in s.fundingInputs && c.input in tx.inputs
  {
    BlindTx(provider, s, tx);
    BlindInputs(s, tx.inputs);
  }

  lemma QuietCons(s: State, t: State, cs: seq<Change>, rest: seq<Change>, block: Block)
    requires block != [] && t.fundingInputs == s.fundingInputs && InputSpends(t, rest, block[1..])
    requires forall c :: c in cs ==> c.FundingInputSpent? && c.input in s.fundingInputs && c.input in block[0].inputs
    ensures InputSpends(s, cs + rest, block)
  {
    forall c | c in cs + rest
      ensures c.FundingInputSpent? && c.input in s.fundingInputs && exists i :: 0 <= i < |block| && c.input in block[i].inputs
    {
      if c in rest {
        var i :| 0 <= i < |block[1..]| && c.input in block[1..][i].inputs;
        assert c.input in block[i + 1].inputs;
      } else {
        assert c.input in block[0].inputs;
      }
    }
  }

  lemma {:induction false} UndoAfter(s: State, xs: seq<Change>, ys: seq<Change>)
    requires Undo(s, xs) == Some(s)
    ensures Undo(s, xs + ys) == Undo(s, ys)
  {
    UndoJoined(s, xs, ys);
  }

  lemma {:induction false} UndoJoined(s: State, xs: seq<Change>, ys: seq<Change>)
    ensures Undo(s, xs + ys) == if Undo(s, xs).Some? then Undo(Undo(s, xs).value, ys) else None
    decreases |xs|
  {
    if xs == [] {
      assert xs + ys == ys;
    } else {
      assert (xs + ys)[0] == xs[0] && (xs + ys)[1..] == xs[1..] + ys;
      if Backward(s, xs[0]).Some? { UndoJoined(Backward(s, xs[0]).value, xs[1..], ys); }
    }
  }

  lemma FundingTxStops(provider: Provider, s: State, start: State, tx: Tx, rest: seq<Change>)
    requires Blind(s) && |s.fundingTxids| == |s.fundingVouts| == 1 && tx.txid == s.fundingTxids[0]
    requires start.fundingHeight.None? && start.doubleSpentHeight.None?
    ensures Undo(start, TxChanges(provider, s, tx) + rest).None?
  {
    BlindTx(provider, s, tx);
    BlindInputs(s, tx.inputs);
    var spends := InputChanges(s, tx.inputs);
    InputSpendsApply(start, spends);
    var found := FundingConfirmed(OutPoint(tx.txid, s.fundingVouts[0]));
    assert FundingChange(s, tx.txid) == [found];
    ConfirmationStops(start, spends, found, rest);
  }

  lemma ConfirmationStops(start: State, spends: seq<Change>, found: Change, rest: seq<Change>)
    requires found.FundingConfirmed? && start.fundingHeight.None? && Undo(start, spends) == Some(start)
    ensures Undo(start, spends + [found] + rest).None?
  {
    assert spends + [found] + rest == spends + ([found] + rest);
    UndoAfter(start, spends, [found] + rest);
    assert ([found] + rest)[0] == found;
  }

  /** Undoing a confirmation the monitor never recorded fails, whatever comes before it in the block. */
  lemma {:induction false} FundingStops(provider: Provider, s: State, start: State, block: Block)
    requires Blind(s) && |s.fundingTxids| == |s.fundingVouts| == 1 && Contains(block, s.fundingTxids[0])
    requires start.fundingHeight.None? && start.doubleSpentHeight.None?
    requires BlockChanges(provider, s, block).Some?
    ensures Undo(start, BlockChanges(provider, s, block).value).None?
    decreases |block|
  {
    ContainsCons(block, s.fundingTxids[0]);
    var cs := TxChanges(provider, s, block[0]);
    var t := Apply(s, cs).value;
    var rest := BlockChanges(provider, t, block[1..]).value;
    if block[0].txid == s.fundingTxids[0] {
      FundingTxStops(provider, s, start, block[0], rest);
    } else {
      QuietTx(provider, s, block[0]);
      InputSpendsApply(s, cs);
      InputSpendsApply(start, cs);
      FundingStops(provider, t, start, block[1..]);
      UndoAfter(start, cs, rest);
    }
  }

  /** A monitor without a funding, made to undo a block it never added, panics exactly when
      the block holds its funding transaction; otherwise only its height goes back. */
  lemma UnseenBlock(provider: Provider, s: State, hash: BlockHash, block: Block)
    requires Unfunded(s) && s.height > 0
    ensures RemoveBlock(provider, s, hash, block).None? <==> Contains(block, s.fundingTxids[0])
    ensures RemoveBlock(provider, s, hash, block).Some? ==>
              RemoveBlock(provider, s, hash, block).value.state == s.(height := s.height - 1, sawBlock := true)
  {
    PushTransactionsChanges(provider, s, hash, block);
    var t := s.(sawBlock := true);
    if Contains(block, s.fundingTxids[0]) {
      if BlockChanges(provider, s, block).Some? {
        FundingStops(provider, s, t, block);
        BackwardAllState(Effect(t, [], []), BlockChanges(provider, s, block).value);
      }
    } else {
      QuietBlock(provider, s, block);
      var cs := BlockChanges(provider, s, block).value;
      InputSpendsApply(t, cs);
      BackwardAllState(Effect(t, [], []), cs);
    }
  }

  // ---------------------------------------------------------------------------
  // As if it had followed the block
  // ---------------------------------------------------------------------------

  lemma {:induction false} RecordedTxs(p: Past, height: nat, block: Block, i: nat)
    requires ValidBlock(p, height, block)
    ensures forall t :: t in p.at ==> t in RecordBlock(p, height, block).at
    ensures forall o :: o in p.spentBy ==> o in RecordBlock(p, height, block).spentBy
    ensures i < |block| ==> block[i].txid in RecordBlock(p, height, block).at
    ensures i < |block| ==> forall o :: o in block[i].inputs && o != COINBASE ==> o in RecordBlock(p, height, block).spentBy
    decreases |block|
  {
    if block != [] {
      RecordedTxs(Record(p, height, block[0]), height, block[1..], if i == 0 then 0 else i - 1);
    }
  }

  /** The block neither holds the funding transaction nor spends one of its inputs. */
  predicate Quiet(s: State, block: Block)
    requires s.fundingTxids != []
  {
    && !Contains(block, s.fundingTxids[0])
    && forall i, o :: 0 <= i < |block| && o in block[i].inputs ==> o !in s.fundingInputs
  }

  lemma NotInBlock(s: State, p: Past, height: nat, block: Block)
    requires Unfunded(s) && ValidBlock(p, height, block) && Track(s, RecordBlock(p, height, block))
    ensures Quiet(s, block) && s.fundingTxids[0] !in p.at
    ensures forall o :: o in s.fundingInputs ==> o !in p.spentBy
  {
    var q := RecordBlock(p, height, block);
    assert forall o :: o in s.fundingInputs ==> o !in q.spentBy;
    forall i | 0 <= i < |block|
      ensures block[i].txid in q.at && forall o :: o in block[i].inputs && o != COINBASE ==> o in q.spentBy
    {
      RecordedTxs(p, height, block, i);
    }
    RecordedTxs(p, height, block, 0);
  }

  /** The funding outpoint is not spent either. */
  ghost predicate Untouched(s: State, p: Past)
    requires Unfunded(s)
  {
    OutPoint(s.fundingTxids[0], s.fundingVouts[0]) !in p.spentBy
  }

  function Lowered(s: State): State {
    if s.height == 0 then s else s.(height := s.height - 1)
  }

  lemma LoweredInv(s: State, t: State, p: Past, block: Block)
    requires Unfunded(s) && s.height > 0 && t == Lowered(s) && PastOk(p, t.height) && Quiet(s, block)
    requires s.fundingTxids[0] !in p.at && WatchesOk(s) && forall o :: o in s.fundingInputs ==> o !in p.spentBy
    ensures Inv(t, p)
  {
  }

  lemma UntouchedBelow(s: State, p: Past, height: nat, block: Block)
    requires Unfunded(s) && ValidBlock(p, height, block) && Quiet(s, block) && Untouched(s, RecordBlock(p, height, block))
    requires COINBASE.txid != s.fundingTxids[0]
    ensures Untouched(s, p) && WithinLimits(s.fundingTxids, s.fundingVouts, s.fundingInputs, block)
  {
    RecordedTxs(p, height, block, 0);
    var o := OutPoint(s.fundingTxids[0], s.fundingVouts[0]);
    forall i | 0 <= i < |block| ensures block[i].txid != s.fundingTxids[0] && block[i].inputs != [o] {
      assert !Contains(block, s.fundingTxids[0]);
      if block[i].inputs == [o] {
        assert o in block[i].inputs;
        RecordedTxs(p, height, block, i);
      }
    }
  }

  lemma {:induction false} NoInputSpent(s: State, inputs: seq<OutPoint>)
    requires Blind(s) && (forall o :: o in inputs ==> o !in s.fundingInputs)
    ensures InputChanges(s, inputs) == []
  {
    if inputs != [] { NoInputSpent(s, inputs[..|inputs| - 1]); }
  }

  lemma {:induction false} NothingFound(provider: Provider, s: State, block: Block)
    requires Blind(s) && |s.fundingTxids| == 1 && Quiet(s, block)
    ensures BlockChanges(provider, s, block) == Some([])
    decreases |block|
  {
    if block != [] {
      ContainsCons(block, s.fundingTxids[0]);
      assert forall i :: 0 <= i < |block[1..]| ==> block[1..][i] == block[i + 1];
      BlindTx(provider, s, block[0]);
      NoInputSpent(s, block[0].inputs);
      NothingFound(provider, s, block[1..]);
    }
  }

  /** A block that does not concern the monitor only raises its height. */
  lemma QuietAdd(provider: Provider, s: State, hash: BlockHash, block: Block)
    requires Unfunded(s) && Quiet(s, block)
    ensures BlockChanges(provider, s, block) == Some([])
    ensures AddBlock(provider, s, hash, block).Some? && AddBlock(provider, s, hash, block).value.state == Raised(s)
  {
    NothingFound(provider, s, block);
    AddBlockIsDecodeThenCommit(provider, s, hash, block);
  }

  lemma RewoundInv(provider: Provider, s: State, t: State, p: Past, q: Past, block: Block)
    requires Unfunded(s) && s.height > 0 && t == Lowered(s) && ProviderOk(provider)
    requires PastOk(p, t.height) && ValidBlock(p, s.height, block) && q == RecordBlock(p, s.height, block)
    requires Track(s, q) && Untouched(s, q)
    ensures Quiet(s, block) && Inv(t, p) && Untouched(t, p) && NextBlock(provider, t, p, block)
  {
    NotInBlock(s, p, s.height, block);
    LoweredInv(s, t, p, block);
    UntouchedBelow(s, p, s.height, block);
  }

  /** A monitor true to the chain whose funding has not confirmed is what adding the last
      block makes of the same monitor one block earlier, which was true to the chain then. */
  lemma Rewinds(provider: Provider, s: State, t: State, p: Past, q: Past, hash: BlockHash, block: Block)
    requires Unfunded(s) && s.height > 0 && t == Lowered(s) && ProviderOk(provider)
    requires PastOk(p, t.height) && ValidBlock(p, s.height, block) && q == RecordBlock(p, s.height, block)
    requires Track(s, q) && Untouched(s, q)
    ensures Unfunded(t) && Inv(t, p) && Untouched(t, p) && NextBlock(provider, t, p, block)
    ensures BlockChanges(provider, t, block) == Some([])
    ensures AddBlock(provider, t, hash, block).Some? && AddBlock(provider, t, hash, block).value.state == s.(sawBlock := true)
  {
    RewoundInv(provider, s, t, p, q, block);
    assert Quiet(t, block);
    QuietAdd(provider, t, hash, block);
  }
}
