/**
 The watch set across a reorg. Undoing a block asks the tracker to forget the outputs
 the block made it watch and to watch again those the block made it forget. For the two
 HTLC changes the source reports these the wrong way round, so the round trip holds
 exactly for blocks without them.
 */
module MonitorWatchReorg {
  import opened Options
  import opened Chain
  import opened Closing
  import opened ClosingTruth
  import opened MonitorState
  import opened MonitorDecode
  import opened MonitorBlocks
  import opened MonitorReplay
  import opened MonitorTruth
  import opened MonitorReparse
  import opened MonitorReorg
  import opened MonitorRuns
  import opened MonitorWatch

  // ---------------------------------------------------------------------------
  // What a block removes was watched, or added by the block itself
  // ---------------------------------------------------------------------------

  lemma RemovedWasWatched(s: State, p: Past, tx: Tx, o: OutPoint)
    requires Track(s, p) && ValidTx(p, tx) && RemovedBy(s, tx, o)
    ensures Watched(s, p.spentBy.Keys, o)
  {
    CoinbaseUntracked(s, p);
    if SpendsOnlyFunding(s, tx) && tx.txid !in s.fundingTxids {
      FundingApart(s, p, tx.inputs[0]);
    }
  }

  lemma TxRemovesWatched(provider: Provider, s: State, p: Past, tx: Tx, watches: set<OutPoint>)
    requires Track(s, p) && ValidTx(p, tx) && WatchesExactly(watches, s, p)
    ensures RemoveSet(s, TxChanges(provider, s, tx)) <= watches
  {
    if s.closing.Some? { RemovedWithClosing(provider, s, p, tx); } else { RemovedWithoutClosing(provider, s, p, tx); }
    forall o | o in RemoveSet(s, TxChanges(provider, s, tx)) ensures o in watches {
      RemovedWasWatched(s, p, tx, o);
    }
  }

  lemma {:induction false} BlockRemovesWatched(provider: Provider, s: State, p: Past, block: Block, watches: set<OutPoint>)
    requires Track(s, p) && ValidBlock(p, s.height, block) && ProviderOk(provider)
    requires WithinLimits(s.fundingTxids, s.fundingVouts, s.fundingInputs, block) && WatchesExactly(watches, s, p)
    ensures BlockChanges(provider, s, block).Some?
    ensures RemoveSet(s, BlockChanges(provider, s, block).value) <=
            watches + AddSet(s, BlockChanges(provider, s, block).value)
    decreases |block|
  {
    BlockStep(provider, s, p, block);
    if block != [] {
      LimitsDecodable(s, p, block);
      TxStep(provider, s, p, block[0]);
      WatchTx(provider, s, p, block[0], watches);
      TxRemovesWatched(provider, s, p, block[0], watches);
      var cs := TxChanges(provider, s, block[0]);
      ApplyKeepsFrame(s, cs);
      var s' := Apply(s, cs).value;
      BlockRemovesWatched(provider, s', Record(p, s.height, block[0]), block[1..],
                          watches + AddSet(s, cs) - RemoveSet(s, cs));
      SetsAppend(s, cs, BlockChanges(provider, s', block[1..]).value);
    }
  }

  // ---------------------------------------------------------------------------
  // The reports of an independent list, read off the list
  // ---------------------------------------------------------------------------

  function BackwardAddSet(s: State, cs: seq<Change>): set<OutPoint>
    decreases |cs|
  {
    if cs == [] || Backward(s, cs[0]).None? then {}
    else AsSet(BackwardAdds(s, cs[0])) + BackwardAddSet(Backward(s, cs[0]).value, cs[1..])
  }

  function BackwardRemoveSet(s: State, cs: seq<Change>): set<OutPoint>
    decreases |cs|
  {
    if cs == [] || Backward(s, cs[0]).None? then {}
    else AsSet(BackwardRemoves(s, cs[0])) + BackwardRemoveSet(Backward(s, cs[0]).value, cs[1..])
  }

  lemma {:induction false} BackwardReportsAreSets(e: Effect, cs: seq<Change>)
    requires BackwardAll(e, cs).Some?
    ensures AsSet(BackwardAll(e, cs).value.adds) == AsSet(e.adds) + BackwardAddSet(e.state, cs)
    ensures AsSet(BackwardAll(e, cs).value.removes) == AsSet(e.removes) + BackwardRemoveSet(e.state, cs)
    decreases |cs|
  {
    if cs != [] {
      BackwardReportsAreSets(BackwardEffect(e, cs[0]).value, cs[1..]);
      AsSetAppend(e.adds, BackwardAdds(e.state, cs[0]));
      AsSetAppend(e.removes, BackwardRemoves(e.state, cs[0]));
    }
  }

  predicate HtlcChange(c: Change) {
    c.HtlcOutputSpent? || c.SecondLevelSpent?
  }

  /** Without an earlier close, changes to tracked outputs are about the close of `s`. */
  lemma {:induction false} ForwardWithoutHtlc(s: State, cs: seq<Change>, q: State)
    requires Apply(s, cs).Some? && Undo(q, cs).Some?
    requires forall i :: 0 <= i < |cs| ==> !HtlcChange(cs[i])
    requires forall i :: 0 <= i < |cs| && cs[i].OurOutputSpent? ==> SameClose(s, q, cs)
    ensures AddSet(s, cs) == BackwardAddSet(q, cs)
    ensures RemoveSet(s, cs) == BackwardRemoveSet(q, cs)
    decreases |cs|
  {
    if cs != [] {
      var c := cs[0];
      var s', q' := Forward(s, c).value, Backward(q, c).value;
      assert forall i :: 0 <= i < |cs[1..]| ==> cs[1..][i] == cs[i + 1];
      assert ForwardAdds(s, c) == BackwardAdds(q, c) && ForwardRemoves(s, c) == BackwardRemoves(q, c);
      forall i | 0 <= i < |cs[1..]| && cs[1..][i].OurOutputSpent? ensures SameClose(s', q', cs[1..]) {
        assert cs[i + 1].OurOutputSpent?;
      }
      ForwardWithoutHtlc(s', cs[1..], q');
    }
  }

  /** Both states follow the same close, and the list does not change which. */
  predicate SameClose(s: State, q: State, cs: seq<Change>) {
    && s.closing.Some? && q.closing.Some? && s.closing.value.txid == q.closing.value.txid
    && (forall i :: 0 <= i < |cs| ==> !cs[i].UnilateralClose?)
  }

  /** A change to a tracked output, in an independent list, finds its output in the
      starting state. */
  lemma {:induction false} TargetIsOlder(s: State, cs: seq<Change>, j: nat)
    requires Good(s, cs) && Independent(cs) && j < |cs| && OnClosing(cs[j])
    ensures s.closing.Some?
    ensures cs[j].SecondLevelSpent? ==> Has(s.closing.value.secondLevel, cs[j].outpoint)
    decreases j
  {
    if j > 0 {
      assert cs[1..][j - 1] == cs[j];
      assert Independent(cs[1..]) by { IndependentTail(cs); }
      TargetIsOlder(Forward(s, cs[0]).value, cs[1..], j - 1);
      assert !BuildsOn(cs[0], cs[j]);
      if cs[j].SecondLevelSpent? && s.closing.Some? {
        var xs := s.closing.value.secondLevel;
        if cs[0].HtlcOutputSpent? { HasAppend(xs, SecondLevel(cs[0].second, false), cs[j].outpoint); }
        if cs[0].SecondLevelSpent? { SetHas(xs, cs[0].outpoint, true, cs[j].outpoint); }
      }
    }
  }

  lemma IndependentTail(cs: seq<Change>)
    requires Independent(cs) && cs != []
    ensures Independent(cs[1..])
  {
    assert forall i :: 0 <= i < |cs[1..]| ==> cs[1..][i] == cs[i + 1];
  }

  /** While a close is followed, no new close is recorded and its txid stays. */
  lemma {:induction false} CloseStays(s: State, cs: seq<Change>)
    requires Good(s, cs) && s.closing.Some?
    ensures Apply(s, cs).Some? && Apply(s, cs).value.closing.Some?
    ensures Apply(s, cs).value.closing.value.txid == s.closing.value.txid
    ensures forall i :: 0 <= i < |cs| ==> !cs[i].UnilateralClose?
    decreases |cs|
  {
    if cs != [] {
      CloseStays(Forward(s, cs[0]).value, cs[1..]);
      assert forall i :: 1 <= i < |cs| ==> cs[i] == cs[1..][i - 1];
    }
  }

  /** The output an HTLC change is about. */
  function Target(txid: Txid, c: Change): OutPoint {
    if c.HtlcOutputSpent? then OutPoint(txid, c.vout) else if c.SecondLevelSpent? then c.outpoint else COINBASE
  }

  lemma CloseKeptByStep(s: State, c: Change)
    requires s.closing.Some? && !c.UnilateralClose?
    ensures Forward(s, c).Some? ==>
              Forward(s, c).value.closing.Some? && Forward(s, c).value.closing.value.txid == s.closing.value.txid
    ensures Backward(s, c).Some? ==>
              Backward(s, c).value.closing.Some? && Backward(s, c).value.closing.value.txid == s.closing.value.txid
  {
  }

  lemma TargetReported(s: State, q: State, c: Change)
    requires s.closing.Some? && q.closing.Some? && s.closing.value.txid == q.closing.value.txid && HtlcChange(c)
    ensures Target(s.closing.value.txid, c) in AsSet(ForwardRemoves(s, c))
    ensures Target(s.closing.value.txid, c) in AsSet(BackwardAdds(q, c))
  {
    AsSetOne(Target(s.closing.value.txid, c));
  }

  /** An HTLC change reports its output as a remove forward and as an add backward. */
  lemma {:induction false} TargetReports(s: State, q: State, cs: seq<Change>, j: nat)
    requires Apply(s, cs).Some? && Undo(q, cs).Some? && SameClose(s, q, cs)
    requires j < |cs| && HtlcChange(cs[j])
    ensures Target(s.closing.value.txid, cs[j]) in RemoveSet(s, cs)
    ensures Target(s.closing.value.txid, cs[j]) in BackwardAddSet(q, cs)
    decreases |cs|
  {
    if j == 0 {
      TargetReported(s, q, cs[0]);
    } else {
      CloseKeptByStep(s, cs[0]);
      CloseKeptByStep(q, cs[0]);
      assert forall i :: 0 <= i < |cs[1..]| ==> cs[1..][i] == cs[i + 1];
      TargetReports(Forward(s, cs[0]).value, Backward(q, cs[0]).value, cs[1..], j - 1);
    }
  }

  // ---------------------------------------------------------------------------
  // The round trip
  // ---------------------------------------------------------------------------

  /** The block has a change of one of the two HTLC kinds. */
  predicate HasHtlcChange(cs: seq<Change>) {
    exists i :: 0 <= i < |cs| && HtlcChange(cs[i])
  }

  /** The watch sets around a block, from the changes and the two states alone. */
  lemma WatchRoundTrip(s: State, q: State, cs: seq<Change>, watches: set<OutPoint>)
    requires Good(s, cs) && Independent(cs) && Apply(s, cs).Some? && Undo(q, cs).Some?
    requires s.closing.Some? ==> q.closing.Some? && q.closing.value.txid == s.closing.value.txid
    requires AddSet(s, cs) !! watches && RemoveSet(s, cs) <= watches + AddSet(s, cs)
    requires s.closing.Some? ==> forall o :: Tracks(s.closing.value, o) ==> o !in AddSet(s, cs)
    ensures (watches + AddSet(s, cs) - RemoveSet(s, cs)) + BackwardRemoveSet(q, cs) - BackwardAddSet(q, cs) == watches
            <==> !HasHtlcChange(cs)
  {
    if HasHtlcChange(cs) {
      var j :| 0 <= j < |cs| && HtlcChange(cs[j]);
      HtlcTargetLost(s, q, cs, j);
      var o := Target(s.closing.value.txid, cs[j]);
      assert o in watches;
    } else {
      forall i | 0 <= i < |cs| && cs[i].OurOutputSpent? ensures SameClose(s, q, cs) {
        TargetIsOlder(s, cs, i);
        CloseStays(s, cs);
      }
      ForwardWithoutHtlc(s, cs, q);
    }
  }

  lemma HtlcTargetLost(s: State, q: State, cs: seq<Change>, j: nat)
    requires Good(s, cs) && Independent(cs) && Apply(s, cs).Some? && Undo(q, cs).Some?
    requires s.closing.Some? ==> q.closing.Some? && q.closing.value.txid == s.closing.value.txid
    requires s.closing.Some? ==> forall o :: Tracks(s.closing.value, o) ==> o !in AddSet(s, cs)
    requires j < |cs| && HtlcChange(cs[j])
    ensures s.closing.Some?
    ensures
      var o := Target(s.closing.value.txid, cs[j]);
      o in RemoveSet(s, cs) && o in BackwardAddSet(q, cs) && o !in AddSet(s, cs)
  {
    TargetIsOlder(s, cs, j);
    CloseStays(s, cs);
    TargetReports(s, q, cs, j);
    var o := Target(s.closing.value.txid, cs[j]);
    HtlcIsTracked(s, cs, j);
    assert Tracks(s.closing.value, o);
  }

  lemma {:induction false} HtlcIsKnown(s: State, cs: seq<Change>, j: nat)
    requires Good(s, cs) && s.closing.Some? && j < |cs| && cs[j].HtlcOutputSpent?
    ensures cs[j].vout in s.closing.value.htlcOutputs
    decreases j
  {
    if j > 0 {
      CloseStays(s, cs);
      HtlcIsKnown(Forward(s, cs[0]).value, cs[1..], j - 1);
    }
  }

  lemma HtlcIsTracked(s: State, cs: seq<Change>, j: nat)
    requires Good(s, cs) && Independent(cs) && j < |cs| && HtlcChange(cs[j]) && s.closing.Some?
    ensures Tracks(s.closing.value, Target(s.closing.value.txid, cs[j]))
  {
    if cs[j].HtlcOutputSpent? { HtlcIsKnown(s, cs, j); } else { TargetIsOlder(s, cs, j); }
  }

  /** A block added and removed again, when the removal gives the state back: the tracker's
      watch set comes back too exactly when the block had no HTLC change. */
  lemma ReorgWatch(provider: Provider, s: State, p: Past, hash: BlockHash, block: Block, watches: set<OutPoint>)
    requires Inv(s, p) && NextBlock(provider, s, p, block) && Undoable(provider, s, block)
    requires WatchesExactly(watches, s, p)
    ensures AddBlock(provider, s, hash, block).Some?
    ensures
      var e := AddBlock(provider, s, hash, block).value;
      var back := RemoveBlock(provider, e.state, hash, block);
      && back.Some? && back.value.state == s.(sawBlock := true)
      && (TrackerRemove(TrackerAdd(watches, e), back.value) == watches
          <==> !HasHtlcChange(BlockChanges(provider, s, block).value))
  {
    ReorgUndo(provider, s, p, hash, block);
    TrackRaised(s, p);
    AddParts(provider, s, Raised(s), s.height + 1, p, hash, block);
    var cs := BlockChanges(provider, s, block).value;
    BlockReports(s, cs);
    var e := AddBlock(provider, s, hash, block).value;
    BackReports(provider, s, p, hash, block, e.state, cs);
    WatchesRaised(watches, s, p);
    BlockRemovesWatched(provider, Raised(s), p, block, watches);
    BlockAddsApart(provider, Raised(s), p, block);
    NewIsUnwatched(provider, s, p, block, watches, cs);
    CloseOfAdded(s, cs, e.state);
    WatchRoundTrip(Raised(s), e.state, cs, watches);
  }

  lemma BackReports(provider: Provider, s: State, p: Past, hash: BlockHash, block: Block, a: State, cs: seq<Change>)
    requires Inv(s, p) && NextBlock(provider, s, p, block)
    requires BlockChanges(provider, s, block) == Some(cs)
    requires AddBlock(provider, s, hash, block).Some? && AddBlock(provider, s, hash, block).value.state == a
    requires RemoveBlock(provider, a, hash, block).Some?
    ensures Undo(a, cs).Some?
    ensures AsSet(RemoveBlock(provider, a, hash, block).value.adds) == BackwardAddSet(a, cs)
    ensures AsSet(RemoveBlock(provider, a, hash, block).value.removes) == BackwardRemoveSet(a, cs)
  {
    RemoveBlockParts(provider, s, p, hash, block);
    BackwardAllState(Effect(a, [], []), cs);
    BackwardReportsAreSets(Effect(a, [], []), cs);
  }

  /** A transaction makes nothing that is a funding input: by the time it could, they are spent. */
  lemma TxAddsApart(provider: Provider, s: State, p: Past, tx: Tx)
    requires Track(s, p) && ValidTx(p, tx) && FundsWith(s, tx) && ProviderOk(provider)
    ensures AddSet(s, TxChanges(provider, s, tx)) !! s.fundingInputs
  {
    var adds := AddSet(s, TxChanges(provider, s, tx));
    TxHasEffect(provider, s, p, tx);
  }

  lemma {:induction false} BlockAddsApart(provider: Provider, s: State, p: Past, block: Block)
    requires Track(s, p) && ValidBlock(p, s.height, block) && ProviderOk(provider)
    requires WithinLimits(s.fundingTxids, s.fundingVouts, s.fundingInputs, block)
    ensures BlockChanges(provider, s, block).Some?
    ensures AddSet(s, BlockChanges(provider, s, block).value) !! s.fundingInputs
    decreases |block|
  {
    BlockStep(provider, s, p, block);
    if block != [] {
      LimitsDecodable(s, p, block);
      TxStep(provider, s, p, block[0]);
      TxAddsApart(provider, s, p, block[0]);
      var cs := TxChanges(provider, s, block[0]);
      ApplyKeepsFrame(s, cs);
      var s' := Apply(s, cs).value;
      BlockAddsApart(provider, s', Record(p, s.height, block[0]), block[1..]);
      SetsAppend(s, cs, BlockChanges(provider, s', block[1..]).value);
    }
  }

  /** What the block adds to the watches was neither watched nor tracked before. */
  lemma NewIsUnwatched(provider: Provider, s: State, p: Past, block: Block, watches: set<OutPoint>, cs: seq<Change>)
    requires Inv(s, p) && NextBlock(provider, s, p, block) && WatchesExactly(watches, s, p)
    requires BlockChanges(provider, s, block) == Some(cs) && AddSet(Raised(s), cs) !! s.fundingInputs
    ensures AddSet(Raised(s), cs) !! watches
    ensures s.closing.Some? ==> forall o :: Tracks(s.closing.value, o) ==> o !in AddSet(Raised(s), cs)
  {
    BlockMadeBy(provider, s, block);
    forall o | o in AddSet(Raised(s), cs) ensures !Interesting(s, o) {
      AddsAreMade(Raised(s), cs, Txids(block), o);
      NewInBlockApart(s, p, block, o);
    }
  }

  lemma NewInBlockApart(s: State, p: Past, block: Block, o: OutPoint)
    requires Track(s, p) && ValidBlock(p, s.height + 1, block) && o.txid in Txids(block)
    ensures !Interesting(s, o)
  {
    NewTxids(p, s.height + 1, block, o.txid);
    if s.closing.Some? {
      var c := s.closing.value;
      assert c.txid in p.at;
      forall i | 0 <= i < |c.secondLevel| ensures c.secondLevel[i].outpoint != o {
        assert c.secondLevel[i].outpoint.txid in p.at;
      }
    }
  }

  lemma {:induction false} NewTxids(p: Past, height: nat, block: Block, txid: Txid)
    requires ValidBlock(p, height, block) && txid in Txids(block)
    ensures txid !in p.at
    decreases |block|
  {
    TxidsCons(block);
    if txid != block[0].txid { NewTxids(Record(p, height, block[0]), height, block[1..], txid); }
  }

  lemma CloseOfAdded(s: State, cs: seq<Change>, a: State)
    requires Good(Raised(s), cs) && Apply(Raised(s), cs).Some?
    requires AddBlockEnd(s, cs).Some? && AddBlockEnd(s, cs).value.state == a
    ensures s.closing.Some? ==> a.closing.Some? && a.closing.value.txid == s.closing.value.txid
  {
    AddBlockEndState(s, cs);
    if s.closing.Some? { CloseStays(Raised(s), cs); }
  }
}
