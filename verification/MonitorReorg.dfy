/**
 One block added and, in a reorg, removed again. Adding keeps the truth invariant
 (`AddKeepsInv`); removing the block panics or gives the state before it back, as
 `ReorgUndo` states exactly.
 */
module MonitorReorg {
  import opened Options
  import opened Chain
  import opened Closing
  import opened ClosingTruth
  import opened MonitorState
  import opened MonitorDecode
  import opened MonitorBlocks
  import opened MonitorReplay
  import opened MonitorTruth
  import opened MonitorReparse

  /** `o` was spent at or below `height`. */
  ghost predicate SpentBy(p: Past, o: OutPoint, height: nat) {
    o in p.spentBy && p.spentBy[o] in p.at && p.at[p.spentBy[o]] <= height
  }

  /** The swept heights are set exactly when the outputs are spent, and no spend is later. */
  ghost predicate SweepTrue(s: State, p: Past) {
    && (s.closingSweptHeight.Some? <==> IsClosingSwept(s))
    && (s.ourSweptHeight.Some? <==> IsOurOutputSwept(s))
    && (s.closingSweptHeight.Some? ==>
          && s.closingSweptHeight.value <= s.height
          && forall o :: Tracks(s.closing.value, o) ==> SpentBy(p, o, s.closingSweptHeight.value))
    && (s.ourSweptHeight.Some? ==>
          && s.ourSweptHeight.value <= s.height
          && forall o :: s.closing.value.IncludesOurOutput(o) ==> SpentBy(p, o, s.ourSweptHeight.value))
  }

  ghost predicate Inv(s: State, p: Past) {
    Track(s, p) && SweepTrue(s, p)
  }

  /** The chain's next block, as the decoder can read it. */
  ghost predicate NextBlock(provider: Provider, s: State, p: Past, block: Block) {
    && ProviderOk(provider)
    && ValidBlock(p, s.height + 1, block)
    && WithinLimits(s.fundingTxids, s.fundingVouts, s.fundingInputs, block)
  }

  function Raised(s: State): State {
    s.(sawBlock := true, height := s.height + 1)
  }

  /** A fresh monitor for a funding that has not confirmed satisfies the invariant. */
  lemma {:induction false} InitialInv(height: nat, funding: OutPoint, inputs: set<OutPoint>, p: Past)
    requires PastOk(p, height) && funding.txid !in p.at && funding.txid != COINBASE.txid
    requires COINBASE !in inputs && (forall o :: o in inputs ==> o.txid != funding.txid && o !in p.spentBy)
    ensures Inv(State(height, [funding.txid], [funding.vout], inputs, None, None, None, None, None, None, None, None,
                      false, false), p)
  {
  }

  lemma {:induction false} SweptStays(s: State, cs: seq<Change>)
    requires Good(s, cs)
    ensures Apply(s, cs).Some?
    ensures IsClosingSwept(s) && WellShapedIn(s) ==> Apply(s, cs).value.closing == s.closing
    ensures IsOurOutputSwept(s) ==> SameOurs(s, Apply(s, cs).value)
    decreases |cs|
  {
    if cs != [] {
      if IsClosingSwept(s) && WellShapedIn(s) { SweptStep(s, cs[0]); }
      if IsOurOutputSwept(s) { OursStep(s, cs[0]); }
      SweptStays(Forward(s, cs[0]).value, cs[1..]);
    }
  }

  predicate SameOurs(s: State, t: State) {
    s.closing.Some? && t.closing.Some?
    && t.closing.value.ourOutput == s.closing.value.ourOutput && t.closing.value.txid == s.closing.value.txid
  }

  lemma OursStep(s: State, c: Change)
    requires Fresh(s, c) && Forward(s, c).Some? && IsOurOutputSwept(s)
    ensures SameOurs(s, Forward(s, c).value)
  {
  }

  ghost predicate WellShapedIn(s: State) {
    s.closing.Some? ==> WellShaped(s.closing.value)
  }

  lemma SweptStep(s: State, c: Change)
    requires Fresh(s, c) && Forward(s, c).Some? && IsClosingSwept(s) && WellShapedIn(s)
    ensures Forward(s, c).value.closing == s.closing
  {
    if c.SecondLevelSpent? {
      FirstSpentTrue(s.closing.value.secondLevel, c.outpoint);
    }
  }

  lemma {:induction false} FirstSpentTrue(xs: seq<SecondLevel>, o: OutPoint)
    requires Has(xs, o) && (forall i :: 0 <= i < |xs| ==> xs[i].spent)
    ensures FirstSpent(xs, o)
    decreases |xs|
  {
    HasCons(xs, o);
    if xs[0].outpoint != o { FirstSpentTrue(xs[1..], o); }
  }

  // ---------------------------------------------------------------------------
  // Adding a block
  // ---------------------------------------------------------------------------

  lemma TrackRaised(s: State, p: Past)
    requires Track(s, p)
    ensures Track(Raised(s), p)
  {
  }

  /** The pieces of an added block: its changes and the state they lead to. */
  lemma AddParts(provider: Provider, s: State, t: State, height: nat, p: Past, hash: BlockHash, block: Block)
    requires t == Raised(s) && height == t.height && Track(t, p) && ValidBlock(p, height, block) && ProviderOk(provider)
    requires WithinLimits(t.fundingTxids, t.fundingVouts, t.fundingInputs, block)
    ensures
      var cs := BlockChanges(provider, s, block);
      && cs.Some? && cs == BlockChanges(provider, t, block)
      && Good(t, cs.value) && Apply(t, cs.value).Some?
      && Track(Apply(t, cs.value).value, RecordBlock(p, height, block))
      && AddBlock(provider, s, hash, block) == AddBlockEnd(s, cs.value)
      && AddBlockEnd(s, cs.value).Some?
  {
    BlockStep(provider, t, p, block);
    AddBlockShape(provider, s, hash, block);
  }

  /** Decoding does not depend on the height, and what it finds is what is committed. */
  lemma AddBlockShape(provider: Provider, s: State, hash: BlockHash, block: Block)
    requires BlockChanges(provider, Raised(s), block).Some?
    requires Apply(Raised(s), BlockChanges(provider, Raised(s), block).value).Some?
    ensures
      var cs := BlockChanges(provider, s, block);
      && cs == BlockChanges(provider, Raised(s), block)
      && AddBlock(provider, s, hash, block) == AddBlockEnd(s, cs.value)
      && AddBlockEnd(s, cs.value).Some?
  {
    AgreeBlockChanges(provider, s, Raised(s), block);
    AddBlockIsDecodeThenCommit(provider, s, hash, block);
    AddBlockEndState(s, BlockChanges(provider, s, block).value);
  }

  /** The swept heights `AddBlockEnd` sets. */
  function Settle(s: State, t: State): State {
    t.(closingSweptHeight := if !IsClosingSwept(s) && IsClosingSwept(t) then Some(t.height) else t.closingSweptHeight,
       ourSweptHeight := if !IsOurOutputSwept(s) && IsOurOutputSwept(t) then Some(t.height) else t.ourSweptHeight)
  }

  lemma AddBlockEndState(s: State, cs: seq<Change>)
    requires Apply(Raised(s), cs).Some?
    ensures AddBlockEnd(s, cs).Some? && AddBlockEnd(s, cs).value.state == Settle(s, Apply(Raised(s), cs).value)
  {
    ForwardAllState(Effect(Raised(s), [], []), cs);
  }

  lemma SpentByKept(p: Past, height: nat, block: Block, o: OutPoint, k: nat)
    requires PastOk(p, height) && ValidBlock(p, height, block) && SpentBy(p, o, k)
    ensures SpentBy(RecordBlock(p, height, block), o, k)
    decreases |block|
  {
    if block != [] {
      RecordOk(p, height, block[0]);
      SpentByKept(Record(p, height, block[0]), height, block[1..], o, k);
    }
  }

  lemma SweepSettled(s: State, t: State, p: Past, p': Past, cs: seq<Change>)
    requires Inv(s, p) && Good(Raised(s), cs) && Apply(Raised(s), cs) == Some(t) && Track(t, p')
    requires forall o, k :: SpentBy(p, o, k) ==> SpentBy(p', o, k)
    ensures SweepTrue(Settle(s, t), p')
  {
    ApplyKeepsFrame(Raised(s), cs);
    SweptStays(Raised(s), cs);
    if t.closing.Some? {
      var c := t.closing.value;
      AllSpentMeansSpent(c, p'.spentBy.Keys);
      if IsClosingSwept(t) && !IsClosingSwept(s) {
        forall o | Tracks(c, o) ensures SpentBy(p', o, t.height) { assert o in p'.spentBy; }
      }
      if IsOurOutputSwept(t) && !IsOurOutputSwept(s) {
        forall o | c.IncludesOurOutput(o) ensures SpentBy(p', o, t.height) { assert o in p'.spentBy; }
      }
    }
  }

  /** Adding the chain's next block never panics and keeps the invariant. */
  lemma AddKeepsInv(provider: Provider, s: State, p: Past, hash: BlockHash, block: Block)
    requires Inv(s, p) && NextBlock(provider, s, p, block)
    ensures AddBlock(provider, s, hash, block).Some?
    ensures Inv(AddBlock(provider, s, hash, block).value.state, RecordBlock(p, s.height + 1, block))
    ensures AddBlock(provider, s, hash, block).value.state.height == s.height + 1
  {
    TrackRaised(s, p);
    AddParts(provider, s, Raised(s), s.height + 1, p, hash, block);
    var cs := BlockChanges(provider, s, block).value;
    var t := Apply(Raised(s), cs).value;
    AddBlockEndState(s, cs);
    ApplyKeepsFrame(Raised(s), cs);
    SettledInv(s, t, p, block, cs);
  }

  lemma SettledInv(s: State, t: State, p: Past, block: Block, cs: seq<Change>)
    requires Inv(s, p) && ValidBlock(p, s.height + 1, block) && Good(Raised(s), cs) && Apply(Raised(s), cs) == Some(t)
    requires Track(t, RecordBlock(p, s.height + 1, block))
    ensures Inv(Settle(s, t), RecordBlock(p, s.height + 1, block))
  {
    var p' := RecordBlock(p, s.height + 1, block);
    forall o, k | SpentBy(p, o, k) ensures SpentBy(p', o, k) {
      SpentByKept(p, s.height + 1, block, o, k);
    }
    SweepSettled(s, t, p, p', cs);
    TrackSettled(s, t, p');
  }

  lemma TrackSettled(s: State, t: State, p: Past)
    requires Track(t, p)
    ensures Track(Settle(s, t), p)
  {
  }

  // ---------------------------------------------------------------------------
  // Removing the block that was added last
  // ---------------------------------------------------------------------------

  lemma {:induction false} UndoKeepsSwept(s: State, cs: seq<Change>, a: Option<nat>, b: Option<nat>)
    ensures Undo(s.(closingSweptHeight := a, ourSweptHeight := b), cs) ==
            if Undo(s, cs).None? then None
            else Some(Undo(s, cs).value.(closingSweptHeight := a, ourSweptHeight := b))
    decreases |cs|
  {
    if cs != [] {
      var s' := s.(closingSweptHeight := a, ourSweptHeight := b);
      BackwardKeepsSwept(s, cs[0], a, b);
      if Backward(s, cs[0]).Some? { UndoKeepsSwept(Backward(s, cs[0]).value, cs[1..], a, b); }
    }
  }

  lemma BackwardKeepsSwept(s: State, c: Change, a: Option<nat>, b: Option<nat>)
    ensures Backward(s.(closingSweptHeight := a, ourSweptHeight := b), c) ==
            if Backward(s, c).None? then None
            else Some(Backward(s, c).value.(closingSweptHeight := a, ourSweptHeight := b))
  {
  }

  lemma RemoveBlockParts(provider: Provider, s: State, p: Past, hash: BlockHash, block: Block)
    requires Inv(s, p) && NextBlock(provider, s, p, block)
    ensures AddBlock(provider, s, hash, block).Some? && BlockChanges(provider, s, block).Some?
    ensures RemoveBlock(provider, AddBlock(provider, s, hash, block).value.state, hash, block) ==
            RemoveBlockEnd(AddBlock(provider, s, hash, block).value.state, BlockChanges(provider, s, block).value)
  {
    TrackRaised(s, p);
    AddParts(provider, s, Raised(s), s.height + 1, p, hash, block);
    var t := Raised(s);
    var cs := BlockChanges(provider, s, block).value;
    var last := Apply(t, cs).value;
    AddBlockEndState(s, cs);
    var a := Settle(s, last);
    SecondDecoding(provider, t, p, block, last);
    AgreeBlockChanges(provider, a, last, block);
    PushTransactionsChanges(provider, a, hash, block);
    ApplyKeepsFrame(t, cs);
    assert a.(sawBlock := true) == a;
  }

  lemma DoubleSpendIsOlder(s: State, p: Past)
    requires Track(s, p)
    ensures Raised(s).doubleSpentHeight != Some(Raised(s).height)
  {
  }

  lemma SpenderKept(p: Past, height: nat, block: Block, o: OutPoint)
    requires PastOk(p, height) && ValidBlock(p, height, block) && o in p.spentBy
    ensures o in RecordBlock(p, height, block).spentBy && RecordBlock(p, height, block).spentBy[o] == p.spentBy[o]
    decreases |block|
  {
    if block != [] {
      RecordOk(p, height, block[0]);
      SpenderKept(Record(p, height, block[0]), height, block[1..], o);
    }
  }

  lemma {:induction false} ConfirmationStays(s: State, cs: seq<Change>)
    requires Apply(s, cs).Some? && (s.fundingOutpoint.Some? || ConfirmsFunding(cs))
    ensures Apply(s, cs).value.fundingOutpoint.Some?
    decreases |cs|
  {
    if cs != [] {
      ExistsTail(cs);
      ConfirmationStays(Forward(s, cs[0]).value, cs[1..]);
    }
  }

  /** A double-spent funding can never confirm: its inputs are gone. */
  lemma NoConfirmationAfterDoubleSpend(s: State, p: Past, block: Block, cs: seq<Change>)
    requires Track(s, p) && ValidBlock(p, s.height, block) && ConfirmsFunding(cs) && Apply(s, cs).Some?
    requires Track(Apply(s, cs).value, RecordBlock(p, s.height, block))
    ensures s.doubleSpentHeight.None?
  {
    ConfirmationStays(s, cs);
    ApplyKeepsFrame(s, cs);
    if s.doubleSpentHeight.Some? {
      var o :| o in s.fundingInputs && SpentAt(p, o, s.doubleSpentHeight.value) && p.spentBy[o] !in s.fundingTxids;
      SpenderKept(p, s.height, block, o);
      assert false;
    }
  }

  /** Removing the block just added panics exactly when a change of the block builds on
      another one; otherwise it gives the earlier state back, up to having seen a block. */
  lemma ReorgUndo(provider: Provider, s: State, p: Past, hash: BlockHash, block: Block)
    requires Inv(s, p) && NextBlock(provider, s, p, block)
    ensures AddBlock(provider, s, hash, block).Some? && BlockChanges(provider, s, block).Some?
    ensures
      var cs := BlockChanges(provider, s, block).value;
      var back := RemoveBlock(provider, AddBlock(provider, s, hash, block).value.state, hash, block);
      && (back.Some? <==> Independent(cs))
      && (back.Some? ==> back.value.state == s.(sawBlock := true))
  {
    TrackRaised(s, p);
    AddParts(provider, s, Raised(s), s.height + 1, p, hash, block);
    RemoveBlockParts(provider, s, p, hash, block);
    var cs := BlockChanges(provider, s, block).value;
    AddBlockEndState(s, cs);
    UndoOfBlock(s, p, block, cs);
  }

  lemma UndoOfBlock(s: State, p: Past, block: Block, cs: seq<Change>)
    requires Inv(s, p) && ValidBlock(p, s.height + 1, block) && Good(Raised(s), cs) && Apply(Raised(s), cs).Some?
    requires Track(Apply(Raised(s), cs).value, RecordBlock(p, s.height + 1, block))
    ensures
      var back := RemoveBlockEnd(Settle(s, Apply(Raised(s), cs).value), cs);
      && (back.Some? <==> Independent(cs))
      && (back.Some? ==> back.value.state == s.(sawBlock := true))
  {
    DoubleSpendIsOlder(s, p);
    TrackRaised(s, p);
    UndoRestores(Raised(s), p, s.height + 1, block, cs);
    RemoveEndState(s, p, cs);
  }

  lemma UndoRestores(t: State, p: Past, height: nat, block: Block, cs: seq<Change>)
    requires Track(t, p) && t.doubleSpentHeight != Some(t.height) && height == t.height
    requires ValidBlock(p, height, block) && Good(t, cs) && Apply(t, cs).Some?
    requires Track(Apply(t, cs).value, RecordBlock(p, height, block))
    ensures
      var back := Undo(Apply(t, cs).value, cs);
      (back.Some? <==> Independent(cs)) && (back.Some? ==> back.value == t)
  {
    UndoExact(t, cs);
    if ConfirmsFunding(cs) {
      NoConfirmationAfterDoubleSpend(t, p, block, cs);
    }
  }

  lemma RemoveEndState(s: State, p: Past, cs: seq<Change>)
    requires Inv(s, p) && Good(Raised(s), cs) && Apply(Raised(s), cs).Some?
    ensures
      var last := Apply(Raised(s), cs).value;
      var back := RemoveBlockEnd(Settle(s, last), cs);
      && (back.Some? <==> Undo(last, cs).Some?)
      && (back.Some? && back.value.state == s.(sawBlock := true) <==> Undo(last, cs) == Some(Raised(s)))
  {
    var last := Apply(Raised(s), cs).value;
    var a := Settle(s, last);
    UndoKeepsSwept(last, cs, a.closingSweptHeight, a.ourSweptHeight);
    BackwardAllState(Effect(a, [], []), cs);
    ApplyKeepsFrame(Raised(s), cs);
    SweptStays(Raised(s), cs);
    if Undo(last, cs).Some? {
      UndoKeepsHeight(last, cs);
      UndoSettled(s, last, Undo(last, cs).value, p);
    }
  }

  lemma {:induction false} UndoKeepsHeight(s: State, cs: seq<Change>)
    requires Undo(s, cs).Some?
    ensures Undo(s, cs).value.height == s.height
    ensures Undo(s, cs).value.closingSweptHeight == s.closingSweptHeight
    ensures Undo(s, cs).value.ourSweptHeight == s.ourSweptHeight
    decreases |cs|
  {
    if cs != [] { UndoKeepsHeight(Backward(s, cs[0]).value, cs[1..]); }
  }

  /** The swept heights and the height after an undo from `Settle(s, last)` to `u`. */
  lemma UndoSettled(s: State, last: State, u: State, p: Past)
    requires Inv(s, p) && last.height == s.height + 1 && u.height == last.height
    requires last.closingSweptHeight == s.closingSweptHeight && last.ourSweptHeight == s.ourSweptHeight
    requires u.closingSweptHeight == last.closingSweptHeight && u.ourSweptHeight == last.ourSweptHeight
    requires IsClosingSwept(s) ==> last.closing == s.closing
    requires IsOurOutputSwept(s) ==> IsOurOutputSwept(last)
    ensures
      var a := Settle(s, last);
      var t := u.(closingSweptHeight := a.closingSweptHeight, ourSweptHeight := a.ourSweptHeight);
      var r := t.(closingSweptHeight := if IsClosingSwept(a) && !IsClosingSwept(t) then None else t.closingSweptHeight,
                  ourSweptHeight := if IsOurOutputSwept(a) && !IsOurOutputSwept(t) then None else t.ourSweptHeight,
                  height := t.height - 1);
      r == s.(sawBlock := true) <==> u == Raised(s)
  {
  }
}
