/**
 Whole runs of one monitor: any interleaving of adding the chain's next block, removing
 the last block of the chain and hearing that the node forgot the channel
 (`MonitorLifoRun`), and what the rest of the signer reads off its state.
 */
module MonitorRuns {
  import opened Options
  import opened Chain
  import opened ClosingTruth
  import opened MonitorState
  import opened MonitorDecode
  import opened MonitorBlocks
  import opened MonitorReplay
  import opened MonitorTruth
  import opened MonitorReorg
  import opened MonitorUnseen
  import opened UndoStack

  /** A block with its hash, and the past with the height it reaches. */
  datatype HashedBlock = HashedBlock(hash: BlockHash, block: Block)
  datatype History = History(past: Past, height: nat)

  /** The condition of `ReorgUndo`: no change of the block builds on another one. */
  ghost predicate Undoable(provider: Provider, s: State, block: Block) {
    var cs := BlockChanges(provider, s, block);
    cs.Some? && Independent(cs.value)
  }

  // ---------------------------------------------------------------------------
  // The two `saw` flags do not take part
  // ---------------------------------------------------------------------------

  function Flagged(s: State, block: bool, forget: bool): State {
    s.(sawBlock := block, sawForget := forget)
  }

  /** Equal but for the two flags. */
  predicate Same(s: State, t: State) {
    Flagged(s, true, true) == Flagged(t, true, true)
  }

  lemma SameForward(s: State, t: State, c: Change)
    requires Same(s, t)
    ensures Forward(s, c).Some? == Forward(t, c).Some?
    ensures Forward(s, c).Some? ==> Same(Forward(s, c).value, Forward(t, c).value)
    ensures Backward(s, c).Some? == Backward(t, c).Some?
    ensures Backward(s, c).Some? ==> Same(Backward(s, c).value, Backward(t, c).value)
  {
  }

  lemma {:induction false} SameApply(s: State, t: State, cs: seq<Change>)
    requires Same(s, t)
    ensures Apply(s, cs).Some? == Apply(t, cs).Some?
    ensures Apply(s, cs).Some? ==> Same(Apply(s, cs).value, Apply(t, cs).value)
    decreases |cs|
  {
    if cs != [] {
      SameForward(s, t, cs[0]);
      if Forward(s, cs[0]).Some? { SameApply(Forward(s, cs[0]).value, Forward(t, cs[0]).value, cs[1..]); }
    }
  }

  lemma {:induction false} SameUndo(s: State, t: State, cs: seq<Change>)
    requires Same(s, t)
    ensures Undo(s, cs).Some? == Undo(t, cs).Some?
    ensures Undo(s, cs).Some? ==> Same(Undo(s, cs).value, Undo(t, cs).value)
    decreases |cs|
  {
    if cs != [] {
      SameForward(s, t, cs[0]);
      if Backward(s, cs[0]).Some? { SameUndo(Backward(s, cs[0]).value, Backward(t, cs[0]).value, cs[1..]); }
    }
  }

  lemma SameAdd(provider: Provider, s: State, t: State, hash: BlockHash, block: Block)
    requires Same(s, t)
    ensures AddBlock(provider, s, hash, block).Some? == AddBlock(provider, t, hash, block).Some?
    ensures AddBlock(provider, s, hash, block).Some? ==>
              Same(AddBlock(provider, s, hash, block).value.state, AddBlock(provider, t, hash, block).value.state)
  {
    AgreeBlockChanges(provider, s, t, block);
    AddBlockIsDecodeThenCommit(provider, s, hash, block);
    AddBlockIsDecodeThenCommit(provider, t, hash, block);
    if BlockChanges(provider, s, block).Some? {
      var cs := BlockChanges(provider, s, block).value;
      SameApply(Raised(s), Raised(t), cs);
      ForwardAllState(Effect(Raised(s), [], []), cs);
      ForwardAllState(Effect(Raised(t), [], []), cs);
    }
  }

  lemma SameRemove(provider: Provider, s: State, t: State, hash: BlockHash, block: Block)
    requires Same(s, t)
    ensures RemoveBlock(provider, s, hash, block).Some? == RemoveBlock(provider, t, hash, block).Some?
    ensures RemoveBlock(provider, s, hash, block).Some? ==>
              Same(RemoveBlock(provider, s, hash, block).value.state, RemoveBlock(provider, t, hash, block).value.state)
  {
    AgreeBlockChanges(provider, s, t, block);
    PushTransactionsChanges(provider, s, hash, block);
    PushTransactionsChanges(provider, t, hash, block);
    if BlockChanges(provider, s, block).Some? {
      SameRemoveEnd(s.(sawBlock := true), t.(sawBlock := true), BlockChanges(provider, s, block).value);
    }
  }

  lemma SameRemoveEnd(s: State, t: State, cs: seq<Change>)
    requires Same(s, t)
    ensures RemoveBlockEnd(s, cs).Some? == RemoveBlockEnd(t, cs).Some?
    ensures RemoveBlockEnd(s, cs).Some? ==>
              Same(RemoveBlockEnd(s, cs).value.state, RemoveBlockEnd(t, cs).value.state)
  {
    SameUndo(s, t, cs);
    BackwardAllState(Effect(s, [], []), cs);
    BackwardAllState(Effect(t, [], []), cs);
  }

  lemma SameUndoable(provider: Provider, s: State, t: State, p: Past, block: Block)
    requires Same(s, t)
    ensures Undoable(provider, s, block) == Undoable(provider, t, block)
    ensures NextBlock(provider, s, p, block) == NextBlock(provider, t, p, block)
  {
    AgreeBlockChanges(provider, s, t, block);
  }

  // ---------------------------------------------------------------------------
  // The run theorem
  // ---------------------------------------------------------------------------

  function AddState(provider: Provider, s: State, b: HashedBlock): Option<State> {
    var e := AddBlock(provider, s, b.hash, b.block);
    if e.None? then None else Some(e.value.state)
  }

  function RemoveState(provider: Provider, s: State, b: HashedBlock): Option<State> {
    var e := RemoveBlock(provider, s, b.hash, b.block);
    if e.None? then None else Some(e.value.state)
  }

  function RecordHashed(h: History, b: HashedBlock): History {
    History(RecordBlock(h.past, h.height + 1, b.block), h.height + 1)
  }

  ghost predicate InvAt(s: State, h: History) {
    Inv(s, h.past) && s.height == h.height
  }

  ghost predicate LegalBlock(provider: Provider, s: State, h: History, b: HashedBlock) {
    NextBlock(provider, s, h.past, b.block)
  }

  /** The block extends the chain. */
  ghost predicate ChainNext(h: History, b: HashedBlock) {
    PastOk(h.past, h.height) && ValidBlock(h.past, h.height + 1, b.block)
  }

  /** The monitor's funding is neither on the chain nor spent there. */
  ghost predicate NotBegun(provider: Provider, s: State, h: History) {
    Unfunded(s) && Untouched(s, h.past) && ProviderOk(provider)
  }

  /** The monitor as a system whose last block can be removed; hearing that the node forgot
      the channel only touches a flag. */
  ghost function MonitorSystem(provider: Provider): System<State, HashedBlock, History> {
    System(
      (s: State, b: HashedBlock) => AddState(provider, s, b),
      (s: State, b: HashedBlock) => RemoveState(provider, s, b),
      (s: State) => s.(sawForget := true),
      (s: State) => Flagged(s, true, true),
      (h: History, b: HashedBlock) => RecordHashed(h, b),
      (s: State, h: History) => InvAt(s, h),
      (s: State, h: History, b: HashedBlock) => LegalBlock(provider, s, h, b),
      (s: State, b: HashedBlock) => Undoable(provider, s, b.block),
      (h: History, b: HashedBlock) => ChainNext(h, b),
      (s: State, h: History) => NotBegun(provider, s, h),
      (s: State) => Lowered(s))
  }

  lemma AddThenRemove(provider: Provider, s: State, h: History, b: HashedBlock)
    requires InvAt(s, h) && LegalBlock(provider, s, h, b)
    ensures AddState(provider, s, b).Some? && InvAt(AddState(provider, s, b).value, RecordHashed(h, b))
    ensures
      var back := RemoveState(provider, AddState(provider, s, b).value, b);
      (back.Some? <==> Undoable(provider, s, b.block)) && (back.Some? ==> back.value == s.(sawBlock := true))
  {
    AddKeepsInv(provider, s, h.past, b.hash, b.block);
    ReorgUndo(provider, s, h.past, b.hash, b.block);
  }

  lemma MonitorUndoes(provider: Provider, s: State, h: History, b: HashedBlock)
    requires InvAt(s, h) && LegalBlock(provider, s, h, b)
    ensures Undoes(MonitorSystem(provider), s, h, b)
  {
    AddThenRemove(provider, s, h, b);
    var sys := MonitorSystem(provider);
    assert sys.add(s, b) == AddState(provider, s, b);
    assert sys.remove(sys.add(s, b).value, b) == RemoveState(provider, AddState(provider, s, b).value, b);
    assert sys.inv(sys.add(s, b).value, sys.record(h, b)) == InvAt(AddState(provider, s, b).value, RecordHashed(h, b));
  }

  lemma MonitorRespectsAdd(provider: Provider)
    ensures RespectsAdd(MonitorSystem(provider))
  {
    var sys := MonitorSystem(provider);
    forall s, t, b | UndoStack.Same(sys, s, t) ensures SameOutcome(sys, sys.add(s, b), sys.add(t, b)) {
      SameAddOutcome(provider, s, t, b);
    }
  }

  lemma MonitorRespectsRemove(provider: Provider)
    ensures RespectsRemove(MonitorSystem(provider))
  {
    var sys := MonitorSystem(provider);
    forall s, t, b | UndoStack.Same(sys, s, t) ensures SameOutcome(sys, sys.remove(s, b), sys.remove(t, b)) {
      SameRemoveOutcome(provider, s, t, b);
    }
  }

  lemma SameAddOutcome(provider: Provider, s: State, t: State, b: HashedBlock)
    requires Same(s, t)
    ensures SameOutcome(MonitorSystem(provider), AddState(provider, s, b), AddState(provider, t, b))
  {
    SameAdd(provider, s, t, b.hash, b.block);
  }

  lemma SameRemoveOutcome(provider: Provider, s: State, t: State, b: HashedBlock)
    requires Same(s, t)
    ensures SameOutcome(MonitorSystem(provider), RemoveState(provider, s, b), RemoveState(provider, t, b))
  {
    SameRemove(provider, s, t, b.hash, b.block);
  }

  lemma MonitorRespectsInv(provider: Provider)
    ensures RespectsInv(MonitorSystem(provider))
  {
    var sys := MonitorSystem(provider);
    forall s, t, h | UndoStack.Same(sys, s, t) && sys.inv(s, h) ensures sys.inv(t, h) {
    }
  }

  lemma MonitorRespectsLegal(provider: Provider)
    ensures RespectsLegal(MonitorSystem(provider))
  {
    var sys := MonitorSystem(provider);
    forall s, t, h, b | UndoStack.Same(sys, s, t) && sys.legal(s, h, b) ensures sys.legal(t, h, b) {
      SameUndoable(provider, s, t, h.past, b.block);
    }
  }

  lemma MonitorSound(provider: Provider)
    ensures Sound(MonitorSystem(provider))
  {
    var sys := MonitorSystem(provider);
    MonitorRespectsAdd(provider);
    MonitorRespectsRemove(provider);
    MonitorRespectsInv(provider);
    MonitorRespectsLegal(provider);
    forall s, h, b | sys.inv(s, h) && sys.legal(s, h, b) ensures Undoes(sys, s, h, b) {
      MonitorUndoes(provider, s, h, b);
    }
  }

  lemma MonitorRewound(provider: Provider, s: State, h: History, b: HashedBlock)
    requires ChainNext(h, b) && NotBegun(provider, s, RecordHashed(h, b)) && InvAt(s, RecordHashed(h, b))
    ensures
      var t := Lowered(s);
      && NotBegun(provider, t, h) && InvAt(t, h) && LegalBlock(provider, t, h, b) && Undoable(provider, t, b.block)
      && AddState(provider, t, b).Some? && Same(AddState(provider, t, b).value, s)
  {
    Rewinds(provider, s, Lowered(s), h.past, RecordHashed(h, b).past, b.hash, b.block);
  }

  /** A monitor whose funding has not confirmed might as well have followed the block before its set-up. */
  lemma MonitorRewindable(provider: Provider)
    ensures Rewindable(MonitorSystem(provider))
  {
    var sys := MonitorSystem(provider);
    forall s, h, b | sys.next(h, b) && sys.pristine(s, sys.record(h, b)) && sys.inv(s, sys.record(h, b))
      ensures Rewound(sys, s, h, b)
    {
      MonitorRewound(provider, s, h, b);
    }
  }

  /** Every run of the monitor that adds the chain's next blocks, removes last blocks and
      hears `forget`, in any order and number: it panics exactly when it removes a block one
      of whose changes builds on another; if it does not, the state is, up to the two `saw`
      flags, the one obtained by adding only the blocks still on the chain, and the truth
      and sweep invariants hold against exactly those blocks. */
  lemma MonitorLifoRun(provider: Provider, s: State, p: Past, steps: seq<Step<HashedBlock>>)
    requires Inv(s, p) && LegalRun(MonitorSystem(provider), History(p, s.height), Run(s, []), steps)
    ensures
      var sys := MonitorSystem(provider);
      var r := DoAll(sys, Run(s, []), steps);
      && (r.Some? <==> RemovesUndoable(sys, s, Run(s, []), steps))
      && (r.Some? ==>
            && Built(sys, s, r.value.stack).Some?
            && Same(r.value.state, Built(sys, s, r.value.stack).value)
            && Inv(r.value.state, Recorded(sys, History(p, s.height), r.value.stack).past)
            && (r.value.stack == [] ==> Same(r.value.state, s)))
  {
    var sys := MonitorSystem(provider);
    MonitorSound(provider);
    assert Consistent(sys, s, History(p, s.height), Run(s, []));
    LifoRun(sys, s, History(p, s.height), Run(s, []), steps);
  }

  // ---------------------------------------------------------------------------
  // What the rest of the signer reads off the state
  // ---------------------------------------------------------------------------

  const MIN_DEPTH := 100

  /** The depth used for pruning: saturating, zero for an event that did not happen. */
  function DepthOf(s: State, other: Option<nat>): nat {
    if other.Some? && other.value <= s.height + 1 then s.height + 1 - other.value else 0
  }

  predicate DeepEnough(s: State, other: Option<nat>) {
    DepthOf(s, other) >= MIN_DEPTH && s.sawForget
  }

  predicate IsDone(s: State) {
    DeepEnough(s, s.doubleSpentHeight) || DeepEnough(s, s.mutualHeight) || DeepEnough(s, s.closingSweptHeight)
  }

  datatype ChainState = ChainState(
    currentHeight: nat, fundingDepth: nat, doubleSpentDepth: nat, closingDepth: nat, splicePending: bool)

  /** `height + 1 - h`, which panics when it would be negative. */
  function CheckedDepth(s: State, other: Option<nat>): Option<nat> {
    if other.None? then Some(0)
    else if other.value <= s.height + 1 then Some(s.height + 1 - other.value)
    else None
  }

  function AsChainState(s: State): Option<ChainState> {
    var funding := CheckedDepth(s, s.fundingHeight);
    var double := CheckedDepth(s, s.doubleSpentHeight);
    var closing := CheckedDepth(s, if s.mutualHeight.Some? then s.mutualHeight else s.unilateralHeight);
    if funding.None? || double.None? || closing.None? then None
    else Some(ChainState(s.height, funding.value, double.value, closing.value, false))
  }

  /** The confirmations of a transaction in the past, zero if it has none. */
  function Confirmations(p: Past, height: nat, txid: Txid): nat {
    if txid in p.at && p.at[txid] <= height then height + 1 - p.at[txid] else 0
  }

  /** A funding input was spent by a transaction other than the funding. */
  ghost predicate DoubleSpent(s: State, p: Past, o: OutPoint) {
    o in s.fundingInputs && o in p.spentBy && p.spentBy[o] !in s.fundingTxids
  }

  /** The depths handed to validation never underflow, and are the true numbers of
      confirmations of the funding, of the transaction that spent it alone, and of a
      double spend; a depth is zero exactly when there is no such transaction. */
  lemma {:induction false} ChainStateTrue(s: State, p: Past)
    requires Inv(s, p)
    ensures AsChainState(s).Some?
    ensures
      var c := AsChainState(s).value;
      && c.currentHeight == s.height
      && c.fundingDepth == (if s.fundingTxids == [] then 0 else Confirmations(p, s.height, s.fundingTxids[0]))
      && (c.closingDepth > 0 <==> SpentAlone(s, p))
      && (c.closingDepth > 0 ==> c.closingDepth == Confirmations(p, s.height, p.spentBy[s.fundingOutpoint.value]))
      && (c.doubleSpentDepth > 0 <==> exists o :: DoubleSpent(s, p, o))
      && (c.doubleSpentDepth > 0 ==>
            exists o :: DoubleSpent(s, p, o) && c.doubleSpentDepth == Confirmations(p, s.height, p.spentBy[o]))
  {
    if s.doubleSpentHeight.Some? {
      var o :| o in s.fundingInputs && SpentAt(p, o, s.doubleSpentHeight.value) && p.spentBy[o] !in s.fundingTxids;
      assert Confirmations(p, s.height, p.spentBy[o]) == s.height + 1 - s.doubleSpentHeight.value;
      assert DoubleSpent(s, p, o);
    }
  }

  /** The node forgot the channel and, with at least 100 confirmations, either a funding
      input was double spent, or the funding was spent by a mutual close, or a unilateral
      close had every tracked output spent. */
  ghost predicate Resolved(s: State, p: Past) {
    s.sawForget &&
    (
      || (exists o :: DoubleSpent(s, p, o) && Confirmations(p, s.height, p.spentBy[o]) >= MIN_DEPTH)
      || (s.mutualHeight.Some? && SpentAlone(s, p)
          && Confirmations(p, s.height, p.spentBy[s.fundingOutpoint.value]) >= MIN_DEPTH)
      || (s.closing.Some?
          && forall o :: Tracks(s.closing.value, o) ==>
               o in p.spentBy && Confirmations(p, s.height, p.spentBy[o]) >= MIN_DEPTH)
    )
  }

  /** A monitor is done only when its channel is resolved on the chain. */
  lemma {:induction false} DoneIsSafe(s: State, p: Past)
    requires Inv(s, p) && IsDone(s)
    ensures Resolved(s, p)
  {
    if DeepEnough(s, s.doubleSpentHeight) {
      var o :| o in s.fundingInputs && SpentAt(p, o, s.doubleSpentHeight.value) && p.spentBy[o] !in s.fundingTxids;
      assert DoubleSpent(s, p, o) && Confirmations(p, s.height, p.spentBy[o]) >= MIN_DEPTH;
    } else if !DeepEnough(s, s.mutualHeight) {
      forall o | Tracks(s.closing.value, o)
        ensures o in p.spentBy && Confirmations(p, s.height, p.spentBy[o]) >= MIN_DEPTH
      {
        assert SpentBy(p, o, s.closingSweptHeight.value);
      }
    }
  }
}
