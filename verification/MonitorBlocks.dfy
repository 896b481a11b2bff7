/**
 Whole blocks. A block arrives either compact (its transactions at once) or
 streamed (its events in arbitrary pieces), is decoded against the current state
 and is then committed or, in a reorg, removed.
 */
module MonitorBlocks {
  import opened Options
  import opened Chain
  import opened MonitorState
  import opened MonitorDecode

  /** A monitor: its committed state and the decode in progress, if any. */
  datatype Monitor = Monitor(state: State, decode: Option<Decode>)

  /** The changes of a block read against `s`; `None` if the decoder panics. */
  function BlockChanges(provider: Provider, s: State, block: Block): Option<seq<Change>>
    decreases |block|
  {
    if block == [] then Some([]) else
      var cs := TxChanges(provider, s, block[0]);
      if !Decodable(s, block[0]) || Apply(s, cs).None? then None else
        var rest := BlockChanges(provider, Apply(s, cs).value, block[1..]);
        if rest.None? then None else Some(cs + rest.value)
  }

  /** Compact proof transactions, pushed through the listener as a streamed block. */
  function PushTransactions(provider: Provider, s: State, hash: BlockHash, block: Block): Option<Listener> {
    Listen(provider, Listener(NewDecode(s.(sawBlock := true), Some(hash)), true), BlockEvents(block))
  }

  function AddBlock(provider: Provider, s: State, hash: BlockHash, block: Block): Option<Effect> {
    var l := PushTransactions(provider, s, hash, block);
    if l.None? || l.value.decode.blockHash != Some(hash) then None
    else AddBlockEnd(s.(sawBlock := true), l.value.decode.changes)
  }

  function RemoveBlock(provider: Provider, s: State, hash: BlockHash, block: Block): Option<Effect> {
    var l := PushTransactions(provider, s, hash, block);
    if l.None? || l.value.decode.blockHash != Some(hash) then None
    else RemoveBlockEnd(s.(sawBlock := true), l.value.decode.changes)
  }

  /** One `on_push` call, with the events it delivers. */
  function OnPush(provider: Provider, m: Monitor, es: seq<Event>): Option<Monitor> {
    var d := if m.decode.Some? then m.decode.value else NewDecode(m.state, None);
    var l := Listen(provider, Listener(d, m.state.sawBlock), es);
    if l.None? then None
    else Some(Monitor(m.state.(sawBlock := l.value.sawBlock), Some(l.value.decode)))
  }

  function OnPushes(provider: Provider, m: Monitor, chunks: seq<seq<Event>>): Option<Monitor>
    decreases |chunks|
  {
    if chunks == [] then Some(m) else
      var m' := OnPush(provider, m, chunks[0]);
      if m'.None? then None else OnPushes(provider, m'.value, chunks[1..])
  }

  function Finish(m: Monitor, e: Option<Effect>): Option<(Monitor, seq<OutPoint>, seq<OutPoint>)> {
    if e.None? then None else Some((Monitor(e.value.state, None), e.value.adds, e.value.removes))
  }

  function AddStreamedBlockEnd(m: Monitor, hash: BlockHash): Option<(Monitor, seq<OutPoint>, seq<OutPoint>)> {
    if !m.state.sawBlock then Some((Monitor(m.state, None), [], []))
    else if m.decode.None? || m.decode.value.blockHash != Some(hash) then None
    else Finish(m, AddBlockEnd(m.state, m.decode.value.changes))
  }

  function RemoveStreamedBlockEnd(m: Monitor, hash: BlockHash): Option<(Monitor, seq<OutPoint>, seq<OutPoint>)> {
    if !m.state.sawBlock then Some((Monitor(m.state, None), [], []))
    else if m.decode.None? || m.decode.value.blockHash != Some(hash) then None
    else Finish(m, RemoveBlockEnd(m.state, m.decode.value.changes))
  }

  function Flatten(chunks: seq<seq<Event>>): seq<Event> {
    if chunks == [] then [] else chunks[0] + Flatten(chunks[1..])
  }

  /** The event stream of one block. */
  function BlockStream(hash: BlockHash, block: Block): seq<Event> {
    [BlockStart(hash)] + BlockEvents(block) + [BlockEnd]
  }

  // ---------------------------------------------------------------------------
  // Decoding depends only on what the shadow tracks
  // ---------------------------------------------------------------------------

  /** Agreement on everything decoding reads: all but heights and the two `saw` flags. */
  predicate Agree(s: State, t: State) {
    && s.fundingTxids == t.fundingTxids
    && s.fundingVouts == t.fundingVouts
    && s.fundingInputs == t.fundingInputs
    && s.fundingOutpoint == t.fundingOutpoint
    && s.closing == t.closing
  }

  lemma AgreeForward(s: State, t: State, c: Change)
    requires Agree(s, t)
    ensures Forward(s, c).Some? == Forward(t, c).Some?
    ensures Forward(s, c).Some? ==> Agree(Forward(s, c).value, Forward(t, c).value)
  {
  }

  lemma {:induction false} AgreeApply(s: State, t: State, cs: seq<Change>)
    requires Agree(s, t)
    ensures Apply(s, cs).Some? == Apply(t, cs).Some?
    ensures Apply(s, cs).Some? ==> Agree(Apply(s, cs).value, Apply(t, cs).value)
    decreases |cs|
  {
    if cs != [] {
      AgreeForward(s, t, cs[0]);
      if Forward(s, cs[0]).Some? {
        AgreeApply(Forward(s, cs[0]).value, Forward(t, cs[0]).value, cs[1..]);
      }
    }
  }

  lemma {:induction false} AgreeInputs(s: State, t: State, inputs: seq<OutPoint>)
    requires Agree(s, t)
    ensures InputChanges(s, inputs) == InputChanges(t, inputs)
    ensures HtlcSpends(s, inputs) == HtlcSpends(t, inputs)
    decreases |inputs|
  {
    if inputs != [] {
      AgreeInputs(s, t, inputs[..|inputs| - 1]);
    }
  }

  lemma {:induction false} AgreeBlockChanges(provider: Provider, s: State, t: State, block: Block)
    requires Agree(s, t)
    ensures BlockChanges(provider, s, block) == BlockChanges(provider, t, block)
    decreases |block|
  {
    if block != [] {
      AgreeInputs(s, t, block[0].inputs);
      var cs := TxChanges(provider, s, block[0]);
      assert cs == TxChanges(provider, t, block[0]);
      AgreeApply(s, t, cs);
      if Apply(s, cs).Some? {
        AgreeBlockChanges(provider, Apply(s, cs).value, Apply(t, cs).value, block[1..]);
      }
    }
  }

  lemma {:induction false} BlockChangesApply(provider: Provider, s: State, block: Block)
    requires BlockChanges(provider, s, block).Some?
    ensures Apply(s, BlockChanges(provider, s, block).value).Some?
    decreases |block|
  {
    if block != [] {
      var cs := TxChanges(provider, s, block[0]);
      var s' := Apply(s, cs).value;
      BlockChangesApply(provider, s', block[1..]);
      ApplyAppend(s, cs, BlockChanges(provider, s', block[1..]).value);
    }
  }

  /** `cs` leads from decode `d` to decode `d'`. */
  ghost predicate Leads(d: Decode, cs: seq<Change>, d': Decode) {
    && d'.changes == d.changes + cs
    && Apply(d.shadow, cs) == Some(d'.shadow)
    && d'.blockHash == d.blockHash
  }

  lemma LeadsTrans(d0: Decode, xs: seq<Change>, d1: Decode, ys: seq<Change>, d2: Decode)
    requires Leads(d0, xs, d1) && Leads(d1, ys, d2)
    ensures Leads(d0, xs + ys, d2)
  {
    ApplyAppend(d0.shadow, xs, ys);
    assert d0.changes + xs + ys == d0.changes + (xs + ys);
  }

  /** A decode over a block, in terms of the block's changes. */
  lemma {:induction false} DecodeBlockLeads(provider: Provider, d: Decode, block: Block)
    ensures DecodeBlock(provider, d, block).Some? == BlockChanges(provider, d.shadow, block).Some?
    ensures DecodeBlock(provider, d, block).Some? ==>
              Leads(d, BlockChanges(provider, d.shadow, block).value, DecodeBlock(provider, d, block).value)
    decreases |block|
  {
    if block == [] {
      assert d.changes + [] == d.changes;
    } else {
      var cs := TxChanges(provider, d.shadow, block[0]);
      var d1 := DecodeTx(provider, d, block[0]);
      if d1.Some? {
        DecodeBlockLeads(provider, d1.value, block[1..]);
        var d2 := DecodeBlock(provider, d1.value, block[1..]);
        if d2.Some? {
          LeadsTrans(d, cs, d1.value, BlockChanges(provider, d1.value.shadow, block[1..]).value, d2.value);
        }
      }
    }
  }

  lemma PushTransactionsChanges(provider: Provider, s: State, hash: BlockHash, block: Block)
    ensures PushTransactions(provider, s, hash, block).Some? == BlockChanges(provider, s, block).Some?
    ensures PushTransactions(provider, s, hash, block).Some? ==>
              var d := PushTransactions(provider, s, hash, block).value.decode;
              && d.blockHash == Some(hash)
              && d.changes == BlockChanges(provider, s, block).value
              && Apply(s.(sawBlock := true), d.changes) == Some(d.shadow)
  {
    var d0 := NewDecode(s.(sawBlock := true), Some(hash));
    ListenBlock(provider, Listener(d0, true), block);
    DecodeBlockLeads(provider, d0, block);
    AgreeBlockChanges(provider, s, s.(sawBlock := true), block);
    if DecodeBlock(provider, d0, block).Some? {
      assert [] + BlockChanges(provider, s, block).value == BlockChanges(provider, s, block).value;
    }
  }

  /** Adding a compact block is decoding it and committing the changes found. */
  lemma AddBlockIsDecodeThenCommit(provider: Provider, s: State, hash: BlockHash, block: Block)
    ensures AddBlock(provider, s, hash, block) ==
            if BlockChanges(provider, s, block).None? then None
            else AddBlockEnd(s, BlockChanges(provider, s, block).value)
  {
    PushTransactionsChanges(provider, s, hash, block);
    if BlockChanges(provider, s, block).Some? {
      SawBlockIrrelevant(s, BlockChanges(provider, s, block).value);
    }
  }

  lemma SawBlockIrrelevant(s: State, cs: seq<Change>)
    ensures AddBlockEnd(s.(sawBlock := true), cs) == AddBlockEnd(s, cs)
  {
    assert s.(sawBlock := true).(sawBlock := true, height := s.height + 1) == s.(sawBlock := true, height := s.height + 1);
  }

  /** The shadow and the committed state never drift apart: a block that decodes
      commits without a panic, and both end with the same funding and close. */
  lemma CommitAgreesWithShadow(provider: Provider, s: State, hash: BlockHash, block: Block)
    requires PushTransactions(provider, s, hash, block).Some?
    ensures AddBlock(provider, s, hash, block).Some?
    ensures Agree(AddBlock(provider, s, hash, block).value.state,
                  PushTransactions(provider, s, hash, block).value.decode.shadow)
  {
    PushTransactionsChanges(provider, s, hash, block);
    var d := PushTransactions(provider, s, hash, block).value.decode;
    var t := s.(sawBlock := true, height := s.height + 1);
    AgreeApply(s.(sawBlock := true), t, d.changes);
    ForwardAllState(Effect(t, [], []), d.changes);
    SawBlockIrrelevant(s, d.changes);
    AddBlockIsDecodeThenCommit(provider, s, hash, block);
  }

  // ---------------------------------------------------------------------------
  // Streamed blocks
  // ---------------------------------------------------------------------------

  lemma {:induction false} OnPushesIsListen(provider: Provider, m: Monitor, chunks: seq<seq<Event>>)
    requires m.decode.Some?
    ensures OnPushes(provider, m, chunks) ==
            var l := Listen(provider, Listener(m.decode.value, m.state.sawBlock), Flatten(chunks));
            if l.None? then None
            else Some(Monitor(m.state.(sawBlock := l.value.sawBlock), Some(l.value.decode)))
    decreases |chunks|
  {
    if chunks != [] {
      ListenAppend(provider, Listener(m.decode.value, m.state.sawBlock), chunks[0], Flatten(chunks[1..]));
      if OnPush(provider, m, chunks[0]).Some? {
        OnPushesIsListen(provider, OnPush(provider, m, chunks[0]).value, chunks[1..]);
      }
    }
  }

  /** Pushing a block's stream to an idle monitor decodes the block, however it is cut. */
  lemma StreamDecodes(provider: Provider, m: Monitor, hash: BlockHash, block: Block, chunks: seq<seq<Event>>)
    requires m.decode.None?
    requires Flatten(chunks) == BlockStream(hash, block)
    ensures OnPushes(provider, m, chunks).Some? == BlockChanges(provider, m.state, block).Some?
    ensures OnPushes(provider, m, chunks).Some? ==>
              var m' := OnPushes(provider, m, chunks).value;
              && m'.state == m.state.(sawBlock := true)
              && m'.decode.Some?
              && m'.decode.value.blockHash == Some(hash)
              && m'.decode.value.changes == BlockChanges(provider, m.state, block).value
  {
    assert chunks != [];
    var d0 := NewDecode(m.state, None);
    var m0 := Monitor(m.state, Some(d0));
    assert OnPush(provider, m, chunks[0]) == OnPush(provider, m0, chunks[0]);
    assert OnPushes(provider, m, chunks) == OnPushes(provider, m0, chunks);
    OnPushesIsListen(provider, m0, chunks);
    var l0 := Listener(d0, m.state.sawBlock);
    var d1 := d0.(blockHash := Some(hash));
    var l1 := Listener(d1, true);
    var body := BlockEvents(block);
    ListenAppend(provider, l0, [BlockStart(hash)] + body, [BlockEnd]);
    ListenAppend(provider, l0, [BlockStart(hash)], body);
    assert [BlockStart(hash)][1..] == [];
    assert Listen(provider, l0, [BlockStart(hash)]) == Some(l1);
    ListenBlock(provider, l1, block);
    DecodeBlockLeads(provider, d1, block);
    if DecodeBlock(provider, d1, block).Some? {
      assert [BlockEnd][1..] == [];
      assert [] + BlockChanges(provider, m.state, block).value == BlockChanges(provider, m.state, block).value;
    }
  }

  /** Streamed equals compact on adding: the same panic, or the same state and reports. */
  lemma StreamedEqualsCompact(provider: Provider, m: Monitor, hash: BlockHash, block: Block, chunks: seq<seq<Event>>)
    requires m.decode.None?
    requires Flatten(chunks) == BlockStream(hash, block)
    ensures
      var streamed := OnPushes(provider, m, chunks);
      (if streamed.None? then None else AddStreamedBlockEnd(streamed.value, hash))
      == Finish(m, AddBlock(provider, m.state, hash, block))
  {
    StreamDecodes(provider, m, hash, block, chunks);
    AddBlockIsDecodeThenCommit(provider, m.state, hash, block);
    if BlockChanges(provider, m.state, block).Some? {
      SawBlockIrrelevant(m.state, BlockChanges(provider, m.state, block).value);
    }
  }

  /** Streamed equals compact on removing. */
  lemma StreamedEqualsCompactRemove(provider: Provider, m: Monitor, hash: BlockHash, block: Block, chunks: seq<seq<Event>>)
    requires m.decode.None?
    requires Flatten(chunks) == BlockStream(hash, block)
    ensures
      var streamed := OnPushes(provider, m, chunks);
      (if streamed.None? then None else RemoveStreamedBlockEnd(streamed.value, hash))
      == Finish(m, RemoveBlock(provider, m.state, hash, block))
  {
    StreamDecodes(provider, m, hash, block, chunks);
    PushTransactionsChanges(provider, m.state, hash, block);
  }

  lemma {:induction false} ListenIgnores(provider: Provider, l: Listener, es: seq<Event>)
    requires !l.sawBlock && l.decode.blockHash.None?
    requires forall e :: e in es ==> !e.BlockStart?
    ensures Listen(provider, l, es) == Some(l)
    decreases |es|
  {
    if es != [] {
      assert es[0] in es;
      assert forall e :: e in es[1..] ==> e in es;
      ListenIgnores(provider, l, es[1..]);
    }
  }

  /** A monitor created in the middle of a block ignores the rest of that block. */
  lemma PartialStreamIgnored(provider: Provider, m: Monitor, hash: BlockHash, chunks: seq<seq<Event>>)
    requires m.decode.None? && !m.state.sawBlock
    requires forall e :: e in Flatten(chunks) ==> !e.BlockStart?
    ensures
      var streamed := OnPushes(provider, m, chunks);
      streamed.Some? && AddStreamedBlockEnd(streamed.value, hash) == Some((m, [], []))
  {
    if chunks != [] {
      var m0 := Monitor(m.state, Some(NewDecode(m.state, None)));
      assert OnPush(provider, m, chunks[0]) == OnPush(provider, m0, chunks[0]);
      assert OnPushes(provider, m, chunks) == OnPushes(provider, m0, chunks);
      OnPushesIsListen(provider, m0, chunks);
      ListenIgnores(provider, Listener(NewDecode(m.state, None), false), Flatten(chunks));
    }
  }

  // ---------------------------------------------------------------------------
  // Close classification
  // ---------------------------------------------------------------------------

  predicate IsClose(c: Change) {
    c.UnilateralClose? || c.MutualClose?
  }

  lemma {:induction false} HtlcChangesAreHtlc(txid: Txid, spends: seq<(nat, nat)>)
    ensures forall c :: c in HtlcChanges(txid, spends) ==> c.HtlcOutputSpent?
    decreases |spends|
  {
    if spends != [] {
      HtlcChangesAreHtlc(txid, spends[1..]);
    }
  }

  /** A transaction is reported as a close exactly when it spends the confirmed
      funding outpoint and nothing else, and does not create a tracked funding. */
  lemma CloseClassification(provider: Provider, l: Listener, tx: Tx)
    requires NotReady(l) == Some(false)
    requires Listen(provider, l, TxEvents(tx)).Some?
    ensures
      var l' := Listen(provider, l, TxEvents(tx)).value;
      var s := l.decode.shadow;
      && |l.decode.changes| <= |l'.decode.changes|
      && var found := l'.decode.changes[|l.decode.changes|..];
         && (exists c :: c in found && IsClose(c)) ==
            (|tx.inputs| == 1 && s.fundingOutpoint == Some(tx.inputs[0]) && tx.txid !in s.fundingTxids)
         && (forall c :: c in found && IsClose(c) ==>
               c == Classify(provider, tx.txid, ClosingTx(tx.version, tx.lockTime, tx.inputs[0], tx.outputs)))
  {
    ListenTx(provider, l, tx);
    var cs := TxChanges(provider, l.decode.shadow, tx);
    assert (l.decode.changes + cs)[|l.decode.changes|..] == cs;
    TxChangesClose(provider, l.decode.shadow, tx);
  }

  /** The close is what the provider makes of the whole transaction: mutual, or unilateral
      with the outputs it names. */
  lemma TxChangesClose(provider: Provider, s: State, tx: Tx)
    ensures
      var found := TxChanges(provider, s, tx);
      && (exists c :: c in found && IsClose(c)) ==
         (|tx.inputs| == 1 && s.fundingOutpoint == Some(tx.inputs[0]) && tx.txid !in s.fundingTxids)
      && (forall c :: c in found && IsClose(c) ==>
            && c == Classify(provider, tx.txid, ClosingTx(tx.version, tx.lockTime, tx.inputs[0], tx.outputs))
            && c.txid == tx.txid && c.funding == tx.inputs[0])
  {
    var found := TxChanges(provider, s, tx);
    InputChangesAreInputChanges(s, tx.inputs);
    HtlcChangesAreHtlc(tx.txid, HtlcSpends(s, tx.inputs));
    var close := CloseChange(provider, s, tx.txid, Gathered(s, tx), tx.lockTime);
    if close != [] {
      assert close[0] in found;
    }
  }
}
