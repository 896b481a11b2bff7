/**
 Concrete chains on which the reorg properties fail, one for the condition of each of the
 exact statements `ReorgUndo`, `ReorgWatch` and `UnseenBlock`.
 */
module MonitorExamples {
  import opened Options
  import opened Chain
  import opened Closing
  import opened MonitorState
  import opened MonitorDecode
  import opened MonitorBlocks
  import opened MonitorReplay
  import opened MonitorTruth
  import opened MonitorReorg
  import opened MonitorUnseen
  import opened MonitorWatch
  import opened MonitorWatchReorg

  const FUNDING := OutPoint(7, 0)
  const OUTPUT := TxOut(1000, [])

  /** Reads every spend of the funding as a commitment whose first output is ours. */
  function OursFirst(t: ClosingTx): Reading {
    Commitment(Some(0), [])
  }

  const OPEN := State(1, [7], [0], {}, Some(1), Some(FUNDING), None, None, None, None, None, None, true, false)
  const OPEN_PAST := Past(map[7 := 1], map[], {})
  const CLOSE_TX := Tx(8, 2, 0, [FUNDING], [OUTPUT])
  const SWEEP_TX := Tx(9, 2, 0, [OutPoint(8, 0)], [OUTPUT])

  lemma OneTxBlock(provider: Provider, s: State, tx: Tx, cs: seq<Change>)
    requires Decodable(s, tx) && TxChanges(provider, s, tx) == cs && Apply(s, cs).Some?
    ensures BlockChanges(provider, s, [tx]) == Some(cs)
  {
    assert [tx][1..] == [];
    assert BlockChanges(provider, Apply(s, cs).value, []) == Some([]);
    assert cs + [] == cs;
  }

  lemma InputsOne(s: State, o: OutPoint)
    ensures InputChanges(s, [o]) == FundingInputChange(s, o) + TrackedOutputChange(s, o)
    ensures HtlcSpends(s, [o]) == if SpendsHtlc(s, o) then [(o.vout, 0)] else []
  {
    assert [] + [o] == [o];
    ReadOneMore(s, [], o);
    assert InputChanges(s, []) == [] && HtlcSpends(s, []) == [];
  }

  const CLOSE := UnilateralClose(8, FUNDING, Some(0), [])
  const CLOSED := OPEN.(unilateralHeight := Some(1), closing := Some(Closing.New(8, Some(0), [])))

  lemma CloseTxChanges()
    ensures TxChanges(OursFirst, OPEN, CLOSE_TX) == [CLOSE] && Decodable(OPEN, CLOSE_TX)
    ensures Apply(OPEN, [CLOSE]) == Some(CLOSED)
  {
    InputsOne(OPEN, FUNDING);
    assert [CLOSE][1..] == [];
    assert Apply(CLOSED, []) == Some(CLOSED);
  }

  lemma SweepInClosingBlock()
    ensures BlockChanges(OursFirst, OPEN, [CLOSE_TX, SWEEP_TX]) == Some([CLOSE, OurOutputSpent(0)])
  {
    CloseTxChanges();
    OneTxBlock(OursFirst, CLOSED, SWEEP_TX, [OurOutputSpent(0)]);
    assert [CLOSE_TX] + [SWEEP_TX] == [CLOSE_TX, SWEEP_TX];
    assert [CLOSE] + [OurOutputSpent(0)] == [CLOSE, OurOutputSpent(0)];
  }

  lemma OpenIsTrue()
    ensures Inv(OPEN, OPEN_PAST)
  {
  }

  lemma SweepBlockIsNext()
    ensures NextBlock(OursFirst, OPEN, OPEN_PAST, [CLOSE_TX, SWEEP_TX])
  {
    var block := [CLOSE_TX, SWEEP_TX];
    var p := Record(OPEN_PAST, 2, CLOSE_TX);
    assert block[1..] == [SWEEP_TX] && [SWEEP_TX][1..] == [];
    assert ValidTx(OPEN_PAST, CLOSE_TX);
    assert p.spentBy.Keys == {FUNDING};
    assert ValidTx(p, SWEEP_TX);
    assert ValidBlock(p, 2, [SWEEP_TX]);
    assert ValidBlock(OPEN_PAST, 2, block);
    assert CLOSE_TX.inputs == [FUNDING] && SWEEP_TX.inputs != [FUNDING];
  }

  /** A close swept in its own block: removing that block panics. */
  lemma RemovingSweptClosePanics(hash: BlockHash)
    ensures Inv(OPEN, OPEN_PAST) && NextBlock(OursFirst, OPEN, OPEN_PAST, [CLOSE_TX, SWEEP_TX])
    ensures AddBlock(OursFirst, OPEN, hash, [CLOSE_TX, SWEEP_TX]).Some?
    ensures RemoveBlock(OursFirst, AddBlock(OursFirst, OPEN, hash, [CLOSE_TX, SWEEP_TX]).value.state, hash,
                        [CLOSE_TX, SWEEP_TX]).None?
  {
    OpenIsTrue();
    SweepBlockIsNext();
    SweepInClosingBlock();
    ReorgUndo(OursFirst, OPEN, OPEN_PAST, hash, [CLOSE_TX, SWEEP_TX]);
    var cs := BlockChanges(OursFirst, OPEN, [CLOSE_TX, SWEEP_TX]).value;
    assert BuildsOn(cs[0], cs[1]);
  }

  /** Reads every spend of the funding as a commitment whose first output is an HTLC. */
  function HtlcFirst(t: ClosingTx): Reading {
    Commitment(None, [0])
  }

  const HTLC_OPEN :=
    State(2, [7], [0], {}, Some(1), Some(FUNDING), None, None, Some(2),
          Some(ClosingOutpoints(8, None, [0], [false], [])), None, Some(2), true, false)
  const HTLC_PAST := Past(map[7 := 1, 8 := 2], map[FUNDING := 8], {8})

  lemma HtlcSpendChanges()
    ensures BlockChanges(HtlcFirst, HTLC_OPEN, [SWEEP_TX]) == Some([HtlcOutputSpent(0, OutPoint(9, 0))])
  {
    var c := HtlcOutputSpent(0, OutPoint(9, 0));
    InputsOne(HTLC_OPEN, OutPoint(8, 0));
    var spends := HtlcSpends(HTLC_OPEN, SWEEP_TX.inputs);
    assert spends == [(0, 0)];
    assert HtlcChanges(9, spends) == [c] by { assert spends[1..] == []; }
    assert TxChanges(HtlcFirst, HTLC_OPEN, SWEEP_TX) == [c];
    assert Apply(HTLC_OPEN, [c]).Some? by {
      assert [c][1..] == [];
      assert Forward(HTLC_OPEN, c).Some?;
      assert Apply(Forward(HTLC_OPEN, c).value, []).Some?;
    }
    OneTxBlock(HtlcFirst, HTLC_OPEN, SWEEP_TX, [c]);
  }

  lemma HtlcOpenIsTrue()
    ensures Inv(HTLC_OPEN, HTLC_PAST)
    ensures WatchesExactly({OutPoint(8, 0)}, HTLC_OPEN, HTLC_PAST)
  {
    assert SpentAt(HTLC_PAST, FUNDING, 2);
  }

  lemma HtlcSpendIsNext()
    ensures NextBlock(HtlcFirst, HTLC_OPEN, HTLC_PAST, [SWEEP_TX])
  {
    assert [SWEEP_TX][1..] == [];
    assert ValidTx(HTLC_PAST, SWEEP_TX);
    assert ValidBlock(HTLC_PAST, 3, [SWEEP_TX]);
    assert SWEEP_TX.inputs != [FUNDING];
  }

  /** An HTLC output spent in a block that is removed again: the state comes back, but the
      tracker no longer watches the output, which is unspent again. */
  lemma RemovingHtlcSpendLosesWatch(hash: BlockHash)
    ensures Inv(HTLC_OPEN, HTLC_PAST) && WatchesExactly({OutPoint(8, 0)}, HTLC_OPEN, HTLC_PAST)
    ensures AddBlock(HtlcFirst, HTLC_OPEN, hash, [SWEEP_TX]).Some?
    ensures
      var e := AddBlock(HtlcFirst, HTLC_OPEN, hash, [SWEEP_TX]).value;
      var back := RemoveBlock(HtlcFirst, e.state, hash, [SWEEP_TX]);
      && back.Some? && back.value.state == HTLC_OPEN
      && TrackerRemove(TrackerAdd({OutPoint(8, 0)}, e), back.value) != {OutPoint(8, 0)}
  {
    HtlcOpenIsTrue();
    HtlcSpendIsNext();
    HtlcSpendChanges();
    AddKeepsInv(HtlcFirst, HTLC_OPEN, HTLC_PAST, hash, [SWEEP_TX]);
    var cs := BlockChanges(HtlcFirst, HTLC_OPEN, [SWEEP_TX]).value;
    assert HtlcChange(cs[0]);
    ReorgWatch(HtlcFirst, HTLC_OPEN, HTLC_PAST, hash, [SWEEP_TX], {OutPoint(8, 0)});
  }

  const UNSEEN := State(1, [7], [0], {}, None, None, None, None, None, None, None, None, false, false)
  const FUNDING_TX := Tx(7, 2, 0, [OutPoint(3, 0)], [OUTPUT])

  /** A channel set up after its funding confirmed, and that block removed: the monitor panics. */
  lemma RemovingUnseenFundingPanics(hash: BlockHash)
    ensures RemoveBlock(OursFirst, UNSEEN, hash, [FUNDING_TX]).None?
  {
    assert [FUNDING_TX][0].txid == UNSEEN.fundingTxids[0];
    UnseenBlock(OursFirst, UNSEEN, hash, [FUNDING_TX]);
  }
}
