/**
 The monitor's state against the chain: on every valid chain the state records the
 confirmation, the double spend and the close of the funding, and the spending of the
 tracked outputs, exactly when they happened and at the heights they happened at. Along
 the way every change the decoder emits is applied without a panic.
 */
module MonitorTruth {
  import opened Options
  import opened Chain
  import opened Closing
  import opened ClosingTruth
  import opened MonitorState
  import opened MonitorDecode
  import opened MonitorBlocks
  import opened MonitorReplay

  /** The provider's readings: distinct HTLC outputs, none of them our output. */
  ghost predicate ProviderOk(provider: Provider) {
    forall t :: provider(t).Commitment? ==>
      NoDup(provider(t).htlcs) && (provider(t).our.Some? ==> provider(t).our.value !in provider(t).htlcs)
  }

  ghost predicate PastOk(p: Past, height: nat) {
    && COINBASE.txid !in p.at
    && COINBASE !in p.spentBy
    && (forall o :: o in p.spentBy ==> p.spentBy[o] in p.at)
    && (forall t :: t in p.at ==> p.at[t] <= height)
    && (forall t :: t in p.lone ==> t in p.at)
  }

  /** The height at which `o` was spent. */
  ghost predicate SpentAt(p: Past, o: OutPoint, height: nat) {
    o in p.spentBy && p.spentBy[o] in p.at && p.at[p.spentBy[o]] == height
  }

  ghost predicate WatchesOk(s: State) {
    && |s.fundingTxids| == |s.fundingVouts| <= 1
    && COINBASE.txid !in s.fundingTxids
    && COINBASE !in s.fundingInputs
    && (forall o :: o in s.fundingInputs ==> o.txid !in s.fundingTxids)
  }

  /** The funding is recorded exactly when the funding transaction confirmed, at its height. */
  ghost predicate FundingTrue(s: State, p: Past)
    requires WatchesOk(s)
  {
    if s.fundingTxids != [] && s.fundingTxids[0] in p.at
    then s.fundingOutpoint == Some(OutPoint(s.fundingTxids[0], s.fundingVouts[0]))
         && s.fundingHeight == Some(p.at[s.fundingTxids[0]])
    else s.fundingOutpoint.None? && s.fundingHeight.None?
  }

  /** A transaction with no other input spent the confirmed funding. */
  ghost predicate SpentAlone(s: State, p: Past) {
    s.fundingOutpoint.Some? && s.fundingOutpoint.value in p.spentBy && p.spentBy[s.fundingOutpoint.value] in p.lone
  }

  /** A close is recorded exactly when the funding was spent alone, at the height it was;
      its tracked outputs' flags are exact. */
  ghost predicate CloseTrue(s: State, p: Past) {
    && (s.mutualHeight.Some? || s.closing.Some? <==> SpentAlone(s, p))
    && (s.mutualHeight.Some? ==>
          && s.closing.None?
          && s.fundingOutpoint.Some?
          && SpentAt(p, s.fundingOutpoint.value, s.mutualHeight.value))
    && (s.closing.Some? == s.unilateralHeight.Some?)
    && (s.closing.Some? ==>
          && s.fundingOutpoint.Some?
          && SpentAt(p, s.fundingOutpoint.value, s.unilateralHeight.value)
          && p.spentBy[s.fundingOutpoint.value] == s.closing.value.txid
          && Exact(s.closing.value, p.spentBy.Keys)
          && SecondLevelConfirmed(s.closing.value, p))
  }

  ghost predicate SecondLevelConfirmed(c: ClosingOutpoints, p: Past) {
    forall i :: 0 <= i < |c.secondLevel| ==> c.secondLevel[i].outpoint.txid in p.at
  }

  /** A double spend is recorded exactly when a funding input was spent by another
      transaction, at such a height; a confirmed funding spent all its inputs. */
  ghost predicate DoubleSpendTrue(s: State, p: Past) {
    && (s.doubleSpentHeight.Some? ==>
          exists o :: o in s.fundingInputs && SpentAt(p, o, s.doubleSpentHeight.value) && p.spentBy[o] !in s.fundingTxids)
    && (s.doubleSpentHeight.None? ==>
          forall o :: o in s.fundingInputs && o in p.spentBy ==> p.spentBy[o] in s.fundingTxids)
    && (forall o :: o in s.fundingInputs && s.fundingTxids != [] && s.fundingTxids[0] in p.at ==>
                      o in p.spentBy && p.spentBy[o] == s.fundingTxids[0])
  }

  /** The funding transaction is the one its inputs were registered from. */
  predicate FundsWith(s: State, tx: Tx) {
    tx.txid in s.fundingTxids ==> forall o :: o in s.fundingInputs ==> o in tx.inputs
  }

  /** The truth invariant, inside a block as well. */
  ghost predicate Track(s: State, p: Past) {
    PastOk(p, s.height) && WatchesOk(s) && FundingTrue(s, p) && CloseTrue(s, p) && DoubleSpendTrue(s, p)
  }

  // ---------------------------------------------------------------------------
  // One transaction
  // ---------------------------------------------------------------------------

  /** Only the double-spend height and the spent flags may differ. */
  predicate SameButFlags(s: State, t: State) {
    t == s.(doubleSpentHeight := t.doubleSpentHeight, closing := t.closing) && SameTargets(s, t)
  }

  lemma {:induction false} FirstSpentFalse(xs: seq<SecondLevel>, o: OutPoint)
    requires forall i :: 0 <= i < |xs| && xs[i].outpoint == o ==> !xs[i].spent
    ensures !FirstSpent(xs, o)
    decreases |xs|
  {
    if xs != [] {
      assert forall i :: 0 <= i < |xs[1..]| ==> xs[1..][i] == xs[i + 1];
      FirstSpentFalse(xs[1..], o);
    }
  }

  function AfterSpend(s: State, spent: set<OutPoint>, o: OutPoint): set<OutPoint> {
    if o == COINBASE || SpendsHtlc(s, o) then spent else spent + {o}
  }

  ghost predicate ExactIn(s: State, spent: set<OutPoint>) {
    s.closing.Some? ==> Exact(s.closing.value, spent)
  }

  lemma TrackedStep(t: State, spent: set<OutPoint>, o: OutPoint)
    requires ExactIn(t, spent)
    requires o == COINBASE ==> t.closing.Some? ==> !Tracks(t.closing.value, o)
    requires o != COINBASE ==> o !in spent
    ensures
      var cs := TrackedOutputChange(t, o);
      && Good(t, cs) && Apply(t, cs).Some?
      && SameButFlags(t, Apply(t, cs).value)
      && Apply(t, cs).value.doubleSpentHeight == t.doubleSpentHeight
      && ExactIn(Apply(t, cs).value, AfterSpend(t, spent, o))
  {
    var cs := TrackedOutputChange(t, o);
    if t.closing.Some? {
      var c := t.closing.value;
      if c.IncludesOurOutput(o) {
        ExactOur(c, spent, o);
      } else if c.IncludesHtlcOutput(o) {
      } else if c.IncludesSecondLevel(o) {
        ExactSecond(c, spent, o);
        FirstSpentFalse(c.secondLevel, o);
      } else if o != COINBASE {
      }
    }
  }

  lemma InputStep(t: State, spent: set<OutPoint>, o: OutPoint)
    requires ExactIn(t, spent)
    requires o == COINBASE ==> t.closing.Some? ==> !Tracks(t.closing.value, o)
    requires o != COINBASE ==> o !in spent
    ensures
      var cs := FundingInputChange(t, o) + TrackedOutputChange(t, o);
      && Good(t, cs) && Apply(t, cs).Some?
      && SameButFlags(t, Apply(t, cs).value)
      && Apply(t, cs).value.doubleSpentHeight ==
         (if t.doubleSpentHeight.None? && o in t.fundingInputs then Some(t.height) else t.doubleSpentHeight)
      && ExactIn(Apply(t, cs).value, AfterSpend(t, spent, o))
  {
    var fic := FundingInputChange(t, o);
    if fic == [] {
      assert fic + TrackedOutputChange(t, o) == TrackedOutputChange(t, o);
      TrackedStep(t, spent, o);
    } else {
      var c := FundingInputSpent(o);
      var u := Forward(t, c).value;
      assert TrackedOutputChange(u, o) == TrackedOutputChange(t, o);
      TrackedStep(u, spent, o);
      var cs := fic + TrackedOutputChange(t, o);
      assert cs[0] == c && cs[1..] == TrackedOutputChange(u, o);
    }
  }

  /** The spent outpoints recorded while the inputs are read: HTLC spends come later. */
  function AfterInputSpends(s: State, spent: set<OutPoint>, inputs: seq<OutPoint>): set<OutPoint> {
    spent + set o | o in inputs && o != COINBASE && !SpendsHtlc(s, o)
  }

  /** The state after the inputs have been read. */
  ghost predicate InputsRead(s: State, spent: set<OutPoint>, inputs: seq<OutPoint>) {
    var cs := InputChanges(s, inputs);
    && Good(s, cs) && Apply(s, cs).Some?
    && SameButFlags(s, Apply(s, cs).value)
    && Apply(s, cs).value.doubleSpentHeight == DoubleSpendAfter(s, inputs)
    && ExactIn(Apply(s, cs).value, AfterInputSpends(s, spent, inputs))
  }

  ghost function DoubleSpendAfter(s: State, inputs: seq<OutPoint>): Option<nat> {
    if s.doubleSpentHeight.None? && (exists o :: o in inputs && o in s.fundingInputs)
    then Some(s.height) else s.doubleSpentHeight
  }

  lemma {:induction false} InputsPhase(s: State, spent: set<OutPoint>, inputs: seq<OutPoint>)
    requires ExactIn(s, spent)
    requires s.closing.Some? ==> !Tracks(s.closing.value, COINBASE)
    requires NoDup(inputs) && (forall o :: o in inputs && o != COINBASE ==> o !in spent)
    ensures InputsRead(s, spent, inputs)
    decreases |inputs|
  {
    if inputs == [] {
      assert AfterInputSpends(s, spent, inputs) == spent;
    } else {
      var n := |inputs| - 1;
      assert inputs == inputs[..n] + [inputs[n]];
      InputsPhase(s, spent, inputs[..n]);
      InputsPhaseStep(s, spent, inputs[..n], inputs[n]);
    }
  }

  lemma InputsPhaseStep(s: State, spent: set<OutPoint>, rest: seq<OutPoint>, o: OutPoint)
    requires InputsRead(s, spent, rest)
    requires s.closing.Some? ==> !Tracks(s.closing.value, COINBASE)
    requires o !in rest && (o != COINBASE ==> o !in spent)
    ensures InputsRead(s, spent, rest + [o])
  {
    var before := InputChanges(s, rest);
    var t := Apply(s, before).value;
    var spent1 := AfterInputSpends(s, spent, rest);
    SameTargetsSameReading(s, t, o);
    if s.closing.Some? { SameTargetsTracks(s, t, COINBASE); }
    InputStep(t, spent1, o);
    var last := FundingInputChange(s, o) + TrackedOutputChange(s, o);
    ReadOneMore(s, rest, o);
    ApplyAppend(s, before, last);
    GoodAppend(s, before, last);
    ReadStep(s, t, Apply(t, last).value, spent, rest, o);
  }

  /** The states before and after one more input, without the changes that lead there. */
  lemma ReadStep(s: State, t: State, u: State, spent: set<OutPoint>, rest: seq<OutPoint>, o: OutPoint)
    requires SameButFlags(s, t) && SameButFlags(t, u) && SpendsHtlc(s, o) == SpendsHtlc(t, o)
    requires t.doubleSpentHeight == DoubleSpendAfter(s, rest)
    requires u.doubleSpentHeight ==
             if t.doubleSpentHeight.None? && o in t.fundingInputs then Some(t.height) else t.doubleSpentHeight
    requires ExactIn(u, AfterSpend(t, AfterInputSpends(s, spent, rest), o))
    ensures SameButFlags(s, u) && u.doubleSpentHeight == DoubleSpendAfter(s, rest + [o])
    ensures ExactIn(u, AfterInputSpends(s, spent, rest + [o]))
  {
    assert forall x :: x in rest + [o] <==> x in rest || x == o;
    assert AfterSpend(t, AfterInputSpends(s, spent, rest), o) == AfterInputSpends(s, spent, rest + [o]);
  }

  lemma SameTargetsTracks(s: State, t: State, o: OutPoint)
    requires SameTargets(s, t) && s.closing.Some?
    ensures Tracks(s.closing.value, o) == Tracks(t.closing.value, o)
  {
    var xs, ys := s.closing.value.secondLevel, t.closing.value.secondLevel;
    if Has(xs, o) { var i :| 0 <= i < |xs| && xs[i].outpoint == o; assert ys[i].outpoint == o; }
    if Has(ys, o) { var i :| 0 <= i < |ys| && ys[i].outpoint == o; assert xs[i].outpoint == o; }
  }

  // The HTLC spends, recorded when the transaction ends.

  lemma {:induction false} HtlcChangesAppend(txid: Txid, xs: seq<(nat, nat)>, x: (nat, nat))
    ensures HtlcChanges(txid, xs + [x]) == HtlcChanges(txid, xs) + [HtlcOutputSpent(x.0, OutPoint(txid, x.1))]
    decreases |xs|
  {
    if xs == [] {
      assert xs + [x] == [x];
    } else {
      assert (xs + [x])[0] == xs[0] && (xs + [x])[1..] == xs[1..] + [x];
      HtlcChangesAppend(txid, xs[1..], x);
    }
  }

  function HtlcsSpent(s: State, inputs: seq<OutPoint>): set<OutPoint> {
    set o | o in inputs && SpendsHtlc(s, o)
  }

  /** The tracked outputs after the HTLC spends of the first `inputs`. */
  ghost predicate HtlcsRead(s: State, u: State, spent: set<OutPoint>, txid: Txid, inputs: seq<OutPoint>) {
    var cs := HtlcChanges(txid, HtlcSpends(s, inputs));
    && Good(u, cs) && Apply(u, cs).Some?
    && var v := Apply(u, cs).value;
    && v == u.(closing := v.closing) && v.closing.Some? && u.closing.Some?
    && v.closing.value.txid == u.closing.value.txid
    && v.closing.value.ourOutput == u.closing.value.ourOutput
    && v.closing.value.htlcOutputs == u.closing.value.htlcOutputs
    && Exact(v.closing.value, spent + HtlcsSpent(s, inputs))
    && NewSecondLevel(u.closing.value, v.closing.value, txid, |inputs|)
  }

  /** Second-level outputs are the old ones and some of the first `n` outputs of `txid`. */
  ghost predicate NewSecondLevel(c: ClosingOutpoints, c': ClosingOutpoints, txid: Txid, n: nat) {
    && |c.secondLevel| <= |c'.secondLevel|
    && c'.secondLevel[..|c.secondLevel|] == c.secondLevel
    && (forall i :: |c.secondLevel| <= i < |c'.secondLevel| ==>
          c'.secondLevel[i].outpoint.txid == txid && c'.secondLevel[i].outpoint.vout < n)
  }

  lemma HtlcPhaseStep(s: State, u: State, spent: set<OutPoint>, txid: Txid, rest: seq<OutPoint>, o: OutPoint)
    requires HtlcsRead(s, u, spent, txid, rest)
    requires SpendsHtlc(s, o) == SpendsHtlc(u, o)
    requires SpendsHtlc(s, o) ==> o !in rest && o !in spent
    requires u.closing.value.txid != txid
    requires forall x :: x in spent || x in rest || x == o ==> x.txid != txid
    requires forall i :: 0 <= i < |u.closing.value.secondLevel| ==> u.closing.value.secondLevel[i].outpoint.txid != txid
    ensures HtlcsRead(s, u, spent, txid, rest + [o])
  {
    ReadOneMore(s, rest, o);
    assert forall x :: x in rest + [o] <==> x in rest || x == o;
    var before := HtlcChanges(txid, HtlcSpends(s, rest));
    var v := Apply(u, before).value;
    var spent1 := spent + HtlcsSpent(s, rest);
    if !SpendsHtlc(s, o) {
      assert HtlcSpends(s, rest + [o]) == HtlcSpends(s, rest);
      assert HtlcsSpent(s, rest + [o]) == HtlcsSpent(s, rest);
    } else {
      var second := OutPoint(txid, |rest|);
      var c := HtlcOutputSpent(o.vout, second);
      HtlcChangesAppend(txid, HtlcSpends(s, rest), (o.vout, |rest|));
      assert HtlcsSpent(s, rest + [o]) == HtlcsSpent(s, rest) + {o};
      assert spent + HtlcsSpent(s, rest + [o]) == spent1 + {o};
      HtlcOne(u.closing.value, v, spent1, o, second);
      ApplyAppend(u, before, [c]);
      GoodAppend(u, before, [c]);
    }
  }

  lemma HtlcOne(c0: ClosingOutpoints, v: State, spent: set<OutPoint>, o: OutPoint, second: OutPoint)
    requires v.closing.Some? && Exact(v.closing.value, spent) && v.closing.value.IncludesHtlcOutput(o)
    requires o !in spent && second !in spent && second.txid != v.closing.value.txid
    requires NewSecondLevel(c0, v.closing.value, second.txid, second.vout)
    requires forall i :: 0 <= i < |c0.secondLevel| ==> c0.secondLevel[i].outpoint.txid != second.txid
    ensures
      var c := HtlcOutputSpent(o.vout, second);
      && Good(v, [c]) && Apply(v, [c]).Some?
      && var w := Apply(v, [c]).value;
      && w == v.(closing := w.closing) && w.closing.Some?
      && w.closing.value.txid == v.closing.value.txid
      && w.closing.value.ourOutput == v.closing.value.ourOutput
      && w.closing.value.htlcOutputs == v.closing.value.htlcOutputs
      && Exact(w.closing.value, spent + {o})
      && NewSecondLevel(c0, w.closing.value, second.txid, second.vout + 1)
  {
    var c := v.closing.value;
    forall i | 0 <= i < |c.secondLevel| ensures c.secondLevel[i].outpoint != second {
      if i < |c0.secondLevel| { assert c.secondLevel[..|c0.secondLevel|][i] == c.secondLevel[i]; }
    }
    ExactHtlc(c, spent, o, second);
    var change := HtlcOutputSpent(o.vout, second);
    assert [change][1..] == [];
    assert Fresh(v, change);
    var c' := Forward(v, change).value.closing.value;
    assert c'.secondLevel == c.secondLevel + [SecondLevel(second, false)];
    assert c'.secondLevel[..|c0.secondLevel|] == c.secondLevel[..|c0.secondLevel|];
  }

  lemma {:induction false} HtlcPhase(s: State, u: State, spent: set<OutPoint>, txid: Txid, inputs: seq<OutPoint>)
    requires u.closing.Some? && Exact(u.closing.value, spent)
    requires forall o :: o in inputs ==> SpendsHtlc(s, o) == SpendsHtlc(u, o)
    requires NoDup(inputs) && (forall o :: o in inputs && SpendsHtlc(s, o) ==> o !in spent)
    requires u.closing.value.txid != txid
    requires forall x :: x in spent || x in inputs ==> x.txid != txid
    requires forall i :: 0 <= i < |u.closing.value.secondLevel| ==> u.closing.value.secondLevel[i].outpoint.txid != txid
    ensures HtlcsRead(s, u, spent, txid, inputs)
    decreases |inputs|
  {
    if inputs == [] {
      assert spent + HtlcsSpent(s, inputs) == spent;
    } else {
      var n := |inputs| - 1;
      assert inputs == inputs[..n] + [inputs[n]];
      HtlcPhase(s, u, spent, txid, inputs[..n]);
      HtlcPhaseStep(s, u, spent, txid, inputs[..n], inputs[n]);
    }
  }

  // The past after the transaction.

  lemma RecordOk(p: Past, height: nat, tx: Tx)
    requires PastOk(p, height) && ValidTx(p, tx)
    ensures PastOk(Record(p, height, tx), height)
    ensures forall o :: o in p.spentBy ==> o in Record(p, height, tx).spentBy && Record(p, height, tx).spentBy[o] == p.spentBy[o]
    ensures forall t :: t in p.at ==> Record(p, height, tx).at[t] == p.at[t]
    ensures Record(p, height, tx).spentBy.Keys == p.spentBy.Keys + set o | o in tx.inputs && o != COINBASE
  {
  }

  lemma SpentAtKept(p: Past, height: nat, tx: Tx, o: OutPoint, k: nat)
    requires PastOk(p, height) && ValidTx(p, tx) && SpentAt(p, o, k)
    ensures SpentAt(Record(p, height, tx), o, k)
    ensures Record(p, height, tx).spentBy[o] == p.spentBy[o]
  {
    RecordOk(p, height, tx);
  }

  /** The double-spend height after the inputs, when the transaction is not the funding. */
  lemma DoubleSpendKept(s: State, t: State, p: Past, tx: Tx)
    requires Track(s, p) && ValidTx(p, tx) && tx.txid !in s.fundingTxids
    requires t.fundingInputs == s.fundingInputs && t.fundingTxids == s.fundingTxids
    requires t.doubleSpentHeight == DoubleSpendAfter(s, tx.inputs)
    ensures DoubleSpendTrue(t, Record(p, s.height, tx))
  {
    if s.doubleSpentHeight.Some? {
      var o :| o in s.fundingInputs && SpentAt(p, o, s.doubleSpentHeight.value) && p.spentBy[o] !in s.fundingTxids;
      SpentAtKept(p, s.height, tx, o, s.doubleSpentHeight.value);
    } else if t.doubleSpentHeight.Some? {
      var o :| o in tx.inputs && o in s.fundingInputs;
    }
  }

  // The cases of `TxChanges`: a close being followed, the funding transaction itself,
  // a close of the funding, or anything else.

  lemma TxWithClosing(provider: Provider, s: State, p: Past, tx: Tx)
    requires Track(s, p) && ValidTx(p, tx) && s.closing.Some?
    ensures TxChanges(provider, s, tx) ==
            InputChanges(s, tx.inputs) + HtlcChanges(tx.txid, HtlcSpends(s, tx.inputs))
    ensures tx.txid !in s.fundingTxids
  {
    assert s.fundingOutpoint.value in p.spentBy;
  }

  lemma {:induction false} NoHtlcSpends(s: State, inputs: seq<OutPoint>)
    requires s.closing.None?
    ensures HtlcSpends(s, inputs) == []
    decreases |inputs|
  {
    if inputs != [] { NoHtlcSpends(s, inputs[..|inputs| - 1]); }
  }

  lemma CoinbaseUntracked(s: State, p: Past)
    requires Track(s, p)
    ensures s.closing.Some? ==> !Tracks(s.closing.value, COINBASE)
  {
    if s.closing.Some? {
      var c := s.closing.value;
      assert c.txid in p.at;
      forall i | 0 <= i < |c.secondLevel| ensures c.secondLevel[i].outpoint != COINBASE {
        assert c.secondLevel[i].outpoint.txid in p.at;
      }
    }
  }

  lemma InputsOfTx(s: State, p: Past, tx: Tx)
    requires Track(s, p) && ValidTx(p, tx)
    ensures InputsRead(s, p.spentBy.Keys, tx.inputs)
  {
    CoinbaseUntracked(s, p);
    InputsPhase(s, p.spentBy.Keys, tx.inputs);
  }

  lemma StepWithClosing(provider: Provider, s: State, p: Past, tx: Tx)
    requires Track(s, p) && ValidTx(p, tx) && s.closing.Some?
    ensures
      var cs := TxChanges(provider, s, tx);
      Good(s, cs) && Apply(s, cs).Some? && Track(Apply(s, cs).value, Record(p, s.height, tx))
  {
    TxWithClosing(provider, s, p, tx);
    InputsOfTx(s, p, tx);
    var a := InputChanges(s, tx.inputs);
    var e := HtlcChanges(tx.txid, HtlcSpends(s, tx.inputs));
    var t := Apply(s, a).value;
    var spent := AfterInputSpends(s, p.spentBy.Keys, tx.inputs);
    HtlcsOfTx(s, t, p, tx);
    ApplyAppend(s, a, e);
    GoodAppend(s, a, e);
    var v := Apply(t, e).value;
    DoubleSpendKept(s, v, p, tx);
    CloseKept(s, t, v, p, tx);
    RecordOk(p, s.height, tx);
  }

  lemma HtlcsOfTx(s: State, t: State, p: Past, tx: Tx)
    requires Track(s, p) && ValidTx(p, tx) && s.closing.Some?
    requires InputsRead(s, p.spentBy.Keys, tx.inputs) && t == Apply(s, InputChanges(s, tx.inputs)).value
    ensures HtlcsRead(s, t, AfterInputSpends(s, p.spentBy.Keys, tx.inputs), tx.txid, tx.inputs)
  {
    forall o | o in tx.inputs ensures SpendsHtlc(s, o) == SpendsHtlc(t, o) {
      SameTargetsSameReading(s, t, o);
    }
    CoinbaseUntracked(s, p);
    var c := t.closing.value;
    assert c.txid in p.at;
    forall i | 0 <= i < |c.secondLevel| ensures c.secondLevel[i].outpoint.txid != tx.txid {
      assert s.closing.value.secondLevel[i].outpoint.txid in p.at;
    }
    HtlcPhase(s, t, AfterInputSpends(s, p.spentBy.Keys, tx.inputs), tx.txid, tx.inputs);
  }

  lemma CloseKept(s: State, t: State, v: State, p: Past, tx: Tx)
    requires Track(s, p) && ValidTx(p, tx) && s.closing.Some?
    requires SameButFlags(s, t)
    requires HtlcsRead(s, t, AfterInputSpends(s, p.spentBy.Keys, tx.inputs), tx.txid, tx.inputs)
    requires v == Apply(t, HtlcChanges(tx.txid, HtlcSpends(s, tx.inputs))).value
    ensures CloseTrue(v, Record(p, s.height, tx))
  {
    var p' := Record(p, s.height, tx);
    RecordOk(p, s.height, tx);
    CoinbaseUntracked(s, p);
    SpentAtKept(p, s.height, tx, s.fundingOutpoint.value, s.unilateralHeight.value);
    assert AfterInputSpends(s, p.spentBy.Keys, tx.inputs) + HtlcsSpent(s, tx.inputs) == p'.spentBy.Keys;
    var c := v.closing.value;
    forall i | 0 <= i < |c.secondLevel| ensures c.secondLevel[i].outpoint.txid in p'.at {
      var n := |t.closing.value.secondLevel|;
      if i < n {
        assert c.secondLevel[i] == c.secondLevel[..n][i];
        assert s.closing.value.secondLevel[i].outpoint.txid in p.at;
      }
    }
  }

  lemma StepOther(provider: Provider, s: State, p: Past, tx: Tx)
    requires Track(s, p) && ValidTx(p, tx) && s.closing.None?
    requires tx.txid !in s.fundingTxids && !SpendsOnlyFunding(s, tx)
    ensures
      var cs := TxChanges(provider, s, tx);
      Good(s, cs) && Apply(s, cs).Some? && Track(Apply(s, cs).value, Record(p, s.height, tx))
  {
    NoHtlcSpends(s, tx.inputs);
    var a := InputChanges(s, tx.inputs);
    assert TxChanges(provider, s, tx) == a;
    InputsOfTx(s, p, tx);
    var t := Apply(s, a).value;
    DoubleSpendKept(s, t, p, tx);
    RecordOk(p, s.height, tx);
  }

  lemma OneChange(t: State, c: Change)
    requires Fresh(t, c)
    ensures Forward(t, c).Some? && Good(t, [c]) && Apply(t, [c]) == Forward(t, c)
  {
    assert [c][1..] == [];
    assert Apply(Forward(t, c).value, [c][1..]) == Forward(t, c);
  }

  lemma StepFunding(provider: Provider, s: State, p: Past, tx: Tx)
    requires Track(s, p) && ValidTx(p, tx) && FundsWith(s, tx) && s.closing.None? && tx.txid in s.fundingTxids
    ensures
      var cs := TxChanges(provider, s, tx);
      Good(s, cs) && Apply(s, cs).Some? && Track(Apply(s, cs).value, Record(p, s.height, tx))
  {
    NoHtlcSpends(s, tx.inputs);
    assert s.fundingTxids == [tx.txid];
    var a := InputChanges(s, tx.inputs);
    var c := FundingConfirmed(OutPoint(tx.txid, s.fundingVouts[0]));
    assert FundingChange(s, tx.txid) == [c];
    assert TxChanges(provider, s, tx) == a + [c];
    InputsOfTx(s, p, tx);
    var t := Apply(s, a).value;
    OneChange(t, c);
    ApplyAppend(s, a, [c]);
    GoodAppend(s, a, [c]);
    RecordOk(p, s.height, tx);
  }

  lemma StepClose(provider: Provider, s: State, p: Past, tx: Tx)
    requires Track(s, p) && ValidTx(p, tx) && ProviderOk(provider) && s.closing.None?
    requires tx.txid !in s.fundingTxids && SpendsOnlyFunding(s, tx)
    ensures
      var cs := TxChanges(provider, s, tx);
      Good(s, cs) && Apply(s, cs).Some? && Track(Apply(s, cs).value, Record(p, s.height, tx))
  {
    NoHtlcSpends(s, tx.inputs);
    var a := InputChanges(s, tx.inputs);
    var g := Gathered(s, tx).value.(lockTime := tx.lockTime);
    var c := Classify(provider, tx.txid, g);
    assert TxChanges(provider, s, tx) == a + [c];
    InputsOfTx(s, p, tx);
    var t := Apply(s, a).value;
    var op := tx.inputs[0];
    assert op != COINBASE && op !in p.spentBy;
    assert s.mutualHeight.None? && s.unilateralHeight.None?;
    OneChange(t, c);
    ApplyAppend(s, a, [c]);
    GoodAppend(s, a, [c]);
    var u := Forward(t, c).value;
    var p' := Record(p, s.height, tx);
    RecordOk(p, s.height, tx);
    if c.UnilateralClose? {
      assert provider(g).Commitment?;
      ExactNew(tx.txid, c.our, c.htlcs, p'.spentBy.Keys);
    }
    DoubleSpendKept(s, u, p, tx);
  }

  /** One valid transaction: its changes are all new and apply without a panic, and the
      truth invariant moves to the past extended with the transaction. */
  lemma TxStep(provider: Provider, s: State, p: Past, tx: Tx)
    requires Track(s, p) && ValidTx(p, tx) && FundsWith(s, tx) && ProviderOk(provider)
    ensures
      var cs := TxChanges(provider, s, tx);
      Good(s, cs) && Apply(s, cs).Some? && Track(Apply(s, cs).value, Record(p, s.height, tx))
      && Apply(s, cs).value.height == s.height
  {
    if s.closing.Some? {
      StepWithClosing(provider, s, p, tx);
    } else if tx.txid in s.fundingTxids {
      StepFunding(provider, s, p, tx);
    } else if SpendsOnlyFunding(s, tx) {
      StepClose(provider, s, p, tx);
    } else {
      StepOther(provider, s, p, tx);
    }
    ApplyKeepsFrame(s, TxChanges(provider, s, tx));
  }

  /** The fields no change touches. */
  predicate SameFrame(s: State, t: State) {
    && t.height == s.height && t.sawBlock == s.sawBlock && t.sawForget == s.sawForget
    && t.fundingInputs == s.fundingInputs && t.fundingTxids == s.fundingTxids && t.fundingVouts == s.fundingVouts
    && t.closingSweptHeight == s.closingSweptHeight && t.ourSweptHeight == s.ourSweptHeight
  }

  lemma ForwardKeepsFrame(s: State, c: Change)
    requires Forward(s, c).Some?
    ensures SameFrame(s, Forward(s, c).value)
  {
  }

  lemma {:induction false} ApplyKeepsFrame(s: State, cs: seq<Change>)
    requires Apply(s, cs).Some?
    ensures SameFrame(s, Apply(s, cs).value)
    decreases |cs|
  {
    if cs != [] {
      var next := Forward(s, cs[0]).value;
      ForwardKeepsFrame(s, cs[0]);
      ApplyKeepsFrame(next, cs[1..]);
    }
  }

  /** The decoder's limits, on every transaction of a block: the funding transaction has
      the funding output and the registered inputs, and a spend of the funding alone has at
      most 600 outputs. */
  predicate WithinLimits(txids: seq<Txid>, vouts: seq<nat>, inputs: set<OutPoint>, block: Block) {
    |txids| == |vouts| &&
    forall i :: 0 <= i < |block| && txids != [] ==>
      && (block[i].txid == txids[0] ==> vouts[0] < |block[i].outputs| && forall o :: o in inputs ==> o in block[i].inputs)
      && (block[i].inputs == [OutPoint(txids[0], vouts[0])] ==> |block[i].outputs| <= MAX_COMMITMENT_OUTPUTS)
  }

  lemma LimitsDecodable(s: State, p: Past, block: Block)
    requires Track(s, p) && block != [] && WithinLimits(s.fundingTxids, s.fundingVouts, s.fundingInputs, block)
    ensures Decodable(s, block[0]) && FundsWith(s, block[0])
    ensures WithinLimits(s.fundingTxids, s.fundingVouts, s.fundingInputs, block[1..])
  {
    var tx := block[0];
    if SpendsOnlyFunding(s, tx) {
      assert tx.inputs == [OutPoint(s.fundingTxids[0], s.fundingVouts[0])];
    }
    assert forall i :: 0 <= i < |block[1..]| ==> block[1..][i] == block[i + 1];
  }

  /** A valid block decodes; its changes are all new and apply without a panic, and the
      truth invariant moves to the past extended with the block. */
  lemma {:induction false} BlockStep(provider: Provider, s: State, p: Past, block: Block)
    requires Track(s, p) && ValidBlock(p, s.height, block) && ProviderOk(provider)
    requires WithinLimits(s.fundingTxids, s.fundingVouts, s.fundingInputs, block)
    ensures
      var cs := BlockChanges(provider, s, block);
      && cs.Some? && Good(s, cs.value) && Apply(s, cs.value).Some?
      && Track(Apply(s, cs.value).value, RecordBlock(p, s.height, block))
    decreases |block|
  {
    if block != [] {
      LimitsDecodable(s, p, block);
      TxStep(provider, s, p, block[0]);
      var cs := TxChanges(provider, s, block[0]);
      ApplyKeepsFrame(s, cs);
      var s' := Apply(s, cs).value;
      BlockStep(provider, s', Record(p, s.height, block[0]), block[1..]);
      BlockJoin(provider, s, block, cs, s');
    }
  }

  lemma BlockJoin(provider: Provider, s: State, block: Block, cs: seq<Change>, s': State)
    requires block != [] && cs == TxChanges(provider, s, block[0]) && Decodable(s, block[0])
    requires Good(s, cs) && Apply(s, cs) == Some(s')
    requires
      var rest := BlockChanges(provider, s', block[1..]);
      rest.Some? && Good(s', rest.value) && Apply(s', rest.value).Some?
    ensures
      var rest := BlockChanges(provider, s', block[1..]).value;
      && BlockChanges(provider, s, block) == Some(cs + rest)
      && Good(s, cs + rest) && Apply(s, cs + rest) == Apply(s', rest)
  {
    var rest := BlockChanges(provider, s', block[1..]).value;
    ApplyAppend(s, cs, rest);
    GoodAppend(s, cs, rest);
  }
}
