/**
 The watch set the tracker keeps for a monitor from the adds and removes it reports: after
 every added block it is exactly what is still of interest.
 */
module MonitorWatch {
  import opened Options
  import opened Chain
  import opened Closing
  import opened ClosingTruth
  import opened MonitorState
  import opened MonitorDecode
  import opened MonitorBlocks
  import opened MonitorReplay
  import opened MonitorTruth
  import opened MonitorReparse
  import opened MonitorReorg

  function AsSet(xs: seq<OutPoint>): set<OutPoint> {
    set i | 0 <= i < |xs| :: xs[i]
  }

  /** The tracker's update of a listener's watches when a block is added. */
  function TrackerAdd(watches: set<OutPoint>, e: Effect): set<OutPoint> {
    watches + AsSet(e.adds) - AsSet(e.removes)
  }

  /** The tracker's update when a block is removed. */
  function TrackerRemove(watches: set<OutPoint>, e: Effect): set<OutPoint> {
    watches + AsSet(e.removes) - AsSet(e.adds)
  }

  /** What is still of interest: unspent funding inputs, the funding outpoint until a close
      is recorded, and the unspent tracked outputs of the close. */
  ghost predicate Watched(s: State, spent: set<OutPoint>, o: OutPoint) {
    || (o in s.fundingInputs && o !in spent)
    || (s.fundingOutpoint == Some(o) && s.closing.None? && s.mutualHeight.None?)
    || (s.closing.Some? && Tracks(s.closing.value, o) && o !in spent)
  }

  ghost predicate WatchesExactly(watches: set<OutPoint>, s: State, p: Past) {
    forall o :: o in watches <==> Watched(s, p.spentBy.Keys, o)
  }

  // ---------------------------------------------------------------------------
  // The reports of a list of changes, as sets
  // ---------------------------------------------------------------------------

  function AddSet(s: State, cs: seq<Change>): set<OutPoint>
    decreases |cs|
  {
    if cs == [] || Forward(s, cs[0]).None? then {}
    else AsSet(ForwardAdds(s, cs[0])) + AddSet(Forward(s, cs[0]).value, cs[1..])
  }

  function RemoveSet(s: State, cs: seq<Change>): set<OutPoint>
    decreases |cs|
  {
    if cs == [] || Forward(s, cs[0]).None? then {}
    else AsSet(ForwardRemoves(s, cs[0])) + RemoveSet(Forward(s, cs[0]).value, cs[1..])
  }

  lemma AsSetAppend(xs: seq<OutPoint>, ys: seq<OutPoint>)
    ensures AsSet(xs + ys) == AsSet(xs) + AsSet(ys)
  {
    forall o | o in AsSet(xs) + AsSet(ys) ensures o in AsSet(xs + ys) {
      if o in AsSet(xs) {
        var i :| 0 <= i < |xs| && xs[i] == o;
        assert (xs + ys)[i] == o;
      } else {
        var i :| 0 <= i < |ys| && ys[i] == o;
        assert (xs + ys)[|xs| + i] == o;
      }
    }
  }

  lemma {:induction false} ReportsAreSets(e: Effect, cs: seq<Change>)
    requires ForwardAll(e, cs).Some?
    ensures AsSet(ForwardAll(e, cs).value.adds) == AsSet(e.adds) + AddSet(e.state, cs)
    ensures AsSet(ForwardAll(e, cs).value.removes) == AsSet(e.removes) + RemoveSet(e.state, cs)
    decreases |cs|
  {
    if cs != [] {
      ReportsAreSets(ForwardEffect(e, cs[0]).value, cs[1..]);
      AsSetAppend(e.adds, ForwardAdds(e.state, cs[0]));
      AsSetAppend(e.removes, ForwardRemoves(e.state, cs[0]));
    }
  }

  lemma {:induction false} SetsAppend(s: State, xs: seq<Change>, ys: seq<Change>)
    requires Apply(s, xs).Some?
    ensures AddSet(s, xs + ys) == AddSet(s, xs) + AddSet(Apply(s, xs).value, ys)
    ensures RemoveSet(s, xs + ys) == RemoveSet(s, xs) + RemoveSet(Apply(s, xs).value, ys)
    decreases |xs|
  {
    if xs == [] {
      assert xs + ys == ys;
    } else {
      assert (xs + ys)[0] == xs[0] && (xs + ys)[1..] == xs[1..] + ys;
      SetsAppend(Forward(s, xs[0]).value, xs[1..], ys);
    }
  }

  lemma AsSetOne(o: OutPoint)
    ensures AsSet([o]) == {o} && AsSet([]) == {}
  {
    assert [o][0] == o;
  }

  // ---------------------------------------------------------------------------
  // One transaction
  // ---------------------------------------------------------------------------

  /** The inputs whose spend is reported while the inputs are read. */
  ghost predicate ReadsAtOnce(s: State, o: OutPoint) {
    o in s.fundingInputs || TrackedOutputChange(s, o) != []
  }

  lemma TrackedSets(t: State, o: OutPoint)
    requires Apply(t, TrackedOutputChange(t, o)).Some?
    ensures AddSet(t, TrackedOutputChange(t, o)) == {}
    ensures RemoveSet(t, TrackedOutputChange(t, o)) == if TrackedOutputChange(t, o) != [] then {o} else {}
  {
    var b := TrackedOutputChange(t, o);
    if b != [] {
      assert Forward(t, b[0]).Some?;
      AsSetOne(o);
      assert ForwardRemoves(t, b[0]) == [o];
      assert ForwardAdds(t, b[0]) == [];
    }
  }

  lemma InputSets(t: State, o: OutPoint)
    requires Apply(t, FundingInputChange(t, o) + TrackedOutputChange(t, o)).Some?
    ensures AddSet(t, FundingInputChange(t, o) + TrackedOutputChange(t, o)) == {}
    ensures RemoveSet(t, FundingInputChange(t, o) + TrackedOutputChange(t, o)) == if ReadsAtOnce(t, o) then {o} else {}
  {
    var a, b := FundingInputChange(t, o), TrackedOutputChange(t, o);
    if a == [] {
      assert a + b == b;
      TrackedSets(t, o);
    } else {
      var c := FundingInputSpent(o);
      var u := Forward(t, c).value;
      AsSetOne(o);
      ApplyAppend(t, a, b);
      SetsAppend(t, a, b);
      assert TrackedOutputChange(u, o) == b;
      TrackedSets(u, o);
    }
  }

  ghost function AtOnce(s: State, inputs: seq<OutPoint>): set<OutPoint> {
    set o | o in inputs && ReadsAtOnce(s, o)
  }

  lemma AtOnceAppend(s: State, rest: seq<OutPoint>, o: OutPoint)
    ensures AtOnce(s, rest + [o]) == AtOnce(s, rest) + if ReadsAtOnce(s, o) then {o} else {}
  {
    assert forall x :: x in rest + [o] <==> x in rest || x == o;
  }

  /** The reports of the first `inputs`. */
  ghost predicate InputsReported(s: State, inputs: seq<OutPoint>) {
    var cs := InputChanges(s, inputs);
    AddSet(s, cs) == {} && RemoveSet(s, cs) == AtOnce(s, inputs)
  }

  lemma InputsReportedStep(s: State, rest: seq<OutPoint>, o: OutPoint)
    requires Apply(s, InputChanges(s, rest)).Some? && InputsReported(s, rest)
    requires Apply(s, InputChanges(s, rest + [o])).Some?
    ensures InputsReported(s, rest + [o])
  {
    ReadOneMore(s, rest, o);
    var before, last := InputChanges(s, rest), FundingInputChange(s, o) + TrackedOutputChange(s, o);
    var t := Apply(s, before).value;
    ApplyAppend(s, before, last);
    SetsAppend(s, before, last);
    InputChangesAreInputChanges(s, rest);
    InputChangesKeepTargets(s, before);
    SameTargetsSameReading(s, t, o);
    InputSets(t, o);
    AtOnceAppend(s, rest, o);
  }

  lemma {:induction false} InputsSets(s: State, inputs: seq<OutPoint>)
    requires Apply(s, InputChanges(s, inputs)).Some?
    ensures InputsReported(s, inputs)
    decreases |inputs|
  {
    if inputs != [] {
      var n := |inputs| - 1;
      assert inputs == inputs[..n] + [inputs[n]];
      ReadOneMore(s, inputs[..n], inputs[n]);
      ApplyAppend(s, InputChanges(s, inputs[..n]),
                  FundingInputChange(s, inputs[n]) + TrackedOutputChange(s, inputs[n]));
      InputsSets(s, inputs[..n]);
      InputsReportedStep(s, inputs[..n], inputs[n]);
    }
  }

  function SecondLevels(s: State, txid: Txid, inputs: seq<OutPoint>): set<OutPoint> {
    set i | 0 <= i < |inputs| && SpendsHtlc(s, inputs[i]) :: OutPoint(txid, i)
  }

  /** The reports of the HTLC spends of the first `inputs`. */
  ghost predicate HtlcsReported(s: State, u: State, txid: Txid, inputs: seq<OutPoint>) {
    var cs := HtlcChanges(txid, HtlcSpends(s, inputs));
    && Apply(u, cs).Some?
    && Apply(u, cs).value.closing.Some?
    && Apply(u, cs).value.closing.value.txid == ClosingTxid(s)
    && RemoveSet(u, cs) == HtlcsSpent(s, inputs)
    && AddSet(u, cs) == SecondLevels(s, txid, inputs)
  }

  lemma HtlcSetsOne(v: State, o: OutPoint, c: Change)
    requires v.closing.Some? && v.closing.value.txid == o.txid
    requires c.HtlcOutputSpent? && c.vout == o.vout && Forward(v, c).Some?
    ensures RemoveSet(v, [c]) == {o} && AddSet(v, [c]) == {c.second}
    ensures Apply(v, [c]) == Forward(v, c)
    ensures Forward(v, c).value.closing.Some? && Forward(v, c).value.closing.value.txid == o.txid
  {
    AsSetOne(o);
    AsSetOne(c.second);
  }

  lemma SecondLevelsAppend(s: State, txid: Txid, rest: seq<OutPoint>, o: OutPoint)
    ensures SecondLevels(s, txid, rest + [o]) ==
            SecondLevels(s, txid, rest) + if SpendsHtlc(s, o) then {OutPoint(txid, |rest|)} else {}
    ensures HtlcsSpent(s, rest + [o]) == HtlcsSpent(s, rest) + if SpendsHtlc(s, o) then {o} else {}
  {
    var all := rest + [o];
    assert forall x :: x in all <==> x in rest || x == o;
    assert forall i :: 0 <= i < |rest| ==> all[i] == rest[i];
    assert all[|rest|] == o;
    forall x | x in SecondLevels(s, txid, rest) ensures x in SecondLevels(s, txid, all) {
      var i :| 0 <= i < |rest| && SpendsHtlc(s, rest[i]) && x == OutPoint(txid, i);
      assert SpendsHtlc(s, all[i]);
    }
  }

  lemma HtlcsReportedStep(s: State, u: State, txid: Txid, rest: seq<OutPoint>, o: OutPoint)
    requires s.closing.Some? && HtlcsReported(s, u, txid, rest)
    requires Apply(u, HtlcChanges(txid, HtlcSpends(s, rest + [o]))).Some?
    ensures HtlcsReported(s, u, txid, rest + [o])
  {
    ReadOneMore(s, rest, o);
    SecondLevelsAppend(s, txid, rest, o);
    var n := |rest|;
    var before := HtlcChanges(txid, HtlcSpends(s, rest));
    if SpendsHtlc(s, o) {
      HtlcChangesAppend(txid, HtlcSpends(s, rest), (o.vout, n));
      var c := HtlcOutputSpent(o.vout, OutPoint(txid, n));
      ApplyAppend(u, before, [c]);
      SetsAppend(u, before, [c]);
      var v := Apply(u, before).value;
      assert Forward(v, c).Some?;
      HtlcSetsOne(v, o, c);
    } else {
      assert HtlcSpends(s, rest + [o]) == HtlcSpends(s, rest);
    }
  }

  lemma {:induction false} HtlcSets(s: State, u: State, txid: Txid, inputs: seq<OutPoint>)
    requires s.closing.Some? && u.closing.Some? && u.closing.value.txid == s.closing.value.txid
    requires Apply(u, HtlcChanges(txid, HtlcSpends(s, inputs))).Some?
    ensures HtlcsReported(s, u, txid, inputs)
    decreases |inputs|
  {
    if inputs != [] {
      var n := |inputs| - 1;
      var rest, o := inputs[..n], inputs[n];
      assert inputs == rest + [o];
      HtlcPrefixApplies(s, u, txid, rest, o);
      HtlcSets(s, u, txid, rest);
      HtlcsReportedStep(s, u, txid, rest, o);
    }
  }

  lemma HtlcPrefixApplies(s: State, u: State, txid: Txid, rest: seq<OutPoint>, o: OutPoint)
    requires Apply(u, HtlcChanges(txid, HtlcSpends(s, rest + [o]))).Some?
    ensures Apply(u, HtlcChanges(txid, HtlcSpends(s, rest))).Some?
  {
    ReadOneMore(s, rest, o);
    if SpendsHtlc(s, o) {
      HtlcChangesAppend(txid, HtlcSpends(s, rest), (o.vout, |rest|));
      ApplyAppend(u, HtlcChanges(txid, HtlcSpends(s, rest)), [HtlcOutputSpent(o.vout, OutPoint(txid, |rest|))]);
    } else {
      assert HtlcSpends(s, rest + [o]) == HtlcSpends(s, rest);
    }
  }

  /** The outpoints a transaction makes the monitor stop watching. */
  ghost predicate RemovedBy(s: State, tx: Tx, o: OutPoint) {
    && o in tx.inputs
    && (|| o in s.fundingInputs
        || (s.closing.Some? && Tracks(s.closing.value, o))
        || (SpendsOnlyFunding(s, tx) && tx.txid !in s.fundingTxids))
  }

  lemma RemovedWithClosing(provider: Provider, s: State, p: Past, tx: Tx)
    requires Track(s, p) && ValidTx(p, tx) && s.closing.Some?
    ensures forall o :: o in RemoveSet(s, TxChanges(provider, s, tx)) <==> RemovedBy(s, tx, o)
  {
    TxWithClosing(provider, s, p, tx);
    StepWithClosing(provider, s, p, tx);
    InputsOfTx(s, p, tx);
    var a := InputChanges(s, tx.inputs);
    var e := HtlcChanges(tx.txid, HtlcSpends(s, tx.inputs));
    var t := Apply(s, a).value;
    ApplyAppend(s, a, e);
    SetsAppend(s, a, e);
    InputsSets(s, tx.inputs);
    HtlcSets(s, t, tx.txid, tx.inputs);
    assert s.fundingOutpoint.value in p.spentBy;
    assert !SpendsOnlyFunding(s, tx);
    TrackedIsReported(s, tx);
  }

  lemma TrackedIsReported(s: State, tx: Tx)
    requires s.closing.Some? && !SpendsOnlyFunding(s, tx)
    ensures forall o :: o in AtOnce(s, tx.inputs) + HtlcsSpent(s, tx.inputs) <==> RemovedBy(s, tx, o)
  {
  }

  lemma RemovedWithoutClosing(provider: Provider, s: State, p: Past, tx: Tx)
    requires Track(s, p) && ValidTx(p, tx) && s.closing.None?
    ensures forall o :: o in RemoveSet(s, TxChanges(provider, s, tx)) <==> RemovedBy(s, tx, o)
  {
    NoHtlcSpends(s, tx.inputs);
    InputsOfTx(s, p, tx);
    var a := InputChanges(s, tx.inputs);
    var t := Apply(s, a).value;
    InputsSets(s, tx.inputs);
    var tail := EndChanges(provider, s, tx);
    TxChangesSplit(provider, s, tx);
    SetsAppend(s, a, tail);
    EndRemoves(provider, s, t, tx);
  }

  lemma EndRemoves(provider: Provider, s: State, t: State, tx: Tx)
    requires WatchesOk(s) && HtlcSpends(s, tx.inputs) == []
    ensures RemoveSet(t, EndChanges(provider, s, tx)) ==
            if SpendsOnlyFunding(s, tx) && tx.txid !in s.fundingTxids then {tx.inputs[0]} else {}
  {
    if tx.txid in s.fundingTxids {
      var c := FundingConfirmed(OutPoint(tx.txid, s.fundingVouts[0]));
      assert EndChanges(provider, s, tx) == [c];
      assert AsSet([]) == {};
    } else if SpendsOnlyFunding(s, tx) {
      var c := Classify(provider, tx.txid, Gathered(s, tx).value.(lockTime := tx.lockTime));
      assert EndChanges(provider, s, tx) == [c];
      AsSetOne(tx.inputs[0]);
    } else {
      assert EndChanges(provider, s, tx) == [];
    }
  }

  // ---------------------------------------------------------------------------
  // What becomes of interest
  // ---------------------------------------------------------------------------

  ghost predicate Interesting(s: State, o: OutPoint) {
    s.fundingOutpoint == Some(o) || (s.closing.Some? && Tracks(s.closing.value, o))
  }

  lemma InterestOfChange(s: State, c: Change, o: OutPoint)
    requires Fresh(s, c) && Forward(s, c).Some?
    ensures Interesting(Forward(s, c).value, o) <==> Interesting(s, o) || o in AsSet(ForwardAdds(s, c))
  {
    match c
    case HtlcOutputSpent(v, second) =>
      HasAppend(s.closing.value.secondLevel, SecondLevel(second, false), o);
      AsSetOne(second);
    case SecondLevelSpent(x) => SetHas(s.closing.value.secondLevel, x, true, o);
    case FundingConfirmed(x) => AsSetOne(x);
    case UnilateralClose(txid, _, our, htlcs) => CloseOutputs(txid, our, htlcs, o);
    case _ =>
  }

  lemma CloseOutputs(txid: Txid, our: Option<nat>, htlcs: seq<nat>, o: OutPoint)
    ensures o in AsSet((if our.Some? then [OutPoint(txid, our.value)] else []) + Outputs(txid, htlcs)) <==>
            Tracks(Closing.New(txid, our, htlcs), o)
  {
    var ours := if our.Some? then [OutPoint(txid, our.value)] else [];
    AsSetAppend(ours, Outputs(txid, htlcs));
    if our.Some? { AsSetOne(OutPoint(txid, our.value)); }
    if o.txid == txid && o.vout in htlcs {
      var i :| 0 <= i < |htlcs| && htlcs[i] == o.vout;
      assert Outputs(txid, htlcs)[i] == o;
    }
  }

  lemma {:induction false} InterestGrows(s: State, cs: seq<Change>, o: OutPoint)
    requires Good(s, cs)
    ensures Apply(s, cs).Some?
    ensures Interesting(Apply(s, cs).value, o) <==> Interesting(s, o) || o in AddSet(s, cs)
    decreases |cs|
  {
    if cs != [] {
      InterestOfChange(s, cs[0], o);
      InterestGrows(Forward(s, cs[0]).value, cs[1..], o);
    }
  }

  lemma {:induction false} AddsAreMade(s: State, cs: seq<Change>, txids: set<Txid>, o: OutPoint)
    requires AllMadeBy(cs, txids) && o in AddSet(s, cs)
    ensures o.txid in txids
    decreases |cs|
  {
    assert forall i :: 0 <= i < |cs[1..]| ==> cs[1..][i] == cs[i + 1];
    if o !in AsSet(ForwardAdds(s, cs[0])) {
      AddsAreMade(Forward(s, cs[0]).value, cs[1..], txids, o);
    } else {
      var xs := ForwardAdds(s, cs[0]);
      var i :| 0 <= i < |xs| && xs[i] == o;
    }
  }

  ghost predicate Closed(s: State) {
    s.closing.Some? || s.mutualHeight.Some?
  }

  lemma {:induction false} CloseRecorded(s: State, cs: seq<Change>)
    requires Apply(s, cs).Some?
    ensures Closed(Apply(s, cs).value) <==> Closed(s) || (exists c :: c in cs && IsClose(c))
    decreases |cs|
  {
    if cs != [] {
      CloseRecorded(Forward(s, cs[0]).value, cs[1..]);
      assert forall c :: c in cs <==> c == cs[0] || c in cs[1..];
      assert cs[0] in cs;
    }
  }

  // ---------------------------------------------------------------------------
  // The watch set over a transaction
  // ---------------------------------------------------------------------------

  /** Everything the step needs to know about a transaction's effect. */
  ghost predicate TxEffect(s: State, t: State, p: Past, p': Past, tx: Tx, adds: set<OutPoint>) {
    && Track(s, p) && Track(t, p') && ValidTx(p, tx) && p' == Record(p, s.height, tx)
    && t.fundingInputs == s.fundingInputs && t.fundingTxids == s.fundingTxids
    && (Closed(t) <==> Closed(s) || (SpendsOnlyFunding(s, tx) && tx.txid !in s.fundingTxids))
    && (forall o :: Interesting(t, o) <==> Interesting(s, o) || o in adds)
    && (forall o :: o in adds ==> o.txid == tx.txid)
  }

  lemma TxHasEffect(provider: Provider, s: State, p: Past, tx: Tx)
    requires Track(s, p) && ValidTx(p, tx) && FundsWith(s, tx) && ProviderOk(provider)
    ensures
      var cs := TxChanges(provider, s, tx);
      Apply(s, cs).Some? && TxEffect(s, Apply(s, cs).value, p, Record(p, s.height, tx), tx, AddSet(s, cs))
  {
    TxStep(provider, s, p, tx);
    ApplyKeepsFrame(s, TxChanges(provider, s, tx));
    TxInterest(provider, s, tx);
  }

  /** The part of the effect that does not depend on the chain. */
  lemma TxInterest(provider: Provider, s: State, tx: Tx)
    requires Good(s, TxChanges(provider, s, tx)) && Apply(s, TxChanges(provider, s, tx)).Some?
    ensures
      var cs := TxChanges(provider, s, tx);
      var t := Apply(s, cs).value;
      && (Closed(t) <==> Closed(s) || (SpendsOnlyFunding(s, tx) && tx.txid !in s.fundingTxids))
      && (forall o :: Interesting(t, o) <==> Interesting(s, o) || o in AddSet(s, cs))
      && (forall o :: o in AddSet(s, cs) ==> o.txid == tx.txid)
  {
    var cs := TxChanges(provider, s, tx);
    CloseRecorded(s, cs);
    TxChangesClose(provider, s, tx);
    TxMadeBy(provider, s, tx);
    forall o ensures Interesting(Apply(s, cs).value, o) <==> Interesting(s, o) || o in AddSet(s, cs) {
      InterestGrows(s, cs, o);
    }
    forall o | o in AddSet(s, cs) ensures o.txid == tx.txid {
      AddsAreMade(s, cs, {tx.txid}, o);
    }
  }

  /** The funding outpoint is recorded, confirmed, and not an output of the close. */
  lemma FundingApart(s: State, p: Past, o: OutPoint)
    requires Track(s, p) && s.fundingOutpoint == Some(o)
    ensures o.txid in p.at && o != COINBASE && o !in s.fundingInputs
  {
  }

  lemma NewApart(s: State, p: Past, tx: Tx, o: OutPoint)
    requires Track(s, p) && ValidTx(p, tx) && o.txid == tx.txid
    ensures !Interesting(s, o) && o !in p.spentBy && o !in tx.inputs && o != COINBASE
  {
    if s.closing.Some? {
      var c := s.closing.value;
      assert c.txid in p.at;
      forall i | 0 <= i < |c.secondLevel| ensures c.secondLevel[i].outpoint != o {
        assert c.secondLevel[i].outpoint.txid in p.at;
      }
    }
  }

  lemma WatchTxAt(s: State, t: State, p: Past, p': Past, tx: Tx, adds: set<OutPoint>, o: OutPoint)
    requires TxEffect(s, t, p, p', tx, adds)
    ensures Watched(t, p'.spentBy.Keys, o) <==>
            (Watched(s, p.spentBy.Keys, o) || o in adds) && !RemovedBy(s, tx, o)
  {
    CoinbaseUntracked(s, p);
    CoinbaseUntracked(t, p');
    if o == COINBASE {
    } else {
      if s.fundingOutpoint == Some(o) { FundingApart(s, p, o); }
      if t.fundingOutpoint == Some(o) { FundingApart(t, p', o); }
      if o in adds { NewApart(s, p, tx, o); }
    }
  }

  /** The tracker's watch set, kept exact through one transaction. */
  lemma WatchTx(provider: Provider, s: State, p: Past, tx: Tx, watches: set<OutPoint>)
    requires Track(s, p) && ValidTx(p, tx) && FundsWith(s, tx) && ProviderOk(provider) && WatchesExactly(watches, s, p)
    ensures
      var cs := TxChanges(provider, s, tx);
      && Apply(s, cs).Some?
      && WatchesExactly(watches + AddSet(s, cs) - RemoveSet(s, cs), Apply(s, cs).value, Record(p, s.height, tx))
  {
    var cs := TxChanges(provider, s, tx);
    TxHasEffect(provider, s, p, tx);
    if s.closing.Some? { RemovedWithClosing(provider, s, p, tx); } else { RemovedWithoutClosing(provider, s, p, tx); }
    forall o ensures o in watches + AddSet(s, cs) - RemoveSet(s, cs) <==>
                     Watched(Apply(s, cs).value, Record(p, s.height, tx).spentBy.Keys, o)
    {
      WatchTxAt(s, Apply(s, cs).value, p, Record(p, s.height, tx), tx, AddSet(s, cs), o);
    }
  }

  // ---------------------------------------------------------------------------
  // The watch set over a block
  // ---------------------------------------------------------------------------

  lemma RemovesAreInputs(provider: Provider, s: State, p: Past, tx: Tx)
    requires Track(s, p) && ValidTx(p, tx)
    ensures forall o :: o in RemoveSet(s, TxChanges(provider, s, tx)) ==> o in tx.inputs
  {
    if s.closing.Some? { RemovedWithClosing(provider, s, p, tx); } else { RemovedWithoutClosing(provider, s, p, tx); }
  }

  /** Nothing a later transaction adds was removed by an earlier one. */
  lemma AddsAreLater(provider: Provider, s: State, p: Past, block: Block, s': State, rest: seq<Change>)
    requires Track(s, p) && block != [] && ValidBlock(p, s.height, block)
    requires BlockChanges(provider, s', block[1..]) == Some(rest)
    ensures AddSet(s', rest) !! RemoveSet(s, TxChanges(provider, s, block[0]))
  {
    RemovesAreInputs(provider, s, p, block[0]);
    FirstInputsAreEarlier(p, s.height, block);
    TxidsCons(block);
    BlockMadeBy(provider, s', block[1..]);
    forall o | o in AddSet(s', rest) ensures o !in RemoveSet(s, TxChanges(provider, s, block[0])) {
      AddsAreMade(s', rest, Txids(block[1..]), o);
    }
  }

  lemma {:induction false} WatchBlock(provider: Provider, s: State, p: Past, block: Block, watches: set<OutPoint>)
    requires Track(s, p) && ValidBlock(p, s.height, block) && ProviderOk(provider)
    requires WithinLimits(s.fundingTxids, s.fundingVouts, s.fundingInputs, block) && WatchesExactly(watches, s, p)
    ensures
      var cs := BlockChanges(provider, s, block);
      && cs.Some? && Apply(s, cs.value).Some?
      && WatchesExactly(watches + AddSet(s, cs.value) - RemoveSet(s, cs.value),
                        Apply(s, cs.value).value, RecordBlock(p, s.height, block))
    decreases |block|
  {
    if block == [] {
      assert watches + {} - {} == watches;
    } else {
      LimitsDecodable(s, p, block);
      TxStep(provider, s, p, block[0]);
      WatchTx(provider, s, p, block[0], watches);
      var cs := TxChanges(provider, s, block[0]);
      ApplyKeepsFrame(s, cs);
      var s' := Apply(s, cs).value;
      var watches' := watches + AddSet(s, cs) - RemoveSet(s, cs);
      WatchBlock(provider, s', Record(p, s.height, block[0]), block[1..], watches');
      WatchJoin(provider, s, p, block, watches, cs, s');
    }
  }

  lemma WatchJoin(provider: Provider, s: State, p: Past, block: Block, watches: set<OutPoint>, cs: seq<Change>, s': State)
    requires Track(s, p) && block != [] && ValidBlock(p, s.height, block)
    requires cs == TxChanges(provider, s, block[0]) && Decodable(s, block[0]) && Apply(s, cs) == Some(s')
    requires BlockChanges(provider, s', block[1..]).Some?
    requires Apply(s', BlockChanges(provider, s', block[1..]).value).Some?
    ensures
      var rest := BlockChanges(provider, s', block[1..]).value;
      && BlockChanges(provider, s, block) == Some(cs + rest)
      && Apply(s, cs + rest) == Apply(s', rest)
      && watches + AddSet(s, cs + rest) - RemoveSet(s, cs + rest)
         == (watches + AddSet(s, cs) - RemoveSet(s, cs)) + AddSet(s', rest) - RemoveSet(s', rest)
  {
    var rest := BlockChanges(provider, s', block[1..]).value;
    ApplyAppend(s, cs, rest);
    SetsAppend(s, cs, rest);
    AddsAreLater(provider, s, p, block, s', rest);
  }

  /** The reports of an added block, as sets. */
  lemma BlockReports(s: State, cs: seq<Change>)
    requires Apply(Raised(s), cs).Some?
    ensures AddBlockEnd(s, cs).Some?
    ensures
      var e := AddBlockEnd(s, cs).value;
      && e.state == Settle(s, Apply(Raised(s), cs).value)
      && AsSet(e.adds) == AddSet(Raised(s), cs) && AsSet(e.removes) == RemoveSet(Raised(s), cs)
  {
    AddBlockEndState(s, cs);
    ForwardAllState(Effect(Raised(s), [], []), cs);
    ReportsAreSets(Effect(Raised(s), [], []), cs);
  }

  /** Adding a block keeps the tracker's watch set exactly what is still of interest. */
  lemma ForwardWatch(provider: Provider, s: State, p: Past, hash: BlockHash, block: Block, watches: set<OutPoint>)
    requires Inv(s, p) && NextBlock(provider, s, p, block) && WatchesExactly(watches, s, p)
    ensures AddBlock(provider, s, hash, block).Some?
    ensures
      var e := AddBlock(provider, s, hash, block).value;
      WatchesExactly(TrackerAdd(watches, e), e.state, RecordBlock(p, s.height + 1, block))
  {
    TrackRaised(s, p);
    WatchesRaised(watches, s, p);
    WatchNext(provider, s, Raised(s), s.height + 1, p, hash, block, watches);
  }

  lemma WatchNext(provider: Provider, s: State, t: State, height: nat, p: Past, hash: BlockHash, block: Block,
                  watches: set<OutPoint>)
    requires t == Raised(s) && height == t.height && Track(t, p) && ValidBlock(p, height, block) && ProviderOk(provider)
    requires WithinLimits(s.fundingTxids, s.fundingVouts, s.fundingInputs, block) && WatchesExactly(watches, t, p)
    ensures AddBlock(provider, s, hash, block).Some?
    ensures
      var e := AddBlock(provider, s, hash, block).value;
      WatchesExactly(TrackerAdd(watches, e), e.state, RecordBlock(p, height, block))
  {
    WatchBlock(provider, t, p, block, watches);
    WatchAdded(provider, s, hash, block, BlockChanges(provider, t, block).value, RecordBlock(p, height, block), watches);
  }

  lemma WatchAdded(provider: Provider, s: State, hash: BlockHash, block: Block, cs: seq<Change>, p: Past, watches: set<OutPoint>)
    requires BlockChanges(provider, Raised(s), block) == Some(cs) && Apply(Raised(s), cs).Some?
    requires WatchesExactly(watches + AddSet(Raised(s), cs) - RemoveSet(Raised(s), cs), Apply(Raised(s), cs).value, p)
    ensures AddBlock(provider, s, hash, block).Some?
    ensures var e := AddBlock(provider, s, hash, block).value; WatchesExactly(TrackerAdd(watches, e), e.state, p)
  {
    AddBlockShape(provider, s, hash, block);
    WatchCommitted(s, cs, p, watches);
  }

  lemma WatchCommitted(s: State, cs: seq<Change>, p: Past, watches: set<OutPoint>)
    requires Apply(Raised(s), cs).Some?
    requires WatchesExactly(watches + AddSet(Raised(s), cs) - RemoveSet(Raised(s), cs), Apply(Raised(s), cs).value, p)
    ensures AddBlockEnd(s, cs).Some?
    ensures var e := AddBlockEnd(s, cs).value; WatchesExactly(TrackerAdd(watches, e), e.state, p)
  {
    BlockReports(s, cs);
  }

  lemma WatchesRaised(watches: set<OutPoint>, s: State, p: Past)
    requires WatchesExactly(watches, s, p)
    ensures WatchesExactly(watches, Raised(s), p)
  {
    forall o ensures o in watches <==> Watched(Raised(s), p.spentBy.Keys, o) {
      assert Watched(s, p.spentBy.Keys, o) <==> Watched(Raised(s), p.spentBy.Keys, o);
    }
  }

}
