/**
 The push decoder: the listener that turns a block's event stream into a list of
 changes, keeping a shadow copy of the state. Its run over a transaction is proved
 equal to `TxChanges`, which reads the changes off the transaction as a whole.
 */
module MonitorDecode {
  import opened Options
  import opened Chain
  import opened Closing
  import opened MonitorState

  const MAX_COMMITMENT_OUTPUTS := 600

  /** The part of a spend of the funding that is gathered to classify it. */
  datatype ClosingTx = ClosingTx(version: int, lockTime: nat, input: OutPoint, outputs: seq<TxOut>)

  /** The commitment point provider's reading of a gathered transaction. */
  datatype Reading = NotACommitment | Commitment(our: Option<nat>, htlcs: seq<nat>)

  type Provider = ClosingTx -> Reading

  datatype Decode = Decode(
    changes: seq<Change>,
    version: int,
    inputNum: nat,
    outputNum: nat,
    closingTx: Option<ClosingTx>,
    spentHtlcs: seq<(nat, nat)>,
    blockHash: Option<BlockHash>,
    shadow: State)

  datatype Listener = Listener(decode: Decode, sawBlock: bool)

  datatype Event =
    | BlockStart(hash: BlockHash)
    | TxStart(version: int)
    | TxInput(previous: OutPoint)
    | TxOutput(output: TxOut)
    | TxEnd(lockTime: nat, txid: Txid)
    | BlockEnd

  function NewDecode(s: State, hash: Option<BlockHash>): Decode {
    Decode([], 0, 0, 0, None, [], hash, s)
  }

  function AddChange(d: Decode, c: Change): Option<Decode> {
    var s := Forward(d.shadow, c);
    if s.None? then None else Some(d.(changes := d.changes + [c], shadow := s.value))
  }

  /** The changes recorded and applied to the shadow, in order. */
  function AddChanges(d: Decode, cs: seq<Change>): Option<Decode> {
    var s := Apply(d.shadow, cs);
    if s.None? then None else Some(d.(changes := d.changes + cs, shadow := s.value))
  }

  function OnTxStart(d: Decode, version: int): Decode {
    d.(version := version, inputNum := 0, outputNum := 0, closingTx := None, spentHtlcs := [])
  }

  /** The changes and the HTLC spend an input causes, given the state it is read against. */
  function FundingInputChange(s: State, o: OutPoint): seq<Change> {
    if o in s.fundingInputs then [FundingInputSpent(o)] else []
  }

  function TrackedOutputChange(s: State, o: OutPoint): seq<Change> {
    if s.closing.None? then []
    else if s.closing.value.IncludesOurOutput(o) then [OurOutputSpent(o.vout)]
    else if s.closing.value.IncludesHtlcOutput(o) then []
    else if s.closing.value.IncludesSecondLevel(o) then [SecondLevelSpent(o)]
    else []
  }

  predicate SpendsHtlc(s: State, o: OutPoint) {
    s.closing.Some? && !s.closing.value.IncludesOurOutput(o) && s.closing.value.IncludesHtlcOutput(o)
  }

  function OnInput(d: Decode, o: OutPoint): Option<Decode> {
    var d1 := AddChanges(d, FundingInputChange(d.shadow, o));
    if d1.None? then None else
      var d2 := if d1.value.shadow.fundingOutpoint == Some(o)
                then d1.value.(closingTx := Some(ClosingTx(d.version, 0, o, [])))
                else d1.value;
      var d3 := if SpendsHtlc(d2.shadow, o)
                then d2.(spentHtlcs := d2.spentHtlcs + [(o.vout, d2.inputNum)])
                else d2;
      var d4 := AddChanges(d3, TrackedOutputChange(d3.shadow, o));
      if d4.None? then None else
        Some(d4.value.(closingTx := if d4.value.inputNum != 0 then None else d4.value.closingTx,
                       inputNum := d4.value.inputNum + 1))
  }

  function OnOutput(d: Decode, output: TxOut): Option<Decode> {
    if d.closingTx.Some? && d.outputNum >= MAX_COMMITMENT_OUTPUTS then None else
      Some(d.(closingTx := if d.closingTx.None? then None
                           else Some(d.closingTx.value.(outputs := d.closingTx.value.outputs + [output])),
              outputNum := d.outputNum + 1))
  }

  /** A tracked funding transaction confirmed. */
  function FundingChange(s: State, txid: Txid): seq<Change> {
    if txid in s.fundingTxids && FirstVout(s.fundingTxids, txid) < |s.fundingVouts|
    then [FundingConfirmed(OutPoint(txid, s.fundingVouts[FirstVout(s.fundingTxids, txid)]))]
    else []
  }

  predicate HasFundingOutput(s: State, txid: Txid, outputNum: nat) {
    txid in s.fundingTxids ==>
      && FirstVout(s.fundingTxids, txid) < |s.fundingVouts|
      && s.fundingVouts[FirstVout(s.fundingTxids, txid)] < outputNum
  }

  function Classify(provider: Provider, txid: Txid, t: ClosingTx): Change {
    match provider(t)
    case NotACommitment => MutualClose(txid, t.input)
    case Commitment(our, htlcs) => UnilateralClose(txid, t.input, our, htlcs)
  }

  /** A gathered funding spend is a close unless it creates the tracked funding. */
  function CloseChange(provider: Provider, s: State, txid: Txid, gathered: Option<ClosingTx>, lockTime: nat): seq<Change> {
    if gathered.None? || txid in s.fundingTxids then []
    else [Classify(provider, txid, gathered.value.(lockTime := lockTime))]
  }

  function HtlcChanges(txid: Txid, spends: seq<(nat, nat)>): seq<Change> {
    if spends == [] then []
    else [HtlcOutputSpent(spends[0].0, OutPoint(txid, spends[0].1))] + HtlcChanges(txid, spends[1..])
  }

  function OnTxEnd(provider: Provider, d: Decode, lockTime: nat, txid: Txid): Option<Decode> {
    if !HasFundingOutput(d.shadow, txid, d.outputNum) then None else
      var d1 := AddChanges(d, FundingChange(d.shadow, txid));
      if d1.None? then None else
        var d2 := AddChanges(d1.value.(closingTx := None),
                             CloseChange(provider, d1.value.shadow, txid, d1.value.closingTx, lockTime));
        if d2.None? then None else
          AddChanges(d2.value.(spentHtlcs := []), HtlcChanges(txid, d2.value.spentHtlcs))
  }

  /** Whether transaction events are ignored; `None` when the source's sanity check fails. */
  function NotReady(l: Listener): Option<bool> {
    if l.sawBlock == l.decode.blockHash.Some? then Some(!l.sawBlock) else None
  }

  function OnTxEvent(provider: Provider, d: Decode, e: Event): Option<Decode> {
    match e
    case TxStart(version) => Some(OnTxStart(d, version))
    case TxInput(o) => OnInput(d, o)
    case TxOutput(output) => OnOutput(d, output)
    case TxEnd(lockTime, txid) => OnTxEnd(provider, d, lockTime, txid)
    case _ => Some(d)
  }

  function OnEvent(provider: Provider, l: Listener, e: Event): Option<Listener> {
    match e
    case BlockStart(hash) =>
      if l.decode.blockHash.Some? then None
      else Some(Listener(l.decode.(blockHash := Some(hash)), true))
    case BlockEnd => Some(l)
    case _ =>
      var skip := NotReady(l);
      if skip.None? then None
      else if skip.value then Some(l)
      else
        var d := OnTxEvent(provider, l.decode, e);
        if d.None? then None else Some(l.(decode := d.value))
  }

  function Listen(provider: Provider, l: Listener, es: seq<Event>): Option<Listener>
    decreases |es|
  {
    if es == [] then Some(l) else
      var l' := OnEvent(provider, l, es[0]);
      if l'.None? then None else Listen(provider, l'.value, es[1..])
  }

  function InputEvents(inputs: seq<OutPoint>): seq<Event> {
    seq(|inputs|, i requires 0 <= i < |inputs| => TxInput(inputs[i]))
  }

  function OutputEvents(outputs: seq<TxOut>): seq<Event> {
    seq(|outputs|, i requires 0 <= i < |outputs| => TxOutput(outputs[i]))
  }

  function TxEvents(tx: Tx): seq<Event> {
    [TxStart(tx.version)] + InputEvents(tx.inputs) + OutputEvents(tx.outputs) + [TxEnd(tx.lockTime, tx.txid)]
  }

  function BlockEvents(block: Block): seq<Event> {
    if block == [] then [] else TxEvents(block[0]) + BlockEvents(block[1..])
  }

  // ---------------------------------------------------------------------------
  // The declarative reading of a transaction
  // ---------------------------------------------------------------------------

  function InputChanges(s: State, inputs: seq<OutPoint>): seq<Change> {
    if inputs == [] then []
    else InputChanges(s, inputs[..|inputs| - 1])
         + FundingInputChange(s, inputs[|inputs| - 1]) + TrackedOutputChange(s, inputs[|inputs| - 1])
  }

  /** The HTLC outputs spent, each with the index of the input that spends it. */
  function HtlcSpends(s: State, inputs: seq<OutPoint>): seq<(nat, nat)> {
    if inputs == [] then []
    else HtlcSpends(s, inputs[..|inputs| - 1])
         + if SpendsHtlc(s, inputs[|inputs| - 1]) then [(inputs[|inputs| - 1].vout, |inputs| - 1)] else []
  }

  /** A spend of the funding outpoint and of nothing else. */
  predicate SpendsOnlyFunding(s: State, tx: Tx) {
    |tx.inputs| == 1 && s.fundingOutpoint == Some(tx.inputs[0])
  }

  function Gathered(s: State, tx: Tx): Option<ClosingTx> {
    if SpendsOnlyFunding(s, tx) then Some(ClosingTx(tx.version, 0, tx.inputs[0], tx.outputs)) else None
  }

  function TxChanges(provider: Provider, s: State, tx: Tx): seq<Change> {
    InputChanges(s, tx.inputs)
    + FundingChange(s, tx.txid)
    + CloseChange(provider, s, tx.txid, Gathered(s, tx), tx.lockTime)
    + HtlcChanges(tx.txid, HtlcSpends(s, tx.inputs))
  }

  /** The decoder's own limits: the funding output exists and a gathered spend has at most 600 outputs. */
  predicate Decodable(s: State, tx: Tx) {
    && HasFundingOutput(s, tx.txid, |tx.outputs|)
    && (SpendsOnlyFunding(s, tx) ==> |tx.outputs| <= MAX_COMMITMENT_OUTPUTS)
  }

  /** The decode state after a whole transaction, `None` if the decoder panics in it. */
  function DecodeTx(provider: Provider, d: Decode, tx: Tx): Option<Decode> {
    var d' := AddChanges(d, TxChanges(provider, d.shadow, tx));
    if !Decodable(d.shadow, tx) || d'.None? then None
    else Some(d'.value.(version := tx.version, inputNum := |tx.inputs|, outputNum := |tx.outputs|,
                        closingTx := None, spentHtlcs := []))
  }

  function DecodeBlock(provider: Provider, d: Decode, block: Block): Option<Decode>
    decreases |block|
  {
    if block == [] then Some(d) else
      var d' := DecodeTx(provider, d, block[0]);
      if d'.None? then None else DecodeBlock(provider, d'.value, block[1..])
  }

  // ---------------------------------------------------------------------------
  // The listener computes the declarative reading
  // ---------------------------------------------------------------------------

  lemma AddChangesAppend(d: Decode, xs: seq<Change>, ys: seq<Change>)
    ensures AddChanges(d, xs + ys) ==
            if AddChanges(d, xs).None? then None else AddChanges(AddChanges(d, xs).value, ys)
  {
    ApplyAppend(d.shadow, xs, ys);
    assert d.changes + xs + ys == d.changes + (xs + ys);
  }

  /** What the classification of inputs depends on; spends only flip flags outside it. */
  predicate SameTargets(s: State, t: State) {
    && s.fundingTxids == t.fundingTxids
    && s.fundingVouts == t.fundingVouts
    && s.fundingInputs == t.fundingInputs
    && s.fundingOutpoint == t.fundingOutpoint
    && s.closing.Some? == t.closing.Some?
    && (s.closing.Some? ==>
          && s.closing.value.txid == t.closing.value.txid
          && s.closing.value.htlcOutputs == t.closing.value.htlcOutputs
          && (s.closing.value.ourOutput.Some? == t.closing.value.ourOutput.Some?)
          && (s.closing.value.ourOutput.Some? ==>
                s.closing.value.ourOutput.value.vout == t.closing.value.ourOutput.value.vout)
          && |s.closing.value.secondLevel| == |t.closing.value.secondLevel|
          && (forall i :: 0 <= i < |s.closing.value.secondLevel| ==>
                s.closing.value.secondLevel[i].outpoint == t.closing.value.secondLevel[i].outpoint))
  }

  predicate IsInputChange(c: Change) {
    c.FundingInputSpent? || c.OurOutputSpent? || c.SecondLevelSpent?
  }

  lemma {:induction false} InputChangesKeepTargets(s: State, cs: seq<Change>)
    requires forall c :: c in cs ==> IsInputChange(c)
    requires Apply(s, cs).Some?
    ensures SameTargets(s, Apply(s, cs).value)
    decreases |cs|
  {
    if cs != [] {
      var s' := Forward(s, cs[0]).value;
      assert IsInputChange(cs[0]);
      assert SameTargets(s, s');
      assert forall c :: c in cs[1..] ==> c in cs;
      InputChangesKeepTargets(s', cs[1..]);
    }
  }

  lemma SameTargetsSameReading(s: State, t: State, o: OutPoint)
    requires SameTargets(s, t)
    ensures FundingInputChange(s, o) == FundingInputChange(t, o)
    ensures TrackedOutputChange(s, o) == TrackedOutputChange(t, o)
    ensures SpendsHtlc(s, o) == SpendsHtlc(t, o)
  {
    if s.closing.Some? {
      assert s.closing.value.IncludesSecondLevel(o) == t.closing.value.IncludesSecondLevel(o) by {
        if s.closing.value.IncludesSecondLevel(o) {
          var i :| 0 <= i < |s.closing.value.secondLevel| && s.closing.value.secondLevel[i].outpoint == o;
          assert t.closing.value.secondLevel[i].outpoint == o;
        }
        if t.closing.value.IncludesSecondLevel(o) {
          var i :| 0 <= i < |t.closing.value.secondLevel| && t.closing.value.secondLevel[i].outpoint == o;
          assert s.closing.value.secondLevel[i].outpoint == o;
        }
      }
    }
  }

  lemma {:induction false} InputChangesAreInputChanges(s: State, inputs: seq<OutPoint>)
    ensures forall c :: c in InputChanges(s, inputs) ==> IsInputChange(c)
    decreases |inputs|
  {
    if inputs != [] {
      InputChangesAreInputChanges(s, inputs[..|inputs| - 1]);
    }
  }

  /** A decode state with changes added and the fields of the transaction being read set. */
  function Collected(d: Decode, cs: seq<Change>, num: nat, tx: Option<ClosingTx>, spent: seq<(nat, nat)>): Option<Decode> {
    var d' := AddChanges(d, cs);
    if d'.None? then None else Some(d'.value.(inputNum := num, closingTx := tx, spentHtlcs := spent))
  }

  /** The closing transaction gathered so far: a lone input that spends the funding. */
  function LoneSpend(d: Decode, inputs: seq<OutPoint>): Option<ClosingTx> {
    if |inputs| == 1 && d.shadow.fundingOutpoint == Some(inputs[0]) then Some(ClosingTx(d.version, 0, inputs[0], [])) else None
  }

  /** The decode state after the first `inputs` of a transaction that started in `d`. */
  function AfterInputs(d: Decode, inputs: seq<OutPoint>): Option<Decode> {
    Collected(d, InputChanges(d.shadow, inputs), |inputs|, LoneSpend(d, inputs), HtlcSpends(d.shadow, inputs))
  }

  /** `OnInput` with the two lists of changes it reads named. */
  lemma OnInputAdds(m: Decode, o: OutPoint, fic: seq<Change>, toc: seq<Change>, spends: bool)
    requires fic == FundingInputChange(m.shadow, o) && toc == TrackedOutputChange(m.shadow, o)
    requires spends == SpendsHtlc(m.shadow, o)
    ensures OnInput(m, o) ==
            Collected(m, fic + toc, m.inputNum + 1,
                      if m.inputNum != 0 then None
                      else if m.shadow.fundingOutpoint == Some(o) then Some(ClosingTx(m.version, 0, o, []))
                      else m.closingTx,
                      if spends then m.spentHtlcs + [(o.vout, m.inputNum)] else m.spentHtlcs)
  {
    AddChangesAppend(m, fic, toc);
    assert Apply(m.shadow, fic).Some? by {
      if fic != [] { assert Apply(Forward(m.shadow, fic[0]).value, fic[1..]).Some?; }
    }
    var f := AddChanges(m, fic).value.shadow;
    InputChangesKeepTargets(m.shadow, fic);
    SameTargetsSameReading(m.shadow, f, o);
  }

  lemma OnInputStep(d: Decode, inputs: seq<OutPoint>, o: OutPoint)
    requires d.inputNum == 0 && d.closingTx.None? && d.spentHtlcs == []
    requires AfterInputs(d, inputs).Some?
    ensures OnInput(AfterInputs(d, inputs).value, o) == AfterInputs(d, inputs + [o])
  {
    var s := d.shadow;
    var m := AfterInputs(d, inputs).value;
    var before := InputChanges(s, inputs);
    InputChangesAreInputChanges(s, inputs);
    InputChangesKeepTargets(s, before);
    SameTargetsSameReading(s, m.shadow, o);
    var fic := FundingInputChange(s, o);
    var toc := TrackedOutputChange(s, o);
    OnInputAdds(m, o, fic, toc, SpendsHtlc(s, o));
    ReadOneMore(s, inputs, o);
    LoneSpendNext(d, inputs, o, m);
    assert (if SpendsHtlc(s, o) then m.spentHtlcs + [(o.vout, m.inputNum)] else m.spentHtlcs) == HtlcSpends(s, inputs + [o]);
    CollectedMore(d, m, before, fic + toc, |inputs|, LoneSpend(d, inputs), HtlcSpends(s, inputs),
                  |inputs| + 1, LoneSpend(d, inputs + [o]), HtlcSpends(s, inputs + [o]));
  }

  lemma LoneSpendNext(d: Decode, inputs: seq<OutPoint>, o: OutPoint, m: Decode)
    requires m.inputNum == |inputs| && m.version == d.version && m.closingTx == LoneSpend(d, inputs)
    requires m.shadow.fundingOutpoint == d.shadow.fundingOutpoint
    ensures LoneSpend(d, inputs + [o]) ==
            if m.inputNum != 0 then None
            else if m.shadow.fundingOutpoint == Some(o) then Some(ClosingTx(m.version, 0, o, []))
            else m.closingTx
  {
    if inputs == [] {
      assert (inputs + [o])[0] == o;
    }
  }

  lemma CollectedMore(d: Decode, m: Decode, before: seq<Change>, last: seq<Change>, num: nat, tx: Option<ClosingTx>,
                      spent: seq<(nat, nat)>, num': nat, tx': Option<ClosingTx>, spent': seq<(nat, nat)>)
    requires Collected(d, before, num, tx, spent) == Some(m)
    ensures Collected(d, before + last, num', tx', spent') == Collected(m, last, num', tx', spent')
  {
    AddChangesAppend(d, before, last);
  }

  lemma ReadOneMore(s: State, inputs: seq<OutPoint>, o: OutPoint)
    ensures InputChanges(s, inputs + [o]) ==
            InputChanges(s, inputs) + (FundingInputChange(s, o) + TrackedOutputChange(s, o))
    ensures HtlcSpends(s, inputs + [o]) ==
            HtlcSpends(s, inputs) + if SpendsHtlc(s, o) then [(o.vout, |inputs|)] else []
  {
    assert (inputs + [o])[..|inputs|] == inputs && (inputs + [o])[|inputs|] == o;
  }

  lemma ListenOne(provider: Provider, l: Listener, e: Event, rest: seq<Event>)
    requires NotReady(l) == Some(false) && !e.BlockStart? && !e.BlockEnd?
    ensures Listen(provider, l, [e] + rest) ==
            if OnTxEvent(provider, l.decode, e).None? then None
            else Listen(provider, l.(decode := OnTxEvent(provider, l.decode, e).value), rest)
  {
    assert ([e] + rest)[1..] == rest;
  }

  lemma {:induction false} ListenInputs(provider: Provider, l: Listener, d: Decode, inputs: seq<OutPoint>, rest: seq<OutPoint>)
    requires NotReady(l) == Some(false)
    requires d.inputNum == 0 && d.closingTx.None? && d.spentHtlcs == []
    requires AfterInputs(d, inputs) == Some(l.decode)
    ensures Listen(provider, l, InputEvents(rest)) ==
            if AfterInputs(d, inputs + rest).None? then None
            else Some(l.(decode := AfterInputs(d, inputs + rest).value))
    decreases |rest|
  {
    if rest == [] {
      assert inputs + rest == inputs;
    } else {
      var o := rest[0];
      assert InputEvents(rest) == [TxInput(o)] + InputEvents(rest[1..]);
      ListenOne(provider, l, TxInput(o), InputEvents(rest[1..]));
      assert inputs + rest == inputs + [o] + rest[1..];
      OnInputStep(d, inputs, o);
      if AfterInputs(d, inputs + [o]).Some? {
        ListenInputs(provider, l.(decode := AfterInputs(d, inputs + [o]).value), d, inputs + [o], rest[1..]);
      } else {
        AfterInputsPrefix(d, inputs + [o], rest[1..]);
      }
    }
  }

  lemma {:induction false} AfterInputsPrefix(d: Decode, inputs: seq<OutPoint>, rest: seq<OutPoint>)
    requires AfterInputs(d, inputs).None?
    ensures AfterInputs(d, inputs + rest).None?
    decreases |rest|
  {
    if rest == [] {
      assert inputs + rest == inputs;
    } else {
      var k := |rest| - 1;
      var all := inputs + rest;
      AfterInputsPrefix(d, inputs, rest[..k]);
      assert all[..|all| - 1] == inputs + rest[..k];
      var before := InputChanges(d.shadow, inputs + rest[..k]);
      ApplyAppend(d.shadow, before, FundingInputChange(d.shadow, rest[k]));
      ApplyAppend(d.shadow, before + FundingInputChange(d.shadow, rest[k]), TrackedOutputChange(d.shadow, rest[k]));
    }
  }

  /** The decode state after the outputs. */
  function AfterOutputs(d: Decode, outputs: seq<TxOut>): Option<Decode> {
    if d.closingTx.Some? && outputs != [] && d.outputNum + |outputs| > MAX_COMMITMENT_OUTPUTS then None else
      Some(d.(outputNum := d.outputNum + |outputs|,
              closingTx := if d.closingTx.None? then None
                           else Some(d.closingTx.value.(outputs := d.closingTx.value.outputs + outputs))))
  }

  lemma {:induction false} ListenOutputs(provider: Provider, l: Listener, outputs: seq<TxOut>)
    requires NotReady(l) == Some(false)
    ensures Listen(provider, l, OutputEvents(outputs)) ==
            if AfterOutputs(l.decode, outputs).None? then None
            else Some(l.(decode := AfterOutputs(l.decode, outputs).value))
    decreases |outputs|
  {
    var d := l.decode;
    if outputs == [] {
      if d.closingTx.Some? { assert d.closingTx.value.outputs + outputs == d.closingTx.value.outputs; }
    } else {
      assert OutputEvents(outputs)[0] == TxOutput(outputs[0]);
      assert OutputEvents(outputs)[1..] == OutputEvents(outputs[1..]);
      if OnOutput(d, outputs[0]).Some? {
        var d' := OnOutput(d, outputs[0]).value;
        ListenOutputs(provider, l.(decode := d'), outputs[1..]);
        if d.closingTx.Some? {
          assert d.closingTx.value.outputs + [outputs[0]] + outputs[1..] == d.closingTx.value.outputs + outputs;
        }
      }
    }
  }

  lemma {:induction false} ListenAppend(provider: Provider, l: Listener, xs: seq<Event>, ys: seq<Event>)
    ensures Listen(provider, l, xs + ys) ==
            if Listen(provider, l, xs).None? then None
            else Listen(provider, Listen(provider, l, xs).value, ys)
    decreases |xs|
  {
    if xs == [] {
      assert xs + ys == ys;
    } else {
      assert (xs + ys)[0] == xs[0] && (xs + ys)[1..] == xs[1..] + ys;
      if OnEvent(provider, l, xs[0]).Some? {
        ListenAppend(provider, OnEvent(provider, l, xs[0]).value, xs[1..], ys);
      }
    }
  }

  /** The listener up to the end of a transaction's outputs. */
  lemma ListenTxBody(provider: Provider, l: Listener, d0: Decode, tx: Tx)
    requires NotReady(l) == Some(false)
    requires d0 == OnTxStart(l.decode, tx.version)
    ensures
      var body := [TxStart(tx.version)] + InputEvents(tx.inputs) + OutputEvents(tx.outputs);
      Listen(provider, l, body) ==
      if AfterInputs(d0, tx.inputs).None? || AfterOutputs(AfterInputs(d0, tx.inputs).value, tx.outputs).None? then None
      else Some(l.(decode := AfterOutputs(AfterInputs(d0, tx.inputs).value, tx.outputs).value))
  {
    var l0 := l.(decode := d0);
    var start := [TxStart(tx.version)];
    var ins := InputEvents(tx.inputs);
    var outs := OutputEvents(tx.outputs);
    ListenAppend(provider, l, start + ins, outs);
    ListenAppend(provider, l, start, ins);
    assert start + [] == start;
    ListenOne(provider, l, TxStart(tx.version), []);
    AfterNoInputs(d0);
    assert [] + tx.inputs == tx.inputs;
    ListenInputs(provider, l0, d0, [], tx.inputs);
    if AfterInputs(d0, tx.inputs).Some? {
      ListenOutputs(provider, l.(decode := AfterInputs(d0, tx.inputs).value), tx.outputs);
    }
  }

  lemma AfterNoInputs(d: Decode)
    requires d.inputNum == 0 && d.closingTx.None? && d.spentHtlcs == []
    ensures AfterInputs(d, []) == Some(d)
  {
    assert d.changes + [] == d.changes;
  }

  /** The listener, fed one transaction event by event, computes `DecodeTx`. */
  lemma ListenTx(provider: Provider, l: Listener, tx: Tx)
    requires NotReady(l) == Some(false)
    ensures Listen(provider, l, TxEvents(tx)) ==
            if DecodeTx(provider, l.decode, tx).None? then None
            else Some(l.(decode := DecodeTx(provider, l.decode, tx).value))
  {
    var d0 := OnTxStart(l.decode, tx.version);
    var body := [TxStart(tx.version)] + InputEvents(tx.inputs) + OutputEvents(tx.outputs);
    var end := TxEnd(tx.lockTime, tx.txid);
    ListenAppend(provider, l, body, [end]);
    ListenTxBody(provider, l, d0, tx);
    DecodeTxFromStart(provider, l.decode, tx);
    if AfterInputs(d0, tx.inputs).None? {
      TxChangesPrefix(provider, d0.shadow, tx);
    } else {
      var m := AfterInputs(d0, tx.inputs).value;
      TxEndFromOutputs(provider, d0, m, tx);
      if AfterOutputs(m, tx.outputs).Some? {
        assert [end] + [] == [end];
        ListenOne(provider, l.(decode := AfterOutputs(m, tx.outputs).value), end, []);
      }
    }
  }

  /** From the state after the inputs: the outputs fail where the reading is undefined, and
      otherwise the end completes it. */
  lemma TxEndFromOutputs(provider: Provider, d0: Decode, m: Decode, tx: Tx)
    requires AfterInputs(d0, tx.inputs) == Some(m) && d0 == OnTxStart(d0, tx.version)
    ensures
      var d2 := AfterOutputs(m, tx.outputs);
      DecodeTx(provider, d0, tx) == if d2.None? then None else OnTxEnd(provider, d2.value, tx.lockTime, tx.txid)
  {
    var d1 := AddChanges(d0, InputChanges(d0.shadow, tx.inputs)).value;
    assert [] + tx.outputs == tx.outputs;
    InputChangesAreInputChanges(d0.shadow, tx.inputs);
    InputChangesKeepTargets(d0.shadow, InputChanges(d0.shadow, tx.inputs));
    var d2 := AfterOutputs(m, tx.outputs);
    if d2.Some? {
      TxEndStep(provider, d0, d1, d2.value, tx);
    }
  }

  lemma DecodeTxFromStart(provider: Provider, d: Decode, tx: Tx)
    ensures DecodeTx(provider, OnTxStart(d, tx.version), tx) == DecodeTx(provider, d, tx)
  {
  }

  lemma TxChangesPrefix(provider: Provider, s: State, tx: Tx)
    requires Apply(s, InputChanges(s, tx.inputs)).None?
    ensures Apply(s, TxChanges(provider, s, tx)).None?
  {
    var a := InputChanges(s, tx.inputs);
    var b := FundingChange(s, tx.txid);
    var c := CloseChange(provider, s, tx.txid, Gathered(s, tx), tx.lockTime);
    var e := HtlcChanges(tx.txid, HtlcSpends(s, tx.inputs));
    ApplyAppend(s, a, b);
    ApplyAppend(s, a + b, c);
    ApplyAppend(s, a + b + c, e);
  }

  /** The end of a transaction adds its changes all at once. */
  lemma TxEndIsAdd(provider: Provider, d: Decode, lockTime: nat, txid: Txid,
                   b: seq<Change>, c: seq<Change>, e: seq<Change>)
    requires b == FundingChange(d.shadow, txid)
    requires c == CloseChange(provider, d.shadow, txid, d.closingTx, lockTime)
    requires e == HtlcChanges(txid, d.spentHtlcs)
    ensures
      var d' := AddChanges(d, b + c + e);
      OnTxEnd(provider, d, lockTime, txid) ==
      if !HasFundingOutput(d.shadow, txid, d.outputNum) || d'.None? then None
      else Some(d'.value.(closingTx := None, spentHtlcs := []))
  {
    AddChangesAppend(d, b, c);
    AddChangesAppend(d, b + c, e);
    FundingChangeKeepsTxids(d.shadow, txid);
  }

  lemma FundingChangeKeepsTxids(s: State, txid: Txid)
    ensures Apply(s, FundingChange(s, txid)).Some?
    ensures Apply(s, FundingChange(s, txid)).value.fundingTxids == s.fundingTxids
  {
  }

  /** The tail of `TxChanges`: what the end of the transaction adds. */
  function EndChanges(provider: Provider, s: State, tx: Tx): seq<Change> {
    FundingChange(s, tx.txid)
    + CloseChange(provider, s, tx.txid, Gathered(s, tx), tx.lockTime)
    + HtlcChanges(tx.txid, HtlcSpends(s, tx.inputs))
  }

  lemma TxChangesSplit(provider: Provider, s: State, tx: Tx)
    ensures TxChanges(provider, s, tx) == InputChanges(s, tx.inputs) + EndChanges(provider, s, tx)
  {
  }

  lemma TxEndStep(provider: Provider, d0: Decode, d1: Decode, d2: Decode, tx: Tx)
    requires AddChanges(d0, InputChanges(d0.shadow, tx.inputs)) == Some(d1)
    requires d2 == d1.(inputNum := |tx.inputs|, outputNum := |tx.outputs|,
                       closingTx := Gathered(d0.shadow, tx), spentHtlcs := HtlcSpends(d0.shadow, tx.inputs))
    requires d0.version == tx.version
    requires SpendsOnlyFunding(d0.shadow, tx) ==> |tx.outputs| <= MAX_COMMITMENT_OUTPUTS
    requires SameTargets(d0.shadow, d2.shadow)
    ensures OnTxEnd(provider, d2, tx.lockTime, tx.txid) == DecodeTx(provider, d0, tx)
  {
    var s := d0.shadow;
    var e := EndChanges(provider, s, tx);
    TxEndIsAdd(provider, d2, tx.lockTime, tx.txid,
               FundingChange(s, tx.txid),
               CloseChange(provider, s, tx.txid, Gathered(s, tx), tx.lockTime),
               HtlcChanges(tx.txid, HtlcSpends(s, tx.inputs)));
    TxChangesSplit(provider, s, tx);
    AddChangesAppend(d0, InputChanges(s, tx.inputs), e);
    AddChangesFields(d1, d2, e);
  }

  lemma AddChangesFields(d: Decode, d': Decode, cs: seq<Change>)
    requires d.changes == d'.changes && d.shadow == d'.shadow
    ensures AddChanges(d, cs).Some? == AddChanges(d', cs).Some?
    ensures AddChanges(d, cs).Some? ==>
              AddChanges(d', cs).value ==
              d'.(changes := AddChanges(d, cs).value.changes, shadow := AddChanges(d, cs).value.shadow)
  {
  }

  lemma {:induction false} ListenBlock(provider: Provider, l: Listener, block: Block)
    requires NotReady(l) == Some(false)
    ensures Listen(provider, l, BlockEvents(block)) ==
            if DecodeBlock(provider, l.decode, block).None? then None
            else Some(l.(decode := DecodeBlock(provider, l.decode, block).value))
    decreases |block|
  {
    if block != [] {
      ListenTx(provider, l, block[0]);
      ListenAppend(provider, l, TxEvents(block[0]), BlockEvents(block[1..]));
      if DecodeTx(provider, l.decode, block[0]).Some? {
        ListenBlock(provider, l.(decode := DecodeTx(provider, l.decode, block[0]).value), block[1..]);
      }
    }
  }
}
