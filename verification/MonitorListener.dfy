/**
 The push decoder's listener and the monitor that owns it, as objects. A block, compact
 or streamed, run through them leaves exactly the state and the watch reports of
 `AddBlock` and `RemoveBlock`.
 */
module MonitorListener {
  import opened Options
  import opened Chain
  import opened Closing
  import opened MonitorState
  import opened MonitorDecode
  import opened MonitorBlocks
  import opened MonitorObjects

  class BlockDecoder {
    var changes: seq<Change>
    var version: int
    var inputNum: nat
    var outputNum: nat
    var closingTx: Option<ClosingTx>
    var spentHtlcs: seq<(nat, nat)>
    var blockHash: Option<BlockHash>
    const shadow: LiveState

    function Footprint(): set<object>
      reads this, shadow
    {
      {this} + shadow.Footprint()
    }

    function Value(): Decode
      reads Footprint()
    {
      Decode(changes, version, inputNum, outputNum, closingTx, spentHtlcs, blockHash, shadow.Value())
    }

    constructor (s: State, hash: Option<BlockHash>)
      ensures Value() == NewDecode(s, hash) && fresh(Footprint())
    {
      changes, version, inputNum, outputNum := [], 0, 0, 0;
      closingTx, spentHtlcs, blockHash := None, [], hash;
      shadow := new LiveState(s);
    }

    method AddChange(c: Change) returns (ok: bool)
      modifies Footprint()
      ensures fresh(Footprint() - old(Footprint()))
      ensures ok == AddChanges(old(Value()), [c]).Some?
      ensures ok ==> Value() == AddChanges(old(Value()), [c]).value
    {
      ApplyOne(shadow.Value(), c);
      changes := changes + [c];
      var adds, removes;
      ok, adds, removes := shadow.ApplyForwardChange([], [], c);
    }

    method OnTransactionStart(v: int)
      modifies this
      ensures Footprint() == old(Footprint())
      ensures Value() == OnTxStart(old(Value()), v)
    {
      version, inputNum, outputNum := v, 0, 0;
      closingTx, spentHtlcs := None, [];
    }

    /** The change an input makes to a tracked output, if any; HTLC spends are only noted. */
    method ReadTracked(o: OutPoint) returns (c: Option<Change>, htlc: bool)
      ensures htlc == SpendsHtlc(shadow.Value(), o)
      ensures (if c.None? then [] else [c.value]) == TrackedOutputChange(shadow.Value(), o)
    {
      c, htlc := None, false;
      var k := shadow.closing;
      if k != null {
        if k.txid == o.txid && k.ourOutput.Some? && k.ourOutput.value.vout == o.vout {
          c := Some(OurOutputSpent(o.vout));
        } else if k.txid == o.txid && o.vout in k.htlcOutputs {
          htlc := true;
        } else {
          var second := k.IncludesSecondLevel(o);
          if second {
            c := Some(SecondLevelSpent(o));
          }
        }
      }
    }

    /** The first part of an input: the funding inputs and the funding outpoint. */
    method BeginInput(o: OutPoint) returns (ok: bool)
      modifies Footprint()
      ensures fresh(Footprint() - old(Footprint()))
      ensures ok == BeforeTracked(old(Value()), o).Some?
      ensures ok ==> Value() == BeforeTracked(old(Value()), o).value
    {
      ok := true;
      AddNothing(Value());
      if o in shadow.fundingInputs {
        ok := AddChange(FundingInputSpent(o));
        if !ok {
          return;
        }
      }
      if shadow.fundingOutpoint == Some(o) {
        closingTx := Some(ClosingTx(version, 0, o, []));
      }
    }

    method OnTransactionInput(o: OutPoint) returns (ok: bool)
      modifies Footprint()
      ensures fresh(Footprint() - old(Footprint()))
      ensures ok == OnInput(old(Value()), o).Some?
      ensures ok ==> Value() == OnInput(old(Value()), o).value
    {
      OnInputSplit(Value(), o);
      ok := BeginInput(o);
      if ok {
        ok := FinishInput(o);
      }
    }

    /** The rest of an input: the tracked outputs, the multi-input check and the count. */
    method FinishInput(o: OutPoint) returns (ok: bool)
      modifies Footprint()
      ensures fresh(Footprint() - old(Footprint()))
      ensures ok == AfterTracked(old(Value()), o).Some?
      ensures ok ==> Value() == AfterTracked(old(Value()), o).value
    {
      var c, htlc := ReadTracked(o);
      if htlc {
        spentHtlcs := spentHtlcs + [(o.vout, inputNum)];
      }
      ok := true;
      AddNothing(Value());
      if c.Some? {
        ok := AddChange(c.value);
        if !ok {
          return;
        }
      }
      if closingTx.Some? && inputNum != 0 {
        closingTx := None;
      }
      inputNum := inputNum + 1;
    }

    method OnTransactionOutput(output: TxOut) returns (ok: bool)
      modifies this
      ensures Footprint() == old(Footprint())
      ensures ok == OnOutput(old(Value()), output).Some?
      ensures ok ==> Value() == OnOutput(old(Value()), output).value
    {
      ok := true;
      if closingTx.Some? {
        closingTx := Some(closingTx.value.(outputs := closingTx.value.outputs + [output]));
        ok := outputNum < MAX_COMMITMENT_OUTPUTS;
      }
      outputNum := outputNum + 1;
    }

    /** The funding output index of a tracked funding transaction. */
    method FundingVout(txid: Txid) returns (known: bool, vout: Option<nat>)
      ensures known == (txid in shadow.fundingTxids)
      ensures known ==>
        var i := FirstVout(shadow.fundingTxids, txid);
        vout == if i < |shadow.fundingVouts| then Some(shadow.fundingVouts[i]) else None
    {
      var i := 0;
      while i < |shadow.fundingTxids| && shadow.fundingTxids[i] != txid
        invariant 0 <= i <= |shadow.fundingTxids| && txid !in shadow.fundingTxids[..i]
      {
        i := i + 1;
      }
      known, vout := i < |shadow.fundingTxids|, None;
      if known {
        assert i == FirstVout(shadow.fundingTxids, txid);
        if i < |shadow.fundingVouts| {
          vout := Some(shadow.fundingVouts[i]);
        }
      } else {
        assert shadow.fundingTxids[..i] == shadow.fundingTxids;
      }
    }

    method ConfirmFunding(txid: Txid) returns (ok: bool)
      modifies Footprint()
      ensures fresh(Footprint() - old(Footprint()))
      ensures ok == (HasFundingOutput(old(Value()).shadow, txid, old(outputNum))
                     && AddChanges(old(Value()), FundingChange(old(Value()).shadow, txid)).Some?)
      ensures ok ==> Value() == AddChanges(old(Value()), FundingChange(old(Value()).shadow, txid)).value
    {
      AddNothing(Value());
      var known, vout := FundingVout(txid);
      ok := true;
      if known {
        ok := vout.Some? && vout.value < outputNum;
        if ok {
          ok := AddChange(FundingConfirmed(OutPoint(txid, vout.value)));
        }
      }
    }

    /** A gathered spend of the funding, classified unless it creates a tracked funding. */
    method FinishClosing(provider: Provider, lockTime: nat, txid: Txid) returns (ok: bool)
      modifies Footprint()
      ensures fresh(Footprint() - old(Footprint()))
      ensures
        var d := old(Value());
        var d' := AddChanges(d.(closingTx := None), CloseChange(provider, d.shadow, txid, d.closingTx, lockTime));
        ok == d'.Some? && (ok ==> Value() == d'.value)
    {
      var gathered := closingTx;
      closingTx := None;
      AddNothing(Value());
      ok := true;
      if gathered.Some? && txid !in shadow.fundingTxids {
        ok := AddChange(Classify(provider, txid, gathered.value.(lockTime := lockTime)));
      }
    }

    /** The HTLC spends noted while reading the inputs, drained in order. */
    method FinishHtlcs(txid: Txid) returns (ok: bool)
      modifies Footprint()
      ensures fresh(Footprint() - old(Footprint()))
      ensures
        var d := old(Value());
        var d' := AddChanges(d.(spentHtlcs := []), HtlcChanges(txid, d.spentHtlcs));
        ok == d'.Some? && (ok ==> Value() == d'.value)
    {
      var spends := spentHtlcs;
      spentHtlcs := [];
      ghost var d := Value();
      ok := true;
      var i := 0;
      assert spends[0..] == spends;
      while i < |spends|
        invariant 0 <= i <= |spends| && ok
        invariant fresh(Footprint() - old(Footprint()))
        invariant AddChanges(d, HtlcChanges(txid, spends)) == AddChanges(Value(), HtlcChanges(txid, spends[i..]))
      {
        var c := HtlcOutputSpent(spends[i].0, OutPoint(txid, spends[i].1));
        assert spends[i..][1..] == spends[i + 1..];
        AddChangesAppend(Value(), [c], HtlcChanges(txid, spends[i + 1..]));
        ok := AddChange(c);
        if !ok {
          return;
        }
        i := i + 1;
      }
      assert HtlcChanges(txid, spends[i..]) == [];
      AddNothing(Value());
    }

    method OnTransactionEnd(provider: Provider, lockTime: nat, txid: Txid) returns (ok: bool)
      modifies Footprint()
      ensures fresh(Footprint() - old(Footprint()))
      ensures ok == OnTxEnd(provider, old(Value()), lockTime, txid).Some?
      ensures ok ==> Value() == OnTxEnd(provider, old(Value()), lockTime, txid).value
    {
      ok := ConfirmFunding(txid);
      if ok {
        ok := FinishClosing(provider, lockTime, txid);
        if ok {
          ok := FinishHtlcs(txid);
        }
      }
    }
  }

  lemma ApplyOne(s: State, c: Change)
    ensures Apply(s, [c]) == Forward(s, c)
  {
    assert [c][1..] == [];
    if Forward(s, c).Some? { assert Apply(Forward(s, c).value, []) == Forward(s, c); }
  }

  lemma AddNothing(d: Decode)
    ensures AddChanges(d, []) == Some(d)
  {
    assert d.changes + [] == d.changes;
  }

  /** The second half of `OnInput`. */
  function AfterTracked(d: Decode, o: OutPoint): Option<Decode> {
    var d3 := if SpendsHtlc(d.shadow, o) then d.(spentHtlcs := d.spentHtlcs + [(o.vout, d.inputNum)]) else d;
    var d4 := AddChanges(d3, TrackedOutputChange(d3.shadow, o));
    if d4.None? then None else
      Some(d4.value.(closingTx := if d4.value.inputNum != 0 then None else d4.value.closingTx,
                     inputNum := d4.value.inputNum + 1))
  }

  /** The first half of `OnInput`. */
  function BeforeTracked(d: Decode, o: OutPoint): Option<Decode> {
    var d1 := AddChanges(d, FundingInputChange(d.shadow, o));
    if d1.None? then None
    else if d1.value.shadow.fundingOutpoint == Some(o)
    then Some(d1.value.(closingTx := Some(ClosingTx(d.version, 0, o, []))))
    else d1
  }

  lemma OnInputSplit(d: Decode, o: OutPoint)
    ensures OnInput(d, o) ==
            if BeforeTracked(d, o).None? then None else AfterTracked(BeforeTracked(d, o).value, o)
  {
  }

  class PushListener {
    const provider: Provider
    const decode: BlockDecoder
    var sawBlock: bool

    function Footprint(): set<object>
      reads this, decode, decode.shadow
    {
      {this} + decode.Footprint()
    }

    function Value(): Listener
      reads Footprint()
    {
      Listener(decode.Value(), sawBlock)
    }

    constructor (provider: Provider, decode: BlockDecoder, sawBlock: bool)
      ensures this.provider == provider && this.decode == decode && this.sawBlock == sawBlock
    {
      this.provider := provider;
      this.decode := decode;
      this.sawBlock := sawBlock;
    }

    /** Whether transaction events must be ignored; not `ok` when the sanity check fails. */
    method IsNotReady() returns (ok: bool, skip: bool)
      ensures ok == NotReady(Value()).Some?
      ensures ok ==> skip == NotReady(Value()).value
    {
      ok := sawBlock == decode.blockHash.Some?;
      skip := !sawBlock;
    }

    /** One event of the stream. */
    method Handle(e: Event) returns (ok: bool)
      modifies Footprint()
      ensures fresh(Footprint() - old(Footprint()))
      ensures ok == OnEvent(provider, old(Value()), e).Some?
      ensures ok ==> Value() == OnEvent(provider, old(Value()), e).value
    {
      ok := true;
      if e.BlockStart? {
        ok := decode.blockHash.None?;
        if ok {
          decode.blockHash := Some(e.hash);
          sawBlock := true;
        }
      } else if !e.BlockEnd? {
        var skip;
        ok, skip := IsNotReady();
        if ok && !skip {
          ok := HandleTx(e);
        }
      }
    }

    method HandleTx(e: Event) returns (ok: bool)
      requires !e.BlockStart? && !e.BlockEnd?
      modifies Footprint()
      ensures fresh(Footprint() - old(Footprint()))
      ensures sawBlock == old(sawBlock)
      ensures ok == OnTxEvent(provider, old(Value()).decode, e).Some?
      ensures ok ==> decode.Value() == OnTxEvent(provider, old(Value()).decode, e).value
    {
      ok := true;
      match e {
        case TxStart(v) => decode.OnTransactionStart(v);
        case TxInput(o) => ok := decode.OnTransactionInput(o);
        case TxOutput(output) => ok := decode.OnTransactionOutput(output);
        case TxEnd(lockTime, txid) => ok := decode.OnTransactionEnd(provider, lockTime, txid);
      }
    }

    /** A piece of the stream, as one `on_push` call delivers it. */
    method HandleAll(es: seq<Event>) returns (ok: bool)
      modifies Footprint()
      ensures fresh(Footprint() - old(Footprint()))
      ensures ok == Listen(provider, old(Value()), es).Some?
      ensures ok ==> Value() == Listen(provider, old(Value()), es).value
    {
      ok := true;
      var i := 0;
      while i < |es|
        invariant 0 <= i <= |es| && ok
        invariant fresh(Footprint() - old(Footprint()))
        invariant Listen(provider, old(Value()), es) == Listen(provider, Value(), es[i..])
      {
        assert es[i..][0] == es[i] && es[i..][1..] == es[i + 1..];
        ok := Handle(es[i]);
        if !ok {
          return;
        }
        i := i + 1;
      }
    }

    /** The transactions of a compact proof, one after the other. */
    method HandleBlock(block: Block) returns (ok: bool)
      modifies Footprint()
      ensures fresh(Footprint() - old(Footprint()))
      ensures ok == Listen(provider, old(Value()), BlockEvents(block)).Some?
      ensures ok ==> Value() == Listen(provider, old(Value()), BlockEvents(block)).value
    {
      ok := true;
      var i := 0;
      while i < |block|
        invariant 0 <= i <= |block| && ok
        invariant fresh(Footprint() - old(Footprint()))
        invariant Listen(provider, old(Value()), BlockEvents(block)) == Listen(provider, Value(), BlockEvents(block[i..]))
      {
        assert block[i..][0] == block[i] && block[i..][1..] == block[i + 1..];
        ListenAppend(provider, Value(), TxEvents(block[i]), BlockEvents(block[i + 1..]));
        ok := HandleAll(TxEvents(block[i]));
        if !ok {
          return;
        }
        i := i + 1;
      }
    }
  }

  /** A compact block decoded against a copy of the state, which it does not change. */
  method DecodeCompact(provider: Provider, s: State, hash: BlockHash, block: Block)
    returns (ok: bool, found: seq<Change>)
    requires s.sawBlock
    ensures ok == BlockChanges(provider, s, block).Some?
    ensures ok ==> found == BlockChanges(provider, s, block).value
  {
    PushTransactionsChanges(provider, s, hash, block);
    assert s.(sawBlock := true) == s;
    var d := new BlockDecoder(s, Some(hash));
    var listener := new PushListener(provider, d, true);
    found := [];
    ok := listener.HandleBlock(block);
    if ok {
      found := d.changes;
    }
  }

  /** Events fed to a decode in progress through a listener. */
  method Feed(provider: Provider, decode: BlockDecoder, sawBlock: bool, es: seq<Event>) returns (ok: bool, saw: bool)
    modifies decode.Footprint()
    ensures fresh(decode.Footprint() - old(decode.Footprint()))
    ensures
      var l := Listen(provider, Listener(old(decode.Value()), sawBlock), es);
      ok == l.Some? && (ok ==> l.value == Listener(decode.Value(), saw))
  {
    var listener := new PushListener(provider, decode, sawBlock);
    ok := listener.HandleAll(es);
    saw := listener.sawBlock;
  }

  class ChainMonitor {
    const provider: Provider
    const state: LiveState
    var decode: BlockDecoder?

    function Footprint(): set<object>
      reads this, state, decode, if decode == null then {} else {decode.shadow}
    {
      {this} + state.Footprint() + if decode == null then {} else decode.Footprint()
    }

    /** The decode in progress shares nothing with the committed state. */
    ghost predicate Valid()
      reads this, state, decode, if decode == null then {} else {decode.shadow}
    {
      decode != null ==> decode.Footprint() !! state.Footprint()
    }

    function Value(): Monitor
      reads Footprint()
    {
      Monitor(state.Value(), if decode == null then None else Some(decode.Value()))
    }

    constructor (provider: Provider, s: State)
      ensures Valid() && fresh(Footprint() - {this}) && Value() == Monitor(s, None) && this.provider == provider
    {
      this.provider := provider;
      state := new LiveState(s);
      decode := null;
    }

    /** Compact proof transactions, streamed through a listener of their own. */
    method Push(hash: BlockHash, block: Block) returns (ok: bool, found: seq<Change>)
      requires Valid()
      modifies state
      ensures Valid() && state.Footprint() == old(state.Footprint())
      ensures state.Value() == old(state.Value()).(sawBlock := true)
      ensures ok == BlockChanges(provider, state.Value(), block).Some?
      ensures ok ==> found == BlockChanges(provider, state.Value(), block).value
    {
      state.sawBlock := true;
      ok, found := DecodeCompact(provider, state.Value(), hash, block);
    }

    method OnAddBlock(hash: BlockHash, block: Block) returns (ok: bool, adds: seq<OutPoint>, removes: seq<OutPoint>)
      requires Valid()
      modifies state.Footprint()
      ensures fresh(state.Footprint() - old(state.Footprint()))
      ensures ok == AddBlock(provider, old(state.Value()), hash, block).Some?
      ensures ok ==> Effect(state.Value(), adds, removes) == AddBlock(provider, old(state.Value()), hash, block).value
    {
      PushTransactionsChanges(provider, state.Value(), hash, block);
      AgreeBlockChanges(provider, state.Value(), state.Value().(sawBlock := true), block);
      var found;
      adds, removes := [], [];
      ok, found := Push(hash, block);
      if ok {
        ok, adds, removes := state.OnAddBlockEnd(found);
      }
    }

    method OnRemoveBlock(hash: BlockHash, block: Block) returns (ok: bool, adds: seq<OutPoint>, removes: seq<OutPoint>)
      requires Valid()
      modifies state.Footprint()
      ensures state.Footprint() <= old(state.Footprint())
      ensures ok == RemoveBlock(provider, old(state.Value()), hash, block).Some?
      ensures ok ==> Effect(state.Value(), adds, removes) == RemoveBlock(provider, old(state.Value()), hash, block).value
    {
      PushTransactionsChanges(provider, state.Value(), hash, block);
      AgreeBlockChanges(provider, state.Value(), state.Value().(sawBlock := true), block);
      var found;
      adds, removes := [], [];
      ok, found := Push(hash, block);
      if ok {
        ok, adds, removes := state.OnRemoveBlockEnd(found);
      }
    }

    /** A decode is started by the first push of a block. */
    method StartDecode()
      requires Valid()
      modifies this
      ensures Valid() && decode != null && state.Footprint() == old(state.Footprint())
      ensures old(decode) != null ==> decode == old(decode)
      ensures old(decode) == null ==> fresh(decode.Footprint())
      ensures
        var m := old(Value());
        Value() == m.(decode := Some(if m.decode.Some? then m.decode.value else NewDecode(m.state, None)))
    {
      if decode == null {
        decode := new BlockDecoder(state.Value(), None);
      }
    }

    method Deliver(es: seq<Event>) returns (ok: bool)
      requires Valid() && decode != null
      modifies state, decode.Footprint()
      ensures Valid() && fresh(decode.Footprint() - old(decode.Footprint()))
      ensures state.Footprint() == old(state.Footprint())
      ensures
        var l := Listen(provider, Listener(old(decode.Value()), old(state.sawBlock)), es);
        && ok == l.Some?
        && (ok ==> Value() == Monitor(old(state.Value()).(sawBlock := l.value.sawBlock), Some(l.value.decode)))
    {
      var saw;
      ok, saw := Feed(provider, decode, state.sawBlock, es);
      state.sawBlock := saw;
    }

    method OnPush(es: seq<Event>) returns (ok: bool)
      requires Valid()
      modifies Footprint()
      ensures Valid() && fresh(Footprint() - old(Footprint()))
      ensures ok == MonitorBlocks.OnPush(provider, old(Value()), es).Some?
      ensures ok ==> Value() == MonitorBlocks.OnPush(provider, old(Value()), es).value
    {
      StartDecode();
      ok := Deliver(es);
    }

    method OnAddStreamedBlockEnd(hash: BlockHash) returns (ok: bool, adds: seq<OutPoint>, removes: seq<OutPoint>)
      requires Valid()
      modifies this, state.Footprint()
      ensures Valid() && fresh(state.Footprint() - old(state.Footprint()))
      ensures ok == AddStreamedBlockEnd(old(Value()), hash).Some?
      ensures ok ==> (Value(), adds, removes) == AddStreamedBlockEnd(old(Value()), hash).value
    {
      var d := decode;
      decode := null;
      ok, adds, removes := true, [], [];
      if state.sawBlock {
        ok := d != null && d.blockHash == Some(hash);
        if ok {
          ok, adds, removes := state.OnAddBlockEnd(d.changes);
        }
      }
    }

    method OnRemoveStreamedBlockEnd(hash: BlockHash) returns (ok: bool, adds: seq<OutPoint>, removes: seq<OutPoint>)
      requires Valid()
      modifies this, state.Footprint()
      ensures Valid() && state.Footprint() <= old(state.Footprint())
      ensures ok == RemoveStreamedBlockEnd(old(Value()), hash).Some?
      ensures ok ==> (Value(), adds, removes) == RemoveStreamedBlockEnd(old(Value()), hash).value
    {
      var d := decode;
      decode := null;
      ok, adds, removes := true, [], [];
      if state.sawBlock {
        ok := d != null && d.blockHash == Some(hash);
        if ok {
          ok, adds, removes := state.OnRemoveBlockEnd(d.changes);
        }
      }
    }
  }
}
