/**
 The monitor's objects, updated in place as in the source. Each method is proved against
 the corresponding function on values; `ok` is false where the source panics.
 */
module MonitorObjects {
  import opened Options
  import opened Chain
  import opened Closing
  import opened MonitorState

  lemma WithoutNext(kept: seq<SecondLevel>, xs: seq<SecondLevel>, i: nat, o: OutPoint)
    requires i < |xs|
    ensures kept + Without(xs[i..], o) ==
            (if xs[i].outpoint != o then kept + [xs[i]] else kept) + Without(xs[i + 1..], o)
  {
    assert xs[i..][1..] == xs[i + 1..];
    assert kept + ([xs[i]] + Without(xs[i + 1..], o)) == (kept + [xs[i]]) + Without(xs[i + 1..], o);
  }

  class LiveClosing {
    var txid: Txid
    var ourOutput: Option<OurOutput>
    var htlcOutputs: seq<nat>
    var htlcSpents: seq<bool>
    var secondLevel: seq<SecondLevel>

    function Value(): ClosingOutpoints
      reads this
    {
      ClosingOutpoints(txid, ourOutput, htlcOutputs, htlcSpents, secondLevel)
    }

    constructor (txid: Txid, our: Option<nat>, htlcs: seq<nat>)
      ensures Value() == Closing.New(txid, our, htlcs)
    {
      this.txid := txid;
      ourOutput := if our.Some? then Some(OurOutput(our.value, false)) else None;
      htlcOutputs := htlcs;
      htlcSpents := seq(|htlcs|, _ => false);
      secondLevel := [];
    }

    constructor Copy(c: ClosingOutpoints)
      ensures Value() == c
    {
      txid := c.txid;
      ourOutput := c.ourOutput;
      htlcOutputs := c.htlcOutputs;
      htlcSpents := c.htlcSpents;
      secondLevel := c.secondLevel;
    }

    method SetOurOutputSpent(vout: nat, spent: bool) returns (ok: bool)
      modifies this
      ensures ok == old(Value()).SetOurOutputSpent(vout, spent).Some?
      ensures Value() == if ok then old(Value()).SetOurOutputSpent(vout, spent).value else old(Value())
    {
      ok := ourOutput.Some? && ourOutput.value.vout == vout;
      if ok {
        ourOutput := Some(OurOutput(vout, spent));
      }
    }

    method SetHtlcOutputSpent(vout: nat, spent: bool) returns (ok: bool)
      modifies this
      ensures ok == old(Value()).SetHtlcOutputSpent(vout, spent).Some?
      ensures Value() == if ok then old(Value()).SetHtlcOutputSpent(vout, spent).value else old(Value())
    {
      var i := 0;
      while i < |htlcOutputs| && htlcOutputs[i] != vout
        invariant 0 <= i <= |htlcOutputs| && vout !in htlcOutputs[..i]
        invariant Value() == old(Value())
      {
        i := i + 1;
      }
      ok := i < |htlcOutputs| && i < |htlcSpents|;
      if i < |htlcOutputs| {
        assert i == FirstVout(htlcOutputs, vout);
      } else {
        assert htlcOutputs[..i] == htlcOutputs;
      }
      if ok {
        htlcSpents := htlcSpents[i := spent];
      }
    }

    method AddSecondLevel(o: OutPoint)
      modifies this
      ensures Value() == old(Value()).AddSecondLevel(o)
    {
      secondLevel := secondLevel + [SecondLevel(o, false)];
    }

    method IncludesSecondLevel(o: OutPoint) returns (found: bool)
      ensures found == Value().IncludesSecondLevel(o)
    {
      var i := 0;
      while i < |secondLevel| && secondLevel[i].outpoint != o
        invariant 0 <= i <= |secondLevel|
        invariant forall j :: 0 <= j < i ==> secondLevel[j].outpoint != o
      {
        i := i + 1;
      }
      found := i < |secondLevel|;
    }

    method SetSecondLevelSpent(o: OutPoint, spent: bool) returns (ok: bool)
      modifies this
      ensures ok == old(Value()).SetSecondLevelSpent(o, spent).Some?
      ensures Value() == if ok then old(Value()).SetSecondLevelSpent(o, spent).value else old(Value())
    {
      var i := 0;
      while i < |secondLevel| && secondLevel[i].outpoint != o
        invariant 0 <= i <= |secondLevel|
        invariant forall j :: 0 <= j < i ==> secondLevel[j].outpoint != o
        invariant Value() == old(Value())
      {
        i := i + 1;
      }
      ok := i < |secondLevel|;
      if ok {
        SetFirstAt(secondLevel, o, spent, i);
        secondLevel := secondLevel[i := SecondLevel(o, spent)];
      }
    }

    method RemoveSecondLevel(o: OutPoint)
      modifies this
      ensures Value() == old(Value()).RemoveSecondLevel(o)
    {
      var kept: seq<SecondLevel> := [];
      var i := 0;
      while i < |secondLevel|
        invariant 0 <= i <= |secondLevel| && Value() == old(Value())
        invariant kept + Without(secondLevel[i..], o) == Without(secondLevel, o)
      {
        WithoutNext(kept, secondLevel, i, o);
        if secondLevel[i].outpoint != o {
          kept := kept + [secondLevel[i]];
        }
        i := i + 1;
      }
      secondLevel := kept;
    }

    method IsAllSpent() returns (all: bool)
      ensures all == Value().IsAllSpent()
    {
      all := ourOutput.Some? ==> ourOutput.value.spent;
      var i := 0;
      while i < |htlcSpents|
        invariant 0 <= i <= |htlcSpents|
        invariant all == (Value().IsOurOutputSpent() && forall j :: 0 <= j < i ==> htlcSpents[j])
      {
        all := all && htlcSpents[i];
        i := i + 1;
      }
      i := 0;
      while i < |secondLevel|
        invariant 0 <= i <= |secondLevel|
        invariant all == (&& Value().IsOurOutputSpent() && (forall j :: 0 <= j < |htlcSpents| ==> htlcSpents[j])
                          && forall j :: 0 <= j < i ==> secondLevel[j].spent)
      {
        all := all && secondLevel[i].spent;
        i := i + 1;
      }
    }
  }

  lemma {:induction false} SetFirstAt(xs: seq<SecondLevel>, o: OutPoint, spent: bool, i: nat)
    requires i < |xs| && xs[i].outpoint == o && (forall j :: 0 <= j < i ==> xs[j].outpoint != o)
    ensures SetFirst(xs, o, spent) == xs[i := SecondLevel(o, spent)]
    decreases i
  {
    if i > 0 {
      SetFirstAt(xs[1..], o, spent, i - 1);
      assert xs == [xs[0]] + xs[1..];
    }
  }

  class LiveState {
    var height: nat
    var fundingTxids: seq<Txid>
    var fundingVouts: seq<nat>
    var fundingInputs: set<OutPoint>
    var fundingHeight: Option<nat>
    var fundingOutpoint: Option<OutPoint>
    var doubleSpentHeight: Option<nat>
    var mutualHeight: Option<nat>
    var unilateralHeight: Option<nat>
    var closing: LiveClosing?
    var closingSweptHeight: Option<nat>
    var ourSweptHeight: Option<nat>
    var sawBlock: bool
    var sawForget: bool

    function Footprint(): set<object>
      reads this
    {
      if closing == null then {this} else {this, closing}
    }

    function ClosingValue(): Option<ClosingOutpoints>
      reads Footprint()
    {
      if closing == null then None else Some(closing.Value())
    }

    function Value(): State
      reads Footprint()
    {
      State(height, fundingTxids, fundingVouts, fundingInputs, fundingHeight, fundingOutpoint, doubleSpentHeight,
            mutualHeight, unilateralHeight, ClosingValue(), closingSweptHeight, ourSweptHeight, sawBlock, sawForget)
    }

    /** A deep copy, as the decoder takes of the committed state. */
    constructor (s: State)
      ensures Value() == s && fresh(Footprint())
    {
      height := s.height;
      fundingTxids := s.fundingTxids;
      fundingVouts := s.fundingVouts;
      fundingInputs := s.fundingInputs;
      fundingHeight := s.fundingHeight;
      fundingOutpoint := s.fundingOutpoint;
      doubleSpentHeight := s.doubleSpentHeight;
      mutualHeight := s.mutualHeight;
      unilateralHeight := s.unilateralHeight;
      closingSweptHeight := s.closingSweptHeight;
      ourSweptHeight := s.ourSweptHeight;
      sawBlock := s.sawBlock;
      sawForget := s.sawForget;
      if s.closing.Some? {
        closing := new LiveClosing.Copy(s.closing.value);
      } else {
        closing := null;
      }
    }

    /** The changes to tracked outputs, applied. */
    method SpendTracked(adds: seq<OutPoint>, removes: seq<OutPoint>, c: Change)
      returns (ok: bool, adds': seq<OutPoint>, removes': seq<OutPoint>)
      requires c.OurOutputSpent? || c.HtlcOutputSpent? || c.SecondLevelSpent?
      modifies Footprint()
      ensures Footprint() == old(Footprint())
      ensures ok == Forward(old(Value()), c).Some?
      ensures ok ==> Value() == Forward(old(Value()), c).value
      ensures ok ==> adds' == adds + ForwardAdds(old(Value()), c)
      ensures ok ==> removes' == removes + ForwardRemoves(old(Value()), c)
    {
      ok, adds', removes' := true, adds, removes;
      match c {
        case OurOutputSpent(v) =>
          ok := closing != null;
          if ok {
            ok := closing.SetOurOutputSpent(v, true);
            removes' := removes' + [OutPoint(closing.txid, v)];
          }
        case HtlcOutputSpent(v, second) =>
          ok := closing != null;
          if ok {
            ok := closing.SetHtlcOutputSpent(v, true);
            if ok {
              removes' := removes' + [OutPoint(closing.txid, v)];
              closing.AddSecondLevel(second);
              adds' := adds' + [second];
            }
          }
        case SecondLevelSpent(o) =>
          ok := closing != null;
          if ok {
            ok := closing.SetSecondLevelSpent(o, true);
            removes' := removes' + [o];
          }
      }
    }

    /** The changes to tracked outputs, undone. */
    method UnspendTracked(adds: seq<OutPoint>, removes: seq<OutPoint>, c: Change)
      returns (ok: bool, adds': seq<OutPoint>, removes': seq<OutPoint>)
      requires c.OurOutputSpent? || c.HtlcOutputSpent? || c.SecondLevelSpent?
      modifies Footprint()
      ensures Footprint() == old(Footprint())
      ensures ok == Backward(old(Value()), c).Some?
      ensures ok ==> Value() == Backward(old(Value()), c).value
      ensures ok ==> adds' == adds + BackwardAdds(old(Value()), c)
      ensures ok ==> removes' == removes + BackwardRemoves(old(Value()), c)
    {
      ok, adds', removes' := true, adds, removes;
      match c {
        case OurOutputSpent(v) =>
          ok := closing != null;
          if ok {
            ok := closing.SetOurOutputSpent(v, false);
            removes' := removes' + [OutPoint(closing.txid, v)];
          }
        case HtlcOutputSpent(v, second) =>
          ok := closing != null;
          if ok {
            ok := closing.SetHtlcOutputSpent(v, false);
            if ok {
              closing.RemoveSecondLevel(second);
              adds' := adds' + [OutPoint(closing.txid, v)];
              removes' := removes' + [second];
            }
          }
        case SecondLevelSpent(o) =>
          ok := closing != null;
          if ok {
            ok := closing.SetSecondLevelSpent(o, false);
            adds' := adds' + [o];
          }
      }
    }

    method RecordClose(adds: seq<OutPoint>, removes: seq<OutPoint>, c: Change)
      returns (adds': seq<OutPoint>, removes': seq<OutPoint>)
      requires c.UnilateralClose?
      modifies Footprint()
      ensures fresh(Footprint() - old(Footprint()))
      ensures Value() == Forward(old(Value()), c).value
      ensures adds' == adds + ForwardAdds(old(Value()), c)
      ensures removes' == removes + ForwardRemoves(old(Value()), c)
    {
      unilateralHeight := Some(height);
      removes' := removes + [c.funding];
      adds' := PushClose(adds, c);
      closing := new LiveClosing(c.txid, c.our, c.htlcs);
    }

    method EraseClose(adds: seq<OutPoint>, removes: seq<OutPoint>, c: Change)
      returns (ok: bool, adds': seq<OutPoint>, removes': seq<OutPoint>)
      requires c.UnilateralClose?
      modifies Footprint()
      ensures Footprint() <= old(Footprint())
      ensures ok == Backward(old(Value()), c).Some?
      ensures ok ==> Value() == Backward(old(Value()), c).value
      ensures adds' == adds + BackwardAdds(old(Value()), c)
      ensures removes' == removes + BackwardRemoves(old(Value()), c)
    {
      ok := unilateralHeight == Some(height);
      unilateralHeight := None;
      closing := null;
      adds' := PushClose(adds, c);
      removes' := removes + [c.funding];
    }

    method ApplyForwardChange(adds: seq<OutPoint>, removes: seq<OutPoint>, c: Change)
      returns (ok: bool, adds': seq<OutPoint>, removes': seq<OutPoint>)
      modifies Footprint()
      ensures fresh(Footprint() - old(Footprint()))
      ensures ok == Forward(old(Value()), c).Some?
      ensures ok ==> Value() == Forward(old(Value()), c).value
      ensures ok ==> adds' == adds + ForwardAdds(old(Value()), c)
      ensures ok ==> removes' == removes + ForwardRemoves(old(Value()), c)
    {
      ok, adds', removes' := true, adds, removes;
      if c.FundingConfirmed? {
        fundingHeight := Some(height);
        fundingOutpoint := Some(c.outpoint);
        doubleSpentHeight := None;
        adds' := adds + [c.outpoint];
      } else if c.FundingInputSpent? {
        if doubleSpentHeight.None? {
          doubleSpentHeight := Some(height);
        }
        removes' := removes + [c.input];
      } else if c.UnilateralClose? {
        adds', removes' := RecordClose(adds, removes, c);
      } else if c.MutualClose? {
        mutualHeight := Some(height);
        removes' := removes + [c.funding];
      } else {
        ok, adds', removes' := SpendTracked(adds, removes, c);
      }
    }

    method ApplyBackwardChange(adds: seq<OutPoint>, removes: seq<OutPoint>, c: Change)
      returns (ok: bool, adds': seq<OutPoint>, removes': seq<OutPoint>)
      modifies Footprint()
      ensures Footprint() <= old(Footprint())
      ensures ok == Backward(old(Value()), c).Some?
      ensures ok ==> Value() == Backward(old(Value()), c).value
      ensures ok ==> adds' == adds + BackwardAdds(old(Value()), c)
      ensures ok ==> removes' == removes + BackwardRemoves(old(Value()), c)
    {
      ok, adds', removes' := true, adds, removes;
      if c.FundingConfirmed? {
        ok := fundingHeight == Some(height);
        fundingHeight := None;
        fundingOutpoint := None;
        adds' := adds + [c.outpoint];
      } else if c.FundingInputSpent? {
        if doubleSpentHeight == Some(height) {
          doubleSpentHeight := None;
        }
        removes' := removes + [c.input];
      } else if c.UnilateralClose? {
        ok, adds', removes' := EraseClose(adds, removes, c);
      } else if c.MutualClose? {
        mutualHeight := None;
        removes' := removes + [c.funding];
      } else {
        ok, adds', removes' := UnspendTracked(adds, removes, c);
      }
    }

    method ClosingSwept() returns (swept: bool)
      ensures swept == IsClosingSwept(Value())
    {
      swept := false;
      if closing != null {
        swept := closing.IsAllSpent();
      }
    }

    method OurOutputSwept() returns (swept: bool)
      ensures swept == IsOurOutputSwept(Value())
    {
      swept := closing != null && (closing.ourOutput.Some? ==> closing.ourOutput.value.spent);
    }

    /** The changes applied in order, with the watch reports collected. */
    method ApplyAll(cs: seq<Change>) returns (ok: bool, adds: seq<OutPoint>, removes: seq<OutPoint>)
      modifies Footprint()
      ensures fresh(Footprint() - old(Footprint()))
      ensures ok == ForwardAll(Effect(old(Value()), [], []), cs).Some?
      ensures ok ==> Effect(Value(), adds, removes) == ForwardAll(Effect(old(Value()), [], []), cs).value
    {
      ok, adds, removes := true, [], [];
      var i := 0;
      while i < |cs|
        invariant 0 <= i <= |cs| && ok
        invariant fresh(Footprint() - old(Footprint()))
        invariant ForwardAll(Effect(old(Value()), [], []), cs) == ForwardAll(Effect(Value(), adds, removes), cs[i..])
      {
        ghost var e := Effect(Value(), adds, removes);
        assert cs[i..][0] == cs[i] && cs[i..][1..] == cs[i + 1..];
        ok, adds, removes := ApplyForwardChange(adds, removes, cs[i]);
        if !ok {
          return;
        }
        i := i + 1;
      }
    }

    /** The changes undone in the same order. */
    method UndoAll(cs: seq<Change>) returns (ok: bool, adds: seq<OutPoint>, removes: seq<OutPoint>)
      modifies Footprint()
      ensures Footprint() <= old(Footprint())
      ensures ok == BackwardAll(Effect(old(Value()), [], []), cs).Some?
      ensures ok ==> Effect(Value(), adds, removes) == BackwardAll(Effect(old(Value()), [], []), cs).value
    {
      ok, adds, removes := true, [], [];
      var i := 0;
      while i < |cs|
        invariant 0 <= i <= |cs| && ok
        invariant Footprint() <= old(Footprint())
        invariant BackwardAll(Effect(old(Value()), [], []), cs) == BackwardAll(Effect(Value(), adds, removes), cs[i..])
      {
        assert cs[i..][0] == cs[i] && cs[i..][1..] == cs[i + 1..];
        ok, adds, removes := ApplyBackwardChange(adds, removes, cs[i]);
        if !ok {
          return;
        }
        i := i + 1;
      }
    }

    method MarkSwept(closingWas: bool, ourWas: bool)
      modifies this
      ensures Footprint() == old(Footprint())
      ensures
        var t := old(Value());
        Value() == t.(
          closingSweptHeight := if !closingWas && IsClosingSwept(t) then Some(t.height) else t.closingSweptHeight,
          ourSweptHeight := if !ourWas && IsOurOutputSwept(t) then Some(t.height) else t.ourSweptHeight)
    {
      var closingNow := ClosingSwept();
      var ourNow := OurOutputSwept();
      if !closingWas && closingNow {
        closingSweptHeight := Some(height);
      }
      if !ourWas && ourNow {
        ourSweptHeight := Some(height);
      }
    }

    method UnmarkSwept(closingWas: bool, ourWas: bool)
      modifies this
      ensures Footprint() == old(Footprint())
      ensures
        var t := old(Value());
        Value() == t.(
          closingSweptHeight := if closingWas && !IsClosingSwept(t) then None else t.closingSweptHeight,
          ourSweptHeight := if ourWas && !IsOurOutputSwept(t) then None else t.ourSweptHeight)
    {
      var closingNow := ClosingSwept();
      var ourNow := OurOutputSwept();
      if closingWas && !closingNow {
        closingSweptHeight := None;
      }
      if ourWas && !ourNow {
        ourSweptHeight := None;
      }
    }

    method Raise()
      modifies this
      ensures Footprint() == old(Footprint())
      ensures Value() == old(Value()).(sawBlock := true, height := old(height) + 1)
    {
      sawBlock := true;
      height := height + 1;
    }

    method OnAddBlockEnd(cs: seq<Change>) returns (ok: bool, adds: seq<OutPoint>, removes: seq<OutPoint>)
      modifies Footprint()
      ensures fresh(Footprint() - old(Footprint()))
      ensures ok == AddBlockEnd(old(Value()), cs).Some?
      ensures ok ==> Effect(Value(), adds, removes) == AddBlockEnd(old(Value()), cs).value
    {
      Raise();
      var closingWas := ClosingSwept();
      var ourWas := OurOutputSwept();
      ok, adds, removes := ApplyAll(cs);
      if ok {
        MarkSwept(closingWas, ourWas);
      }
    }

    method OnRemoveBlockEnd(cs: seq<Change>) returns (ok: bool, adds: seq<OutPoint>, removes: seq<OutPoint>)
      modifies Footprint()
      ensures Footprint() <= old(Footprint())
      ensures ok == RemoveBlockEnd(old(Value()), cs).Some?
      ensures ok ==> Effect(Value(), adds, removes) == RemoveBlockEnd(old(Value()), cs).value
    {
      var closingWas := ClosingSwept();
      var ourWas := OurOutputSwept();
      ok, adds, removes := UndoAll(cs);
      if ok {
        UnmarkSwept(closingWas, ourWas);
        ok := height > 0;
        if ok {
          height := height - 1;
        }
      }
    }
  }

  /** The close's outputs: ours, if any, then the HTLC outputs one by one. */
  method PushClose(adds: seq<OutPoint>, c: Change) returns (adds': seq<OutPoint>)
    requires c.UnilateralClose?
    ensures adds' == adds + ((if c.our.Some? then [OutPoint(c.txid, c.our.value)] else []) + Outputs(c.txid, c.htlcs))
  {
    var ours := if c.our.Some? then [OutPoint(c.txid, c.our.value)] else [];
    adds' := PushOutputs(adds + ours, c.txid, c.htlcs);
    assert adds + ours + Outputs(c.txid, c.htlcs) == adds + (ours + Outputs(c.txid, c.htlcs));
  }

  method PushOutputs(adds: seq<OutPoint>, txid: Txid, vouts: seq<nat>) returns (adds': seq<OutPoint>)
    ensures adds' == adds + Outputs(txid, vouts)
  {
    adds' := adds;
    var i := 0;
    while i < |vouts|
      invariant 0 <= i <= |vouts|
      invariant adds' == adds + Outputs(txid, vouts[..i])
    {
      assert vouts[..i + 1] == vouts[..i] + [vouts[i]];
      assert Outputs(txid, vouts[..i + 1]) == Outputs(txid, vouts[..i]) + [OutPoint(txid, vouts[i])];
      adds' := adds' + [OutPoint(txid, vouts[i])];
      i := i + 1;
    }
    assert vouts[..i] == vouts;
  }
}
