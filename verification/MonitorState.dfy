/**
 The monitor's state, the changes a block can make to it, and what applying or
 undoing one change does (`None` is a failed assertion or unwrap).
 */
module MonitorState {
  import opened Options
  import opened Chain
  import opened Closing

  datatype State = State(
    height: nat,
    fundingTxids: seq<Txid>,
    fundingVouts: seq<nat>,
    fundingInputs: set<OutPoint>,
    fundingHeight: Option<nat>,
    fundingOutpoint: Option<OutPoint>,
    doubleSpentHeight: Option<nat>,
    mutualHeight: Option<nat>,
    unilateralHeight: Option<nat>,
    closing: Option<ClosingOutpoints>,
    closingSweptHeight: Option<nat>,
    ourSweptHeight: Option<nat>,
    sawBlock: bool,
    sawForget: bool)

  datatype Change =
    | FundingConfirmed(outpoint: OutPoint)
    | FundingInputSpent(input: OutPoint)
    | UnilateralClose(txid: Txid, funding: OutPoint, our: Option<nat>, htlcs: seq<nat>)
    | MutualClose(txid: Txid, funding: OutPoint)
    | OurOutputSpent(vout: nat)
    | HtlcOutputSpent(vout: nat, second: OutPoint)
    | SecondLevelSpent(outpoint: OutPoint)

  predicate IsClosingSwept(s: State) {
    s.closing.Some? && s.closing.value.IsAllSpent()
  }

  predicate IsOurOutputSwept(s: State) {
    s.closing.Some? && s.closing.value.IsOurOutputSpent()
  }

  function WithClosing(s: State, c: Option<ClosingOutpoints>): Option<State> {
    if c.Some? then Some(s.(closing := c)) else None
  }

  function Forward(s: State, c: Change): Option<State> {
    match c
    case FundingConfirmed(o) =>
      Some(s.(fundingHeight := Some(s.height), fundingOutpoint := Some(o), doubleSpentHeight := None))
    case FundingInputSpent(_) =>
      Some(if s.doubleSpentHeight.Some? then s else s.(doubleSpentHeight := Some(s.height)))
    case UnilateralClose(txid, _, our, htlcs) =>
      Some(s.(unilateralHeight := Some(s.height), closing := Some(Closing.New(txid, our, htlcs))))
    case MutualClose(_, _) => Some(s.(mutualHeight := Some(s.height)))
    case OurOutputSpent(v) =>
      if s.closing.None? then None else WithClosing(s, s.closing.value.SetOurOutputSpent(v, true))
    case HtlcOutputSpent(v, second) =>
      if s.closing.None? then None else
        var marked := s.closing.value.SetHtlcOutputSpent(v, true);
        if marked.None? then None else WithClosing(s, Some(marked.value.AddSecondLevel(second)))
    case SecondLevelSpent(o) =>
      if s.closing.None? then None else WithClosing(s, s.closing.value.SetSecondLevelSpent(o, true))
  }

  function Backward(s: State, c: Change): Option<State> {
    match c
    case FundingConfirmed(_) =>
      if s.fundingHeight == Some(s.height)
      then Some(s.(fundingHeight := None, fundingOutpoint := None))
      else None
    case FundingInputSpent(_) =>
      Some(if s.doubleSpentHeight == Some(s.height) then s.(doubleSpentHeight := None) else s)
    case UnilateralClose(_, _, _, _) =>
      if s.unilateralHeight == Some(s.height)
      then Some(s.(unilateralHeight := None, closing := None))
      else None
    case MutualClose(_, _) => Some(s.(mutualHeight := None))
    case OurOutputSpent(v) =>
      if s.closing.None? then None else WithClosing(s, s.closing.value.SetOurOutputSpent(v, false))
    case HtlcOutputSpent(v, second) =>
      if s.closing.None? then None else
        var marked := s.closing.value.SetHtlcOutputSpent(v, false);
        if marked.None? then None else WithClosing(s, Some(marked.value.RemoveSecondLevel(second)))
    case SecondLevelSpent(o) =>
      if s.closing.None? then None else WithClosing(s, s.closing.value.SetSecondLevelSpent(o, false))
  }

  /** The txid of the close a change to a tracked output is about. */
  function ClosingTxid(s: State): Txid {
    if s.closing.Some? then s.closing.value.txid else 0
  }

  function Outputs(txid: Txid, vouts: seq<nat>): seq<OutPoint> {
    seq(|vouts|, i requires 0 <= i < |vouts| => OutPoint(txid, vouts[i]))
  }

  /** The outpoints to start watching that applying `c` to `s` reports. */
  function ForwardAdds(s: State, c: Change): seq<OutPoint> {
    match c
    case FundingConfirmed(o) => [o]
    case UnilateralClose(txid, _, our, htlcs) =>
      (if our.Some? then [OutPoint(txid, our.value)] else []) + Outputs(txid, htlcs)
    case HtlcOutputSpent(_, second) => [second]
    case _ => []
  }

  function ForwardRemoves(s: State, c: Change): seq<OutPoint> {
    match c
    case FundingConfirmed(_) => []
    case FundingInputSpent(o) => [o]
    case UnilateralClose(_, funding, _, _) => [funding]
    case MutualClose(_, funding) => [funding]
    case OurOutputSpent(v) => [OutPoint(ClosingTxid(s), v)]
    case HtlcOutputSpent(v, _) => [OutPoint(ClosingTxid(s), v)]
    case SecondLevelSpent(o) => [o]
  }

  /** The backward reports. The caller removes the adds and adds the removes; the
      two HTLC variants report them the other way round, as the source does. */
  function BackwardAdds(s: State, c: Change): seq<OutPoint> {
    match c
    case FundingConfirmed(o) => [o]
    case UnilateralClose(txid, _, our, htlcs) =>
      (if our.Some? then [OutPoint(txid, our.value)] else []) + Outputs(txid, htlcs)
    case HtlcOutputSpent(v, _) => [OutPoint(ClosingTxid(s), v)]
    case SecondLevelSpent(o) => [o]
    case _ => []
  }

  function BackwardRemoves(s: State, c: Change): seq<OutPoint> {
    match c
    case FundingConfirmed(_) => []
    case FundingInputSpent(o) => [o]
    case UnilateralClose(_, funding, _, _) => [funding]
    case MutualClose(_, funding) => [funding]
    case OurOutputSpent(v) => [OutPoint(ClosingTxid(s), v)]
    case HtlcOutputSpent(_, second) => [second]
    case SecondLevelSpent(_) => []
  }

  /** A state together with the watch adds and removes reported so far. */
  datatype Effect = Effect(state: State, adds: seq<OutPoint>, removes: seq<OutPoint>)

  function ForwardEffect(e: Effect, c: Change): Option<Effect> {
    var s := Forward(e.state, c);
    if s.None? then None
    else Some(Effect(s.value, e.adds + ForwardAdds(e.state, c), e.removes + ForwardRemoves(e.state, c)))
  }

  function BackwardEffect(e: Effect, c: Change): Option<Effect> {
    var s := Backward(e.state, c);
    if s.None? then None
    else Some(Effect(s.value, e.adds + BackwardAdds(e.state, c), e.removes + BackwardRemoves(e.state, c)))
  }

  /** Changes applied oldest first. */
  function ForwardAll(e: Effect, cs: seq<Change>): Option<Effect>
    decreases |cs|
  {
    if cs == [] then Some(e) else
      var e' := ForwardEffect(e, cs[0]);
      if e'.None? then None else ForwardAll(e'.value, cs[1..])
  }

  /** Changes undone oldest first, as the source does. */
  function BackwardAll(e: Effect, cs: seq<Change>): Option<Effect>
    decreases |cs|
  {
    if cs == [] then Some(e) else
      var e' := BackwardEffect(e, cs[0]);
      if e'.None? then None else BackwardAll(e'.value, cs[1..])
  }

  /** The state part of `ForwardAll`. */
  function Apply(s: State, cs: seq<Change>): Option<State>
    decreases |cs|
  {
    if cs == [] then Some(s) else
      var s' := Forward(s, cs[0]);
      if s'.None? then None else Apply(s'.value, cs[1..])
  }

  /** The state part of `BackwardAll`. */
  function Undo(s: State, cs: seq<Change>): Option<State>
    decreases |cs|
  {
    if cs == [] then Some(s) else
      var s' := Backward(s, cs[0]);
      if s'.None? then None else Undo(s'.value, cs[1..])
  }

  lemma {:induction false} ForwardAllState(e: Effect, cs: seq<Change>)
    ensures ForwardAll(e, cs).Some? == Apply(e.state, cs).Some?
    ensures ForwardAll(e, cs).Some? ==> ForwardAll(e, cs).value.state == Apply(e.state, cs).value
    decreases |cs|
  {
    if cs != [] && ForwardEffect(e, cs[0]).Some? {
      ForwardAllState(ForwardEffect(e, cs[0]).value, cs[1..]);
    }
  }

  lemma {:induction false} BackwardAllState(e: Effect, cs: seq<Change>)
    ensures BackwardAll(e, cs).Some? == Undo(e.state, cs).Some?
    ensures BackwardAll(e, cs).Some? ==> BackwardAll(e, cs).value.state == Undo(e.state, cs).value
    decreases |cs|
  {
    if cs != [] && BackwardEffect(e, cs[0]).Some? {
      BackwardAllState(BackwardEffect(e, cs[0]).value, cs[1..]);
    }
  }

  lemma {:induction false} ApplyAppend(s: State, xs: seq<Change>, ys: seq<Change>)
    ensures Apply(s, xs + ys) ==
            if Apply(s, xs).Some? then Apply(Apply(s, xs).value, ys) else None
    decreases |xs|
  {
    if xs == [] {
      assert xs + ys == ys;
    } else {
      assert (xs + ys)[0] == xs[0] && (xs + ys)[1..] == xs[1..] + ys;
      if Forward(s, xs[0]).Some? {
        ApplyAppend(Forward(s, xs[0]).value, xs[1..], ys);
      }
    }
  }

  /** Committing a block: the changes applied at the new height, then the swept heights. */
  function AddBlockEnd(s: State, cs: seq<Change>): Option<Effect> {
    var e := ForwardAll(Effect(s.(sawBlock := true, height := s.height + 1), [], []), cs);
    if e.None? then None else
      var t := e.value.state;
      Some(e.value.(state := t.(
                      closingSweptHeight :=
                        if !IsClosingSwept(s) && IsClosingSwept(t) then Some(t.height) else t.closingSweptHeight,
                      ourSweptHeight :=
                        if !IsOurOutputSwept(s) && IsOurOutputSwept(t) then Some(t.height) else t.ourSweptHeight)))
  }

  /** Removing a block: the changes undone, the swept heights cleared, then the height lowered. */
  function RemoveBlockEnd(s: State, cs: seq<Change>): Option<Effect> {
    var e := BackwardAll(Effect(s, [], []), cs);
    if e.None? || e.value.state.height == 0 then None else
      var t := e.value.state;
      Some(e.value.(state := t.(
                      closingSweptHeight :=
                        if IsClosingSwept(s) && !IsClosingSwept(t) then None else t.closingSweptHeight,
                      ourSweptHeight :=
                        if IsOurOutputSwept(s) && !IsOurOutputSwept(t) then None else t.ourSweptHeight,
                      height := t.height - 1)))
  }
}
