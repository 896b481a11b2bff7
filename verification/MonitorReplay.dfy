/**
 Undoing a list of changes oldest first, the order in which the source undoes them.
 The undo is exact when no change in the list builds on an earlier one, and panics
 when one does.
 */
module MonitorReplay {
  import opened Options
  import opened Chain
  import opened Closing
  import opened MonitorState

  /** `c` records something `s` has not recorded yet. */
  predicate Fresh(s: State, c: Change) {
    match c
    case FundingConfirmed(_) => s.fundingHeight.None? && s.fundingOutpoint.None?
    case FundingInputSpent(_) => true
    case UnilateralClose(_, _, _, _) => s.unilateralHeight.None? && s.closing.None?
    case MutualClose(_, _) => s.mutualHeight.None?
    case OurOutputSpent(v) => s.closing.Some? && s.closing.value.ourOutput == Some(OurOutput(v, false))
    case HtlcOutputSpent(v, second) =>
      s.closing.Some? && HtlcFlag(s.closing.value, v) == Some(false) && !s.closing.value.IncludesSecondLevel(second)
    case SecondLevelSpent(o) => s.closing.Some? && SecondFlag(s.closing.value, o) == Some(false)
  }

  function HtlcFlag(c: ClosingOutpoints, v: nat): Option<bool> {
    if v in c.htlcOutputs && FirstVout(c.htlcOutputs, v) < |c.htlcSpents|
    then Some(c.htlcSpents[FirstVout(c.htlcOutputs, v)]) else None
  }

  function SecondFlag(c: ClosingOutpoints, o: OutPoint): Option<bool> {
    if c.IncludesSecondLevel(o) then Some(FirstSpent(c.secondLevel, o)) else None
  }

  predicate FirstSpent(xs: seq<SecondLevel>, o: OutPoint) {
    xs != [] && if xs[0].outpoint == o then xs[0].spent else FirstSpent(xs[1..], o)
  }

  /** What `c` recorded is still there in `s`, at the current height. */
  predicate Applied(s: State, c: Change) {
    match c
    case FundingConfirmed(_) => s.fundingHeight == Some(s.height) && s.fundingOutpoint.Some?
    case FundingInputSpent(_) => true
    case UnilateralClose(_, _, _, _) => s.unilateralHeight == Some(s.height) && s.closing.Some?
    case MutualClose(_, _) => s.mutualHeight.Some?
    case OurOutputSpent(v) => s.closing.Some? && s.closing.value.ourOutput == Some(OurOutput(v, true))
    case HtlcOutputSpent(v, second) =>
      s.closing.Some? && HtlcFlag(s.closing.value, v) == Some(true) && s.closing.value.IncludesSecondLevel(second)
    case SecondLevelSpent(o) => s.closing.Some? && SecondFlag(s.closing.value, o) == Some(true)
  }

  predicate Good(s: State, cs: seq<Change>)
    decreases |cs|
  {
    cs == [] || (Fresh(s, cs[0]) && Forward(s, cs[0]).Some? && Good(Forward(s, cs[0]).value, cs[1..]))
  }

  /** `later` is about an output that `earlier` made the monitor track. */
  predicate BuildsOn(earlier: Change, later: Change) {
    || (earlier.UnilateralClose? && (later.OurOutputSpent? || later.HtlcOutputSpent? || later.SecondLevelSpent?))
    || (earlier.HtlcOutputSpent? && later.SecondLevelSpent? && later.outpoint == earlier.second)
  }

  /** No change of the list builds on an earlier one. */
  predicate Independent(cs: seq<Change>) {
    forall i, j :: 0 <= i < j < |cs| ==> !BuildsOn(cs[i], cs[j])
  }

  predicate ConfirmsFunding(cs: seq<Change>) {
    exists i :: 0 <= i < |cs| && cs[i].FundingConfirmed?
  }

  lemma {:induction false} GoodApplies(s: State, cs: seq<Change>)
    requires Good(s, cs)
    ensures Apply(s, cs).Some?
    decreases |cs|
  {
    if cs != [] { GoodApplies(Forward(s, cs[0]).value, cs[1..]); }
  }

  lemma {:induction false} GoodAppend(s: State, xs: seq<Change>, ys: seq<Change>)
    requires Good(s, xs) && Apply(s, xs).Some? && Good(Apply(s, xs).value, ys)
    ensures Good(s, xs + ys)
    decreases |xs|
  {
    if xs == [] {
      assert xs + ys == ys;
    } else {
      assert (xs + ys)[0] == xs[0] && (xs + ys)[1..] == xs[1..] + ys;
      GoodAppend(Forward(s, xs[0]).value, xs[1..], ys);
    }
  }

  // ---------------------------------------------------------------------------
  // The list of second-level outputs
  // ---------------------------------------------------------------------------

  lemma HasCons(xs: seq<SecondLevel>, o: OutPoint)
    requires xs != []
    ensures Has(xs, o) <==> xs[0].outpoint == o || Has(xs[1..], o)
  {
    if Has(xs, o) {
      var i :| 0 <= i < |xs| && xs[i].outpoint == o;
      if i > 0 { assert xs[1..][i - 1].outpoint == o; }
    }
    if Has(xs[1..], o) {
      var i :| 0 <= i < |xs[1..]| && xs[1..][i].outpoint == o;
      assert xs[i + 1].outpoint == o;
    }
  }

  lemma {:induction false} WithoutHas(xs: seq<SecondLevel>, o: OutPoint, x: OutPoint)
    ensures Has(Without(xs, o), x) <==> x != o && Has(xs, x)
    decreases |xs|
  {
    if xs != [] {
      WithoutHas(xs[1..], o, x);
      HasCons(xs, x);
      if xs[0].outpoint != o {
        var ys := Without(xs, o);
        assert ys == [xs[0]] + Without(xs[1..], o);
        assert ys[1..] == Without(xs[1..], o);
        HasCons(ys, x);
      } else {
        assert Without(xs, o) == Without(xs[1..], o);
      }
    }
  }

  lemma {:induction false} WithoutAppend(xs: seq<SecondLevel>, e: SecondLevel, o: OutPoint)
    ensures Without(xs + [e], o) == Without(xs, o) + if e.outpoint == o then [] else [e]
    decreases |xs|
  {
    if xs != [] {
      assert (xs + [e])[0] == xs[0] && (xs + [e])[1..] == xs[1..] + [e];
      WithoutAppend(xs[1..], e, o);
    }
  }

  lemma {:induction false} WithoutAbsent(xs: seq<SecondLevel>, o: OutPoint)
    requires !Has(xs, o)
    ensures Without(xs, o) == xs
    decreases |xs|
  {
    if xs != [] {
      HasCons(xs, o);
      WithoutAbsent(xs[1..], o);
    }
  }

  lemma {:induction false} WithoutSet(xs: seq<SecondLevel>, o: OutPoint, x: OutPoint, spent: bool)
    requires o != x
    ensures Without(SetFirst(xs, x, spent), o) == SetFirst(Without(xs, o), x, spent)
    ensures FirstSpent(Without(xs, o), x) == FirstSpent(xs, x)
    decreases |xs|
  {
    if xs != [] {
      var ys := SetFirst(xs, x, spent);
      WithoutSet(xs[1..], o, x, spent);
      if xs[0].outpoint == x {
        assert ys[1..] == xs[1..];
      } else {
        assert ys[0] == xs[0] && ys[1..] == SetFirst(xs[1..], x, spent);
      }
      if xs[0].outpoint != o {
        assert Without(xs, o)[1..] == Without(xs[1..], o);
      } else {
        assert Without(xs, o) == Without(xs[1..], o);
      }
    }
  }

  lemma {:induction false} SetAppend(xs: seq<SecondLevel>, e: SecondLevel, x: OutPoint, spent: bool)
    requires Has(xs, x)
    ensures SetFirst(xs + [e], x, spent) == SetFirst(xs, x, spent) + [e]
    ensures FirstSpent(xs + [e], x) == FirstSpent(xs, x)
    decreases |xs|
  {
    HasCons(xs, x);
    assert (xs + [e])[0] == xs[0] && (xs + [e])[1..] == xs[1..] + [e];
    if xs[0].outpoint != x { SetAppend(xs[1..], e, x, spent); }
  }

  lemma SetHas(xs: seq<SecondLevel>, x: OutPoint, spent: bool, o: OutPoint)
    ensures Has(SetFirst(xs, x, spent), o) == Has(xs, o)
  {
    var ys := SetFirst(xs, x, spent);
    if Has(xs, o) { var i :| 0 <= i < |xs| && xs[i].outpoint == o; assert ys[i].outpoint == o; }
    if Has(ys, o) { var i :| 0 <= i < |ys| && ys[i].outpoint == o; assert xs[i].outpoint == o; }
  }

  lemma {:induction false} SetSpent(xs: seq<SecondLevel>, x: OutPoint, spent: bool, o: OutPoint)
    requires Has(xs, o)
    ensures FirstSpent(SetFirst(xs, x, spent), o) == if x == o then spent else FirstSpent(xs, o)
    decreases |xs|
  {
    HasCons(xs, o);
    var ys := SetFirst(xs, x, spent);
    if xs[0].outpoint == x {
      assert ys[1..] == xs[1..];
    } else {
      assert ys[0] == xs[0] && ys[1..] == SetFirst(xs[1..], x, spent);
      if xs[0].outpoint != o { SetSpent(xs[1..], x, spent, o); }
    }
  }

  lemma {:induction false} SetSet(xs: seq<SecondLevel>, x: OutPoint, b: bool, o: OutPoint, d: bool)
    requires x != o
    ensures SetFirst(SetFirst(xs, x, b), o, d) == SetFirst(SetFirst(xs, o, d), x, b)
    decreases |xs|
  {
    if xs != [] {
      SetSet(xs[1..], x, b, o, d);
      var ys := SetFirst(xs, x, b);
      var zs := SetFirst(xs, o, d);
      assert ys[1..] == if xs[0].outpoint == x then xs[1..] else SetFirst(xs[1..], x, b);
      assert zs[1..] == if xs[0].outpoint == o then xs[1..] else SetFirst(xs[1..], o, d);
    }
  }

  lemma {:induction false} SetBack(xs: seq<SecondLevel>, o: OutPoint)
    requires Has(xs, o) && !FirstSpent(xs, o)
    ensures SetFirst(SetFirst(xs, o, true), o, false) == xs
    decreases |xs|
  {
    HasCons(xs, o);
    var ys := SetFirst(xs, o, true);
    if xs[0].outpoint == o {
      assert ys[1..] == xs[1..];
      assert xs[0] == SecondLevel(o, false);
    } else {
      assert ys[0] == xs[0] && ys[1..] == SetFirst(xs[1..], o, true);
      SetBack(xs[1..], o);
    }
  }

  // ---------------------------------------------------------------------------
  // Undoing one change below later, independent ones
  // ---------------------------------------------------------------------------

  predicate OnClosing(c: Change) {
    c.OurOutputSpent? || c.HtlcOutputSpent? || c.SecondLevelSpent?
  }

  /** Undoing what was just done gives the state back. */
  lemma UndoLast(s: State, a: Change)
    requires Fresh(s, a) && !a.FundingInputSpent? && s.doubleSpentHeight.None?
    ensures Forward(s, a).Some? && Applied(Forward(s, a).value, a)
    ensures Backward(Forward(s, a).value, a) == Some(s)
  {
    match a
    case HtlcOutputSpent(v, second) =>
      var c := s.closing.value;
      var k := FirstVout(c.htlcOutputs, v);
      assert c.htlcSpents[k := true][k := false] == c.htlcSpents;
      WithoutAppend(c.secondLevel, SecondLevel(second, false), second);
      WithoutAbsent(c.secondLevel, second);
      var added := c.secondLevel + [SecondLevel(second, false)];
      assert added[|c.secondLevel|].outpoint == second;
      assert Without(added, second) == c.secondLevel;
      var c' := Forward(s, a).value.closing.value;
      assert c'.SetHtlcOutputSpent(v, false).value.RemoveSecondLevel(second) == c;
    case SecondLevelSpent(o) =>
      var c := s.closing.value;
      SetBack(c.secondLevel, o);
      SetHas(c.secondLevel, o, true, o);
      SetSpent(c.secondLevel, o, true, o);
    case _ =>
  }

  lemma CommuteHtlcHtlc(y: State, a: Change, b: Change)
    requires a.HtlcOutputSpent? && b.HtlcOutputSpent? && Applied(y, a) && Fresh(y, b)
    ensures Backward(y, a).Some? && Forward(y, b).Some?
    ensures Fresh(Backward(y, a).value, b) && Applied(Forward(y, b).value, a)
    ensures Backward(Forward(y, b).value, a) == Forward(Backward(y, a).value, b)
  {
    var c := y.closing.value;
    var i, j := FirstVout(c.htlcOutputs, a.vout), FirstVout(c.htlcOutputs, b.vout);
    assert c.htlcSpents[i := false][j := true] == c.htlcSpents[j := true][i := false];
    var e := SecondLevel(b.second, false);
    WithoutAppend(c.secondLevel, e, a.second);
    WithoutHas(c.secondLevel, a.second, b.second);
    var k :| 0 <= k < |c.secondLevel| && c.secondLevel[k].outpoint == a.second;
    assert (c.secondLevel + [e])[k].outpoint == a.second;
  }

  /** Taking back an HTLC spend and marking another second-level output commute on the close. */
  lemma HtlcSecondCommute(c: ClosingOutpoints, v: nat, second: OutPoint, o: OutPoint)
    requires HtlcFlag(c, v) == Some(true) && c.IncludesSecondLevel(second)
    requires SecondFlag(c, o) == Some(false) && second != o
    ensures
      var back := c.SetHtlcOutputSpent(v, false).value.RemoveSecondLevel(second);
      var next := c.SetSecondLevelSpent(o, true).value;
      && SecondFlag(back, o) == Some(false)
      && HtlcFlag(next, v) == Some(true) && next.IncludesSecondLevel(second)
      && back.SetSecondLevelSpent(o, true) == Some(next.SetHtlcOutputSpent(v, false).value.RemoveSecondLevel(second))
  {
    WithoutSet(c.secondLevel, second, o, true);
    WithoutHas(c.secondLevel, second, o);
    SetHas(c.secondLevel, o, true, second);
  }

  lemma CommuteHtlcSecond(y: State, a: Change, b: Change)
    requires a.HtlcOutputSpent? && b.SecondLevelSpent? && Applied(y, a) && Fresh(y, b) && a.second != b.outpoint
    ensures Backward(y, a).Some? && Forward(y, b).Some?
    ensures Fresh(Backward(y, a).value, b) && Applied(Forward(y, b).value, a)
    ensures Backward(Forward(y, b).value, a) == Forward(Backward(y, a).value, b)
  {
    HtlcSecondCommute(y.closing.value, a.vout, a.second, b.outpoint);
  }

  /** Unmarking a second-level output and recording a new HTLC spend commute on the close. */
  lemma SecondHtlcCommute(c: ClosingOutpoints, o: OutPoint, v: nat, second: OutPoint)
    requires SecondFlag(c, o) == Some(true)
    requires HtlcFlag(c, v) == Some(false) && !c.IncludesSecondLevel(second)
    ensures
      var back := c.SetSecondLevelSpent(o, false).value;
      var next := c.SetHtlcOutputSpent(v, true).value.AddSecondLevel(second);
      && HtlcFlag(back, v) == Some(false) && !back.IncludesSecondLevel(second)
      && SecondFlag(next, o) == Some(true)
      && next.SetSecondLevelSpent(o, false) == Some(back.SetHtlcOutputSpent(v, true).value.AddSecondLevel(second))
  {
    var e := SecondLevel(second, false);
    SetAppend(c.secondLevel, e, o, false);
    SetHas(c.secondLevel, o, false, second);
    var k :| 0 <= k < |c.secondLevel| && c.secondLevel[k].outpoint == o;
    assert (c.secondLevel + [e])[k].outpoint == o;
  }

  lemma CommuteSecondHtlc(y: State, a: Change, b: Change)
    requires a.SecondLevelSpent? && b.HtlcOutputSpent? && Applied(y, a) && Fresh(y, b)
    ensures Backward(y, a).Some? && Forward(y, b).Some?
    ensures Fresh(Backward(y, a).value, b) && Applied(Forward(y, b).value, a)
    ensures Backward(Forward(y, b).value, a) == Forward(Backward(y, a).value, b)
  {
    SecondHtlcCommute(y.closing.value, a.outpoint, b.vout, b.second);
  }

  lemma CommuteSecondSecond(y: State, a: Change, b: Change)
    requires a.SecondLevelSpent? && b.SecondLevelSpent? && Applied(y, a) && Fresh(y, b)
    ensures Backward(y, a).Some? && Forward(y, b).Some?
    ensures Fresh(Backward(y, a).value, b) && Applied(Forward(y, b).value, a)
    ensures Backward(Forward(y, b).value, a) == Forward(Backward(y, a).value, b)
  {
    var xs := y.closing.value.secondLevel;
    SetSet(xs, a.outpoint, false, b.outpoint, true);
    SetHas(xs, a.outpoint, false, b.outpoint);
    SetHas(xs, b.outpoint, true, a.outpoint);
    SetSpent(xs, a.outpoint, false, b.outpoint);
    SetSpent(xs, b.outpoint, true, a.outpoint);
  }

  /** Undoing an applied change commutes with a later change that does not build on it. */
  lemma Commute(y: State, a: Change, b: Change)
    requires !a.FundingInputSpent? && !b.FundingInputSpent?
    requires Applied(y, a) && Fresh(y, b) && !BuildsOn(a, b) && y.doubleSpentHeight.None?
    ensures Backward(y, a).Some? && Forward(y, b).Some?
    ensures Fresh(Backward(y, a).value, b) && Applied(Forward(y, b).value, a)
    ensures Backward(Forward(y, b).value, a) == Forward(Backward(y, a).value, b)
  {
    if a.HtlcOutputSpent? && b.HtlcOutputSpent? {
      CommuteHtlcHtlc(y, a, b);
    } else if a.HtlcOutputSpent? && b.SecondLevelSpent? {
      CommuteHtlcSecond(y, a, b);
    } else if a.SecondLevelSpent? && b.HtlcOutputSpent? {
      CommuteSecondHtlc(y, a, b);
    } else if a.SecondLevelSpent? && b.SecondLevelSpent? {
      CommuteSecondSecond(y, a, b);
    } else if OnClosing(a) && OnClosing(b) {
      CommuteWithOur(y, a, b);
    } else {
      CommuteApart(y, a, b);
    }
  }

  lemma CommuteWithOur(y: State, a: Change, b: Change)
    requires OnClosing(a) && OnClosing(b) && (a.OurOutputSpent? || b.OurOutputSpent?)
    requires Applied(y, a) && Fresh(y, b)
    ensures Backward(y, a).Some? && Forward(y, b).Some?
    ensures Fresh(Backward(y, a).value, b) && Applied(Forward(y, b).value, a)
    ensures Backward(Forward(y, b).value, a) == Forward(Backward(y, a).value, b)
  {
  }

  lemma CommuteApart(y: State, a: Change, b: Change)
    requires !a.FundingInputSpent? && !b.FundingInputSpent? && !(OnClosing(a) && OnClosing(b))
    requires Applied(y, a) && Fresh(y, b) && !BuildsOn(a, b) && y.doubleSpentHeight.None?
    ensures Backward(y, a).Some? && Forward(y, b).Some?
    ensures Fresh(Backward(y, a).value, b) && Applied(Forward(y, b).value, a)
    ensures Backward(Forward(y, b).value, a) == Forward(Backward(y, a).value, b)
  {
  }

  // The double-spend height is kept apart: the remaining fields are replayed with
  // funding input spends skipped.

  function CoreForward(s: State, c: Change): Option<State> {
    if c.FundingInputSpent? then Some(s) else Forward(s, c)
  }

  function CoreBackward(s: State, c: Change): Option<State> {
    if c.FundingInputSpent? then Some(s) else Backward(s, c)
  }

  function CoreApply(s: State, cs: seq<Change>): Option<State>
    decreases |cs|
  {
    if cs == [] then Some(s) else
      var s' := CoreForward(s, cs[0]);
      if s'.None? then None else CoreApply(s'.value, cs[1..])
  }

  function CoreUndo(s: State, cs: seq<Change>): Option<State>
    decreases |cs|
  {
    if cs == [] then Some(s) else
      var s' := CoreBackward(s, cs[0]);
      if s'.None? then None else CoreUndo(s'.value, cs[1..])
  }

  predicate CoreGood(s: State, cs: seq<Change>)
    decreases |cs|
  {
    cs == [] || (Fresh(s, cs[0]) && CoreForward(s, cs[0]).Some? && CoreGood(CoreForward(s, cs[0]).value, cs[1..]))
  }

  function Core(s: State): State {
    s.(doubleSpentHeight := None)
  }

  lemma CoreStep(s: State, c: Change)
    ensures Forward(s, c).Some? == CoreForward(Core(s), c).Some?
    ensures Forward(s, c).Some? ==> Core(Forward(s, c).value) == CoreForward(Core(s), c).value
    ensures Backward(s, c).Some? == CoreBackward(Core(s), c).Some?
    ensures Backward(s, c).Some? ==> Core(Backward(s, c).value) == CoreBackward(Core(s), c).value
    ensures Fresh(s, c) == Fresh(Core(s), c)
  {
  }

  lemma {:induction false} CoreApplies(s: State, cs: seq<Change>)
    ensures Apply(s, cs).Some? == CoreApply(Core(s), cs).Some?
    ensures Apply(s, cs).Some? ==> Core(Apply(s, cs).value) == CoreApply(Core(s), cs).value
    decreases |cs|
  {
    if cs != [] {
      CoreStep(s, cs[0]);
      if Forward(s, cs[0]).Some? { CoreApplies(Forward(s, cs[0]).value, cs[1..]); }
    }
  }

  lemma {:induction false} CoreUndoes(s: State, cs: seq<Change>)
    ensures Undo(s, cs).Some? == CoreUndo(Core(s), cs).Some?
    ensures Undo(s, cs).Some? ==> Core(Undo(s, cs).value) == CoreUndo(Core(s), cs).value
    decreases |cs|
  {
    if cs != [] {
      CoreStep(s, cs[0]);
      if Backward(s, cs[0]).Some? { CoreUndoes(Backward(s, cs[0]).value, cs[1..]); }
    }
  }

  lemma {:induction false} CoreGoodness(s: State, cs: seq<Change>)
    requires Good(s, cs)
    ensures CoreGood(Core(s), cs)
    decreases |cs|
  {
    if cs != [] {
      CoreStep(s, cs[0]);
      CoreGoodness(Forward(s, cs[0]).value, cs[1..]);
    }
  }

  lemma NoDoubleSpend(s: State, c: Change)
    requires s.doubleSpentHeight.None? && CoreForward(s, c).Some?
    ensures CoreForward(s, c).value.doubleSpentHeight.None?
  {
  }

  lemma {:induction false} UndoBelow(y: State, a: Change, cs: seq<Change>)
    requires !a.FundingInputSpent? && y.doubleSpentHeight.None?
    requires Applied(y, a) && CoreGood(y, cs)
    requires forall i :: 0 <= i < |cs| ==> !BuildsOn(a, cs[i])
    ensures Backward(y, a).Some? && CoreApply(y, cs).Some?
    ensures CoreGood(Backward(y, a).value, cs)
    ensures Backward(CoreApply(y, cs).value, a) == CoreApply(Backward(y, a).value, cs)
    decreases |cs|
  {
    if cs != [] {
      assert forall i :: 0 <= i < |cs[1..]| ==> cs[1..][i] == cs[i + 1];
      NoDoubleSpend(y, cs[0]);
      if !cs[0].FundingInputSpent? {
        Commute(y, a, cs[0]);
      }
      UndoBelow(CoreForward(y, cs[0]).value, a, cs[1..]);
    }
  }

  /** The undo of an independent list, the double-spend height aside. */
  lemma {:induction false} UndoCore(s: State, cs: seq<Change>)
    requires s.doubleSpentHeight.None?
    requires CoreGood(s, cs) && Independent(cs)
    ensures CoreApply(s, cs).Some? && CoreUndo(CoreApply(s, cs).value, cs) == Some(s)
    decreases |cs|
  {
    if cs != [] {
      var a := cs[0];
      var y := CoreForward(s, a).value;
      assert forall i :: 0 <= i < |cs[1..]| ==> cs[1..][i] == cs[i + 1];
      if !a.FundingInputSpent? {
        UndoLast(s, a);
        NoDoubleSpend(s, a);
        UndoBelow(y, a, cs[1..]);
      }
      UndoCore(s, cs[1..]);
    }
  }

  // ---------------------------------------------------------------------------
  // The double-spend height
  // ---------------------------------------------------------------------------

  predicate SpendsFundingInput(cs: seq<Change>) {
    exists i :: 0 <= i < |cs| && cs[i].FundingInputSpent?
  }

  lemma {:induction false} DoubleSpendForward(s: State, cs: seq<Change>)
    requires Apply(s, cs).Some?
    ensures
      var t := Apply(s, cs).value;
      && t.height == s.height
      && (t.doubleSpentHeight == s.doubleSpentHeight
          || t.doubleSpentHeight.None?
          || (t.doubleSpentHeight == Some(s.height) && SpendsFundingInput(cs)))
      && (!ConfirmsFunding(cs) && s.doubleSpentHeight.Some? ==> t.doubleSpentHeight == s.doubleSpentHeight)
      && (ConfirmsFunding(cs) ==> t.doubleSpentHeight.None?
                                  || (t.doubleSpentHeight == Some(s.height) && SpendsFundingInput(cs)))
    decreases |cs|
  {
    if cs != [] {
      var s' := Forward(s, cs[0]).value;
      DoubleSpendForward(s', cs[1..]);
      assert ConfirmsFunding(cs) <==> cs[0].FundingConfirmed? || ConfirmsFunding(cs[1..]) by { ExistsTail(cs); }
      assert SpendsFundingInput(cs) <==> cs[0].FundingInputSpent? || SpendsFundingInput(cs[1..]) by { ExistsTail(cs); }
    }
  }

  lemma ExistsTail(cs: seq<Change>)
    requires cs != []
    ensures ConfirmsFunding(cs) <==> cs[0].FundingConfirmed? || ConfirmsFunding(cs[1..])
    ensures SpendsFundingInput(cs) <==> cs[0].FundingInputSpent? || SpendsFundingInput(cs[1..])
  {
    assert forall i :: 0 <= i < |cs[1..]| ==> cs[1..][i] == cs[i + 1];
    if ConfirmsFunding(cs[1..]) {
      var i :| 0 <= i < |cs[1..]| && cs[1..][i].FundingConfirmed?;
      assert cs[i + 1].FundingConfirmed?;
    }
    if SpendsFundingInput(cs[1..]) {
      var i :| 0 <= i < |cs[1..]| && cs[1..][i].FundingInputSpent?;
      assert cs[i + 1].FundingInputSpent?;
    }
    if ConfirmsFunding(cs) {
      var i :| 0 <= i < |cs| && cs[i].FundingConfirmed?;
      assert i > 0 ==> cs[1..][i - 1].FundingConfirmed?;
    }
    if SpendsFundingInput(cs) {
      var i :| 0 <= i < |cs| && cs[i].FundingInputSpent?;
      assert i > 0 ==> cs[1..][i - 1].FundingInputSpent?;
    }
  }

  lemma {:induction false} DoubleSpendBackward(s: State, cs: seq<Change>)
    requires Undo(s, cs).Some?
    ensures
      var t := Undo(s, cs).value;
      && t.height == s.height
      && t.doubleSpentHeight ==
         if SpendsFundingInput(cs) && s.doubleSpentHeight == Some(s.height) then None else s.doubleSpentHeight
    decreases |cs|
  {
    if cs != [] {
      DoubleSpendBackward(Backward(s, cs[0]).value, cs[1..]);
      ExistsTail(cs);
    }
  }

  // ---------------------------------------------------------------------------
  // A list with a dependent change cannot be undone
  // ---------------------------------------------------------------------------

  lemma BackwardShrinks(s: State, c: Change, o: OutPoint)
    requires Backward(s, c).Some?
    ensures s.closing.None? ==> Backward(s, c).value.closing.None?
    ensures Backward(s, c).value.closing.Some? && Backward(s, c).value.closing.value.IncludesSecondLevel(o) ==>
              s.closing.Some? && s.closing.value.IncludesSecondLevel(o)
  {
    if s.closing.Some? {
      var xs := s.closing.value.secondLevel;
      if c.HtlcOutputSpent? { WithoutHas(xs, c.second, o); }
      if c.SecondLevelSpent? { SetHas(xs, c.outpoint, false, o); }
    }
  }

  /** Once the close or the second-level output is gone, the later change panics. */
  lemma {:induction false} UndoStuck(s: State, cs: seq<Change>, j: nat)
    requires j < |cs|
    requires || (s.closing.None? && OnClosing(cs[j]))
             || (cs[j].SecondLevelSpent? && (s.closing.None? || !s.closing.value.IncludesSecondLevel(cs[j].outpoint)))
    ensures Undo(s, cs).None?
    decreases |cs|
  {
    if j > 0 && Backward(s, cs[0]).Some? {
      if cs[j].SecondLevelSpent? { BackwardShrinks(s, cs[0], cs[j].outpoint); }
      else { BackwardShrinks(s, cs[0], COINBASE); }
      assert cs[1..][j - 1] == cs[j];
      UndoStuck(Backward(s, cs[0]).value, cs[1..], j - 1);
    }
  }

  lemma {:induction false} DependentPanics(s: State, cs: seq<Change>, i: nat, j: nat)
    requires i < j < |cs| && BuildsOn(cs[i], cs[j])
    ensures Undo(s, cs).None?
    decreases |cs|
  {
    if Backward(s, cs[0]).Some? {
      var s' := Backward(s, cs[0]).value;
      assert cs[1..][j - 1] == cs[j];
      if i == 0 {
        if cs[0].HtlcOutputSpent? {
          WithoutHas(s.closing.value.secondLevel, cs[0].second, cs[0].second);
        }
        UndoStuck(s', cs[1..], j - 1);
      } else {
        assert cs[1..][i - 1] == cs[i];
        DependentPanics(s', cs[1..], i - 1, j - 1);
      }
    }
  }

  /** When undoing a list of fresh changes gives the starting state back: exactly when
      no change builds on an earlier one and a funding confirmation did not erase an
      older double-spend height. When the first condition fails the undo panics. */
  lemma {:induction false} UndoExact(s: State, cs: seq<Change>)
    requires Good(s, cs) && s.doubleSpentHeight != Some(s.height)
    ensures Apply(s, cs).Some?
    ensures Undo(Apply(s, cs).value, cs).Some? <==> Independent(cs)
    ensures Undo(Apply(s, cs).value, cs) == Some(s) <==>
            Independent(cs) && (ConfirmsFunding(cs) ==> s.doubleSpentHeight.None?)
  {
    GoodApplies(s, cs);
    var t := Apply(s, cs).value;
    if Independent(cs) {
      CoreGoodness(s, cs);
      UndoCore(Core(s), cs);
      CoreApplies(s, cs);
      CoreUndoes(t, cs);
      DoubleSpendForward(s, cs);
      DoubleSpendBackward(t, cs);
      assert Core(Undo(t, cs).value) == Core(s);
    } else {
      var i, j :| 0 <= i < j < |cs| && BuildsOn(cs[i], cs[j]);
      DependentPanics(t, cs, i, j);
    }
  }
}
