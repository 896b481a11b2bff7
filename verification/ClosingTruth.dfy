/**
 The tracked outputs of a close compared with the set of outpoints really spent.
 */
module ClosingTruth {
  import opened Options
  import opened Chain
  import opened Closing

  ghost predicate WellShaped(c: ClosingOutpoints) {
    && |c.htlcSpents| == |c.htlcOutputs|
    && NoDup(c.htlcOutputs)
    && (c.ourOutput.Some? ==> c.ourOutput.value.vout !in c.htlcOutputs)
    && (forall i, j :: 0 <= i < j < |c.secondLevel| ==> c.secondLevel[i].outpoint != c.secondLevel[j].outpoint)
    && (forall i :: 0 <= i < |c.secondLevel| ==> c.secondLevel[i].outpoint.txid != c.txid)
  }

  /** Every spent flag is set exactly when the output it stands for is in `spent`. */
  ghost predicate Exact(c: ClosingOutpoints, spent: set<OutPoint>) {
    && WellShaped(c)
    && (c.ourOutput.Some? ==> (c.ourOutput.value.spent <==> OutPoint(c.txid, c.ourOutput.value.vout) in spent))
    && (forall i :: 0 <= i < |c.htlcOutputs| ==> (c.htlcSpents[i] <==> OutPoint(c.txid, c.htlcOutputs[i]) in spent))
    && (forall i :: 0 <= i < |c.secondLevel| ==> (c.secondLevel[i].spent <==> c.secondLevel[i].outpoint in spent))
  }

  ghost predicate Tracks(c: ClosingOutpoints, o: OutPoint) {
    c.IncludesOurOutput(o) || c.IncludesHtlcOutput(o) || c.IncludesSecondLevel(o)
  }

  lemma {:induction false} ExactOur(c: ClosingOutpoints, spent: set<OutPoint>, o: OutPoint)
    requires Exact(c, spent) && c.IncludesOurOutput(o)
    ensures c.SetOurOutputSpent(o.vout, true).Some?
    ensures Exact(c.SetOurOutputSpent(o.vout, true).value, spent + {o})
  {
  }

  lemma ExactSecond(c: ClosingOutpoints, spent: set<OutPoint>, o: OutPoint)
    requires Exact(c, spent) && c.IncludesSecondLevel(o)
    ensures c.SetSecondLevelSpent(o, true).Some?
    ensures Exact(c.SetSecondLevelSpent(o, true).value, spent + {o})
  {
    SetFirstDistinct(c.secondLevel, o, true);
    var c' := c.SetSecondLevelSpent(o, true).value;
    assert forall i :: 0 <= i < |c.secondLevel| ==>
      c'.secondLevel[i] == if c.secondLevel[i].outpoint == o then SecondLevel(o, true) else c.secondLevel[i];
  }

  lemma {:induction false} SetFirstDistinct(xs: seq<SecondLevel>, o: OutPoint, spent: bool)
    requires forall i, j :: 0 <= i < j < |xs| ==> xs[i].outpoint != xs[j].outpoint
    ensures forall i :: 0 <= i < |xs| ==>
              SetFirst(xs, o, spent)[i] == if xs[i].outpoint == o then SecondLevel(o, spent) else xs[i]
    decreases |xs|
  {
    if xs != [] {
      SetFirstDistinct(xs[1..], o, spent);
      assert forall i :: 1 <= i < |xs| ==> xs[i] == xs[1..][i - 1];
    }
  }

  lemma {:induction false} ExactHtlc(c: ClosingOutpoints, spent: set<OutPoint>, o: OutPoint, second: OutPoint)
    requires Exact(c, spent) && c.IncludesHtlcOutput(o)
    requires second !in spent && second.txid != c.txid && !c.IncludesSecondLevel(second)
    ensures c.SetHtlcOutputSpent(o.vout, true).Some?
    ensures Exact(c.SetHtlcOutputSpent(o.vout, true).value.AddSecondLevel(second), spent + {o})
  {
    var k := FirstVout(c.htlcOutputs, o.vout);
    var c' := c.SetHtlcOutputSpent(o.vout, true).value.AddSecondLevel(second);
    assert forall i :: 0 <= i < |c.secondLevel| ==> c'.secondLevel[i] == c.secondLevel[i];
  }

  lemma ExactNew(txid: Txid, our: Option<nat>, htlcs: seq<nat>, spent: set<OutPoint>)
    requires NoDup(htlcs) && (our.Some? ==> our.value !in htlcs)
    requires forall o :: o in spent ==> o.txid != txid
    ensures Exact(Closing.New(txid, our, htlcs), spent)
  {
  }

  /** With exact flags, all spent means every tracked output is spent. */
  lemma {:induction false} AllSpentMeansSpent(c: ClosingOutpoints, spent: set<OutPoint>)
    requires Exact(c, spent)
    ensures c.IsAllSpent() <==> (forall o :: Tracks(c, o) ==> o in spent)
    ensures c.IsOurOutputSpent() <==> (forall o :: c.IncludesOurOutput(o) ==> o in spent)
  {
    if forall o :: Tracks(c, o) ==> o in spent {
      forall i | 0 <= i < |c.htlcSpents| ensures c.htlcSpents[i] {
        assert Tracks(c, OutPoint(c.txid, c.htlcOutputs[i]));
      }
      forall i | 0 <= i < |c.secondLevel| ensures c.secondLevel[i].spent {
        assert c.IncludesSecondLevel(c.secondLevel[i].outpoint);
        assert Tracks(c, c.secondLevel[i].outpoint);
      }
      if c.ourOutput.Some? { assert Tracks(c, OutPoint(c.txid, c.ourOutput.value.vout)); }
    }
    if c.ourOutput.Some? { assert c.IncludesOurOutput(OutPoint(c.txid, c.ourOutput.value.vout)); }
  }
}
