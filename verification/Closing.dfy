/**
 The outputs of a unilateral close that the monitor follows: our output, the
 HTLC outputs and the second-level outputs of the transactions that spent them.
 */
module Closing {
  import opened Options
  import opened Chain

  datatype OurOutput = OurOutput(vout: nat, spent: bool)

  datatype SecondLevel = SecondLevel(outpoint: OutPoint, spent: bool)

  datatype ClosingOutpoints = ClosingOutpoints(
    txid: Txid,
    ourOutput: Option<OurOutput>,
    htlcOutputs: seq<nat>,
    htlcSpents: seq<bool>,
    secondLevel: seq<SecondLevel>)
  {
    predicate IncludesOurOutput(o: OutPoint) {
      txid == o.txid && ourOutput.Some? && ourOutput.value.vout == o.vout
    }

    predicate IncludesHtlcOutput(o: OutPoint) {
      txid == o.txid && o.vout in htlcOutputs
    }

    predicate IncludesSecondLevel(o: OutPoint) {
      Has(secondLevel, o)
    }

    predicate IsOurOutputSpent() {
      ourOutput.Some? ==> ourOutput.value.spent
    }

    predicate IsAllSpent() {
      && IsOurOutputSpent()
      && (forall i :: 0 <= i < |htlcSpents| ==> htlcSpents[i])
      && (forall i :: 0 <= i < |secondLevel| ==> secondLevel[i].spent)
    }

    function SetOurOutputSpent(vout: nat, spent: bool): Option<ClosingOutpoints> {
      if ourOutput.Some? && ourOutput.value.vout == vout
      then Some(this.(ourOutput := Some(OurOutput(vout, spent))))
      else None
    }

    function SetHtlcOutputSpent(vout: nat, spent: bool): Option<ClosingOutpoints> {
      if vout in htlcOutputs && FirstVout(htlcOutputs, vout) < |htlcSpents|
      then Some(this.(htlcSpents := htlcSpents[FirstVout(htlcOutputs, vout) := spent]))
      else None
    }

    function AddSecondLevel(o: OutPoint): ClosingOutpoints {
      this.(secondLevel := secondLevel + [SecondLevel(o, false)])
    }

    function SetSecondLevelSpent(o: OutPoint, spent: bool): Option<ClosingOutpoints> {
      if IncludesSecondLevel(o)
      then Some(this.(secondLevel := SetFirst(secondLevel, o, spent)))
      else None
    }

    function RemoveSecondLevel(o: OutPoint): ClosingOutpoints {
      this.(secondLevel := Without(secondLevel, o))
    }
  }

  function New(txid: Txid, our: Option<nat>, htlcs: seq<nat>): ClosingOutpoints {
    ClosingOutpoints(txid,
                     if our.Some? then Some(OurOutput(our.value, false)) else None,
                     htlcs, seq(|htlcs|, _ => false), [])
  }

  function FirstVout(xs: seq<nat>, v: nat): (i: nat)
    requires v in xs
    ensures i < |xs| && xs[i] == v && v !in xs[..i]
  {
    if xs[0] == v then 0 else 1 + FirstVout(xs[1..], v)
  }

  predicate Has(xs: seq<SecondLevel>, o: OutPoint) {
    exists i :: 0 <= i < |xs| && xs[i].outpoint == o
  }

  /** The flag of the first entry for `o` set (the source's `find` and `set_spent`). */
  function SetFirst(xs: seq<SecondLevel>, o: OutPoint, spent: bool): (ys: seq<SecondLevel>)
    ensures |ys| == |xs|
    ensures forall i :: 0 <= i < |xs| ==> ys[i].outpoint == xs[i].outpoint
    ensures forall i :: 0 <= i < |xs| && xs[i].outpoint != o ==> ys[i] == xs[i]
  {
    if xs == [] then []
    else if xs[0].outpoint == o then [SecondLevel(o, spent)] + xs[1..]
    else [xs[0]] + SetFirst(xs[1..], o, spent)
  }

  /** The list without the entries for `o`, order kept (the source's `retain`). */
  function Without(xs: seq<SecondLevel>, o: OutPoint): seq<SecondLevel> {
    if xs == [] then []
    else (if xs[0].outpoint == o then [] else [xs[0]]) + Without(xs[1..], o)
  }
}
