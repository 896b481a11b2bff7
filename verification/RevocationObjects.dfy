/**
 The enforcement state updated in place, statement by statement as the channel does it.
 Each method ends in the state, and gives the reply, of the matching step of `Revocation`.
 */
module RevocationObjects {
  import opened Options
  import opened Chain
  import opened Revocation

  class LiveEnforcement {
    var next: nat
    var current: Option<nat>
    var sigs: Option<nat>
    var pending: Option<Commitment>
    var prevFunding: Option<PrevFunding>
    var funding: Option<OutPoint>
    var closed: bool

    function Value(): Enforcement
      reads this
    {
      Enforcement(next, current, sigs, pending, prevFunding, funding, closed)
    }

    constructor ()
      ensures Value() == FRESH
    {
      next, current, sigs, pending := 0, None, None, None;
      prevFunding, funding, closed := None, None, false;
    }

    method ValidateHolderCommitment(num: nat, view: OutPoint, form: Form, commitment: Commitment, accepted: bool)
      returns (reply: Reply)
      modifies this
      ensures Outcome(Value(), reply) == Step(old(Value()), Validate(num, view, form, commitment, accepted))
    {
      if num > next + 1 || !accepted || num + 2 <= next || (num == next && closed) {
        return Refused;
      }
      var late := if form.ByTx? then view != form.currentFunding else funding != Some(view);
      if num == next || (prevFunding.Some? && num + 1 == next && late) {
        if num == next {
          pending := Some(commitment);
          funding := Some(view);
        } else {
          prevFunding := Some(prevFunding.value.(pending := Some(commitment)));
        }
      }
      reply := Done;
    }

    method ReleaseCommitmentSecret(num: nat) returns (reply: Reply)
      ensures reply == ReleaseBefore(Value(), num)
    {
      if num + 1 > next + 1 {
        return Refused;
      }
      if num >= 1 {
        if (num - 1) + 2 > next {
          return Refused;
        }
        return Secret(num - 1);
      }
      reply := Done;
    }

    method SetNextHolderCommitNum(num: nat, c: Commitment) returns (ok: bool)
      modifies this
      ensures ok <==> num == old(next) + 1
      ensures Value() == if ok then Advanced(old(Value()), c) else old(Value())
    {
      if num != next + 1 {
        return false;
      }
      next := num;
      current := Some(c.info);
      sigs := Some(c.sigs);
      ok := true;
    }

    /** The number check of the commitment counter can never fail here. */
    method RevokePreviousHolderCommitment(num: nat, balanced: bool) returns (reply: Reply)
      modifies this
      ensures Outcome(Value(), reply) == Step(old(Value()), Revoke(num, balanced))
      ensures reply != Panicked
    {
      if num != next {
        reply := ReleaseCommitmentSecret(num);
        return;
      }
      if pending.None? {
        return Refused;
      }
      var c := pending.value;
      pending := None;
      if !balanced {
        return Refused;
      }
      var ok := SetNextHolderCommitNum(num + 1, c);
      if !ok {
        return Panicked;
      }
      reply := ReleaseCommitmentSecret(num);
    }

    method ActivateInitialCommitment() returns (reply: Reply)
      modifies this
      ensures Outcome(Value(), reply) == Step(old(Value()), Activate)
      ensures reply != Panicked
    {
      if next > 1 || (next == 1 && prevFunding.None?) || pending.None? {
        return Refused;
      }
      var c := pending.value;
      pending := None;
      if next == 0 {
        var ok := SetNextHolderCommitNum(1, c);
        if !ok {
          return Panicked;
        }
      } else {
        current := Some(c.info);
        sigs := Some(c.sigs);
      }
      reply := Done;
    }

    /** The commitment state moves, field by field, into the record of the retiring funding. */
    method SnapshotFundingForSplice(outpoint: OutPoint)
      modifies this
      ensures Value() == Step(old(Value()), SpliceFunding(outpoint)).state
    {
      prevFunding := Some(PrevFunding(outpoint, current, sigs, pending));
      current, sigs, pending := None, None, None;
    }

    method HolderCommitmentForClose(num: nat) returns (reply: Reply)
      ensures reply == Select(Value(), num)
    {
      if num == next && pending.Some? {
        return Closing(num, pending.value);
      }
      if num + 1 != next {
        return Refused;
      }
      if current.None? {
        return Panicked;
      }
      if sigs.None? {
        return Refused;
      }
      reply := Closing(num, Commitment(current.value, sigs.value));
    }

    method LatestHolderCommitmentForClose() returns (reply: Reply)
      ensures reply == SelectLatest(Value())
    {
      var num := next;
      if pending.None? {
        if next == 0 {
          return Refused;
        }
        num := next - 1;
      }
      reply := HolderCommitmentForClose(num);
    }

    method SignHolderCommitmentForClose(num: nat) returns (reply: Reply)
      modifies this
      ensures Outcome(Value(), reply) == Step(old(Value()), CloseAt(num))
    {
      reply := HolderCommitmentForClose(num);
      if reply.Closing? {
        closed := true;
      }
    }

    method SignForRecovery(htlcsSigned: bool, persist: bool) returns (reply: Reply)
      modifies this
      ensures Outcome(Value(), reply) == Step(old(Value()), CloseForRecovery(htlcsSigned, persist))
    {
      reply := LatestHolderCommitmentForClose();
      if !reply.Closing? {
        return;
      }
      if next == 0 || !htlcsSigned {
        return Refused;
      }
      if persist {
        closed := true;
      }
    }
  }
}
