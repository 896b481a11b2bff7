/**
 The HTLC transactions of a recovery close. Every unspent HTLC that can be claimed now is
 claimed: a received one with its preimage, an offered one once its expiry is reached.
 Zero-fee channels batch the claims, other channels make one transaction per HTLC.

 Main results: on success every claimable HTLC is an input of exactly one transaction and
 nothing else is (`ClaimedExactlyOnce`), every transaction is well formed (`PlanWellFormed`),
 batches are as few as they can be (`BatchesAreMaximal`), and success depends only on the
 counterparty's signatures and the lock-time limit (`SignHtlcs`).
 */
module Recovery {
  import opened Options

  datatype Htlc = Htlc(offered: bool, expiry: nat, hash: nat, vout: Option<nat>)

  /** The commitment's HTLCs, the counterparty's HTLC signatures, and what is known of chain and payments. */
  datatype Env = Env(htlcs: seq<Htlc>, sigs: seq<nat>, spent: seq<bool>, height: nat, preimages: map<nat, nat>, zeroFee: bool)

  datatype Claim = Claim(index: nat, preimage: Option<nat>)

  /** An input spends one HTLC output; the output beside it pays out the same HTLC. */
  datatype Input = Input(index: nat, vout: nat, preimage: Option<nat>, sig: nat)

  datatype HtlcTx = HtlcTx(lockTime: nat, inputs: seq<Input>, outputs: seq<nat>)

  /** Lock times from here on are timestamps, not heights. */
  const LOCK_TIME_THRESHOLD: nat := 500_000_000

  predicate WellSized(env: Env) {
    |env.spent| == |env.htlcs|
  }

  predicate Claimable(env: Env, k: nat)
    requires WellSized(env)
  {
    && k < |env.htlcs| && env.htlcs[k].vout.Some? && !env.spent[k]
    && (if env.htlcs[k].offered then env.htlcs[k].expiry <= env.height else env.htlcs[k].hash in env.preimages)
  }

  /** Every claim has a counterparty signature, and its expiry can be written as a height. */
  ghost predicate Signable(env: Env)
    requires WellSized(env)
  {
    forall k :: 0 <= k < |env.htlcs| && Claimable(env, k) ==> ClaimSignable(env, k)
  }

  predicate ClaimSignable(env: Env, k: nat)
    requires k < |env.htlcs|
  {
    k < |env.sigs| && (env.htlcs[k].offered ==> env.htlcs[k].expiry < LOCK_TIME_THRESHOLD)
  }

  // ---- Collecting the claims ----

  function Received(env: Env, n: nat): seq<Claim>
    requires WellSized(env) && n <= |env.htlcs|
  {
    if n == 0 then []
    else Received(env, n - 1) +
         if Claimable(env, n - 1) && !env.htlcs[n - 1].offered
         then [Claim(n - 1, Some(env.preimages[env.htlcs[n - 1].hash]))] else []
  }

  function Offered(env: Env, expiry: nat, n: nat): seq<Claim>
    requires WellSized(env) && n <= |env.htlcs|
  {
    if n == 0 then []
    else Offered(env, expiry, n - 1) +
         if Claimable(env, n - 1) && env.htlcs[n - 1].offered && env.htlcs[n - 1].expiry == expiry
         then [Claim(n - 1, None)] else []
  }

  function Expiries(env: Env, n: nat): set<nat>
    requires WellSized(env) && n <= |env.htlcs|
  {
    set k | 0 <= k < n && Claimable(env, k) && env.htlcs[k].offered :: env.htlcs[k].expiry
  }

  /** A claim for an HTLC of one kind, as a transaction with the given lock time may carry it. */
  ghost predicate Fits(env: Env, c: Claim, offered: bool, lockTime: nat)
    requires WellSized(env)
  {
    && Claimable(env, c.index) && env.htlcs[c.index].offered == offered
    && (if offered then c.preimage.None? && env.htlcs[c.index].expiry == lockTime
        else env.htlcs[c.index].hash in env.preimages
             && c.preimage == Some(env.preimages[env.htlcs[c.index].hash]) && lockTime == 0)
  }

  ghost predicate AllFit(env: Env, claims: seq<Claim>, offered: bool, lockTime: nat)
    requires WellSized(env)
  {
    forall i :: 0 <= i < |claims| ==> Fits(env, claims[i], offered, lockTime)
  }

  lemma {:induction false} ReceivedFit(env: Env, n: nat)
    requires WellSized(env) && n <= |env.htlcs|
    ensures AllFit(env, Received(env, n), false, 0)
  {
    if n > 0 {
      ReceivedFit(env, n - 1);
    }
  }

  lemma {:induction false} OfferedFit(env: Env, expiry: nat, n: nat)
    requires WellSized(env) && n <= |env.htlcs|
    ensures AllFit(env, Offered(env, expiry, n), true, expiry)
    ensures expiry in Expiries(env, n) ==> Offered(env, expiry, n) != []
  {
    if n > 0 {
      OfferedFit(env, expiry, n - 1);
      if expiry in Expiries(env, n) && expiry !in Expiries(env, n - 1) {
        var k :| 0 <= k < n && Claimable(env, k) && env.htlcs[k].offered && env.htlcs[k].expiry == expiry;
        assert k == n - 1;
      }
    }
  }

  // ---- Building the transactions ----

  predicate Usable(env: Env, claims: seq<Claim>)
    requires WellSized(env)
  {
    forall i :: 0 <= i < |claims| ==> UsableClaim(env, claims[i])
  }

  predicate UsableClaim(env: Env, c: Claim)
    requires WellSized(env)
  {
    Claimable(env, c.index) && c.index < |env.sigs|
  }

  function InputFor(env: Env, c: Claim): Input
    requires WellSized(env) && UsableClaim(env, c)
  {
    Input(c.index, env.htlcs[c.index].vout.value, c.preimage, env.sigs[c.index])
  }

  function Inputs(env: Env, claims: seq<Claim>): (r: seq<Input>)
    requires WellSized(env) && Usable(env, claims)
    ensures |r| == |claims|
  {
    seq(|claims|, i requires 0 <= i < |claims| => InputFor(env, claims[i]))
  }

  function Built(env: Env, claims: seq<Claim>, lockTime: nat): HtlcTx
    requires WellSized(env) && Usable(env, claims)
  {
    HtlcTx(lockTime, Inputs(env, claims), seq(|claims|, i requires 0 <= i < |claims| => claims[i].index))
  }

  function Singles(env: Env, claims: seq<Claim>, lockTime: nat): seq<HtlcTx>
    requires WellSized(env) && Usable(env, claims)
  {
    seq(|claims|, i requires 0 <= i < |claims| => Built(env, [claims[i]], lockTime))
  }

  /** One batch for zero-fee channels, one transaction per claim otherwise. */
  function Batch(env: Env, claims: seq<Claim>, lockTime: nat): seq<HtlcTx>
    requires WellSized(env) && Usable(env, claims)
  {
    if claims == [] then []
    else if env.zeroFee then [Built(env, claims, lockTime)]
    else Singles(env, claims, lockTime)
  }

  ghost function Least(keys: set<nat>): (m: nat)
    requires keys != {}
    ensures m in keys && forall k :: k in keys ==> m <= k
  {
    var x :| x in keys;
    LeastBelow(keys, x);
    var m :| m in keys && forall k :: k in keys ==> m <= k;
    m
  }

  lemma {:induction false} LeastBelow(keys: set<nat>, x: nat)
    requires x in keys
    ensures exists m :: m in keys && forall k :: k in keys ==> m <= k
  {
    if y :| y in keys && y < x {
      LeastBelow(keys, y);
    }
  }

  lemma OfferedSignable(env: Env, expiry: nat)
    requires WellSized(env) && Signable(env)
    ensures Usable(env, Offered(env, expiry, |env.htlcs|))
  {
    OfferedFit(env, expiry, |env.htlcs|);
  }

  lemma ReceivedSignable(env: Env)
    requires WellSized(env) && Signable(env)
    ensures Usable(env, Received(env, |env.htlcs|))
  {
    ReceivedFit(env, |env.htlcs|);
  }

  /** The claims of offered HTLCs, by ascending expiry. */
  ghost function OfferedTxs(env: Env, keys: set<nat>): seq<HtlcTx>
    requires WellSized(env) && Signable(env)
  {
    if keys == {} then []
    else
      var m := Least(keys);
      OfferedSignable(env, m);
      Batch(env, Offered(env, m, |env.htlcs|), m) + OfferedTxs(env, keys - {m})
  }

  ghost function Plan(env: Env): seq<HtlcTx>
    requires WellSized(env) && Signable(env)
  {
    ReceivedSignable(env);
    Batch(env, Received(env, |env.htlcs|), 0) + OfferedTxs(env, Expiries(env, |env.htlcs|))
  }

  // ---- Every claimable HTLC once ----

  function Hits(inputs: seq<Input>, k: nat): nat {
    if inputs == [] then 0 else (if inputs[0].index == k then 1 else 0) + Hits(inputs[1..], k)
  }

  /** How many inputs, over all transactions, spend HTLC `k`. */
  function Spends(txs: seq<HtlcTx>, k: nat): nat {
    if txs == [] then 0 else Hits(txs[0].inputs, k) + Spends(txs[1..], k)
  }

  lemma {:induction false} SpendsAppend(a: seq<HtlcTx>, b: seq<HtlcTx>, k: nat)
    ensures Spends(a + b, k) == Spends(a, k) + Spends(b, k)
  {
    if a == [] {
      assert a + b == b;
    } else {
      assert (a + b)[1..] == a[1..] + b;
      SpendsAppend(a[1..], b, k);
    }
  }

  function Count(claims: seq<Claim>, k: nat): nat {
    if claims == [] then 0 else (if claims[0].index == k then 1 else 0) + Count(claims[1..], k)
  }

  lemma {:induction false} CountAppend(a: seq<Claim>, b: seq<Claim>, k: nat)
    ensures Count(a + b, k) == Count(a, k) + Count(b, k)
  {
    if a == [] {
      assert a + b == b;
    } else {
      assert (a + b)[1..] == a[1..] + b;
      CountAppend(a[1..], b, k);
    }
  }

  lemma {:induction false} HitsOfInputs(env: Env, claims: seq<Claim>, k: nat)
    requires WellSized(env) && Usable(env, claims)
    ensures Hits(Inputs(env, claims), k) == Count(claims, k)
  {
    if claims != [] {
      assert Inputs(env, claims)[1..] == Inputs(env, claims[1..]);
      HitsOfInputs(env, claims[1..], k);
    }
  }

  lemma {:induction false} SpendsOfSingles(env: Env, claims: seq<Claim>, lockTime: nat, k: nat)
    requires WellSized(env) && Usable(env, claims)
    ensures Spends(Singles(env, claims, lockTime), k) == Count(claims, k)
  {
    if claims != [] {
      var txs := Singles(env, claims, lockTime);
      assert txs[1..] == Singles(env, claims[1..], lockTime);
      HitsOfInputs(env, [claims[0]], k);
      assert [claims[0]][1..] == [];
      SpendsOfSingles(env, claims[1..], lockTime, k);
    }
  }

  /** Batching or not, a group of claims is spent claim by claim. */
  lemma SpendsOfBatch(env: Env, claims: seq<Claim>, lockTime: nat, k: nat)
    requires WellSized(env) && Usable(env, claims)
    ensures Spends(Batch(env, claims, lockTime), k) == Count(claims, k)
  {
    if claims != [] {
      if env.zeroFee {
        HitsOfInputs(env, claims, k);
        assert [Built(env, claims, lockTime)][1..] == [];
      } else {
        SpendsOfSingles(env, claims, lockTime, k);
      }
    }
  }

  lemma {:induction false} CountReceived(env: Env, n: nat, k: nat)
    requires WellSized(env) && n <= |env.htlcs|
    ensures Count(Received(env, n), k) == if k < n && Claimable(env, k) && !env.htlcs[k].offered then 1 else 0
  {
    if n > 0 {
      CountReceived(env, n - 1, k);
      var last := if Claimable(env, n - 1) && !env.htlcs[n - 1].offered
      then [Claim(n - 1, Some(env.preimages[env.htlcs[n - 1].hash]))] else [];
      CountAppend(Received(env, n - 1), last, k);
    }
  }

  lemma {:induction false} CountOffered(env: Env, expiry: nat, n: nat, k: nat)
    requires WellSized(env) && n <= |env.htlcs|
    ensures Count(Offered(env, expiry, n), k) ==
            if k < n && Claimable(env, k) && env.htlcs[k].offered && env.htlcs[k].expiry == expiry then 1 else 0
  {
    if n > 0 {
      CountOffered(env, expiry, n - 1, k);
      var last := if Claimable(env, n - 1) && env.htlcs[n - 1].offered && env.htlcs[n - 1].expiry == expiry
      then [Claim(n - 1, None)] else [];
      CountAppend(Offered(env, expiry, n - 1), last, k);
    }
  }

  lemma {:induction false} SpendsOfOffered(env: Env, keys: set<nat>, k: nat)
    requires WellSized(env) && Signable(env)
    ensures Spends(OfferedTxs(env, keys), k) ==
            if Claimable(env, k) && env.htlcs[k].offered && env.htlcs[k].expiry in keys then 1 else 0
  {
    if keys != {} {
      var m := Least(keys);
      var claims := Offered(env, m, |env.htlcs|);
      OfferedSignable(env, m);
      SpendsOfBatch(env, claims, m, k);
      CountOffered(env, m, |env.htlcs|, k);
      SpendsOfOffered(env, keys - {m}, k);
      SpendsAppend(Batch(env, claims, m), OfferedTxs(env, keys - {m}), k);
    }
  }

  /** In either mode, an HTLC is spent once if it is claimable and not at all if it is not. */
  lemma ClaimedExactlyOnce(env: Env, k: nat)
    requires WellSized(env) && Signable(env)
    ensures Spends(Plan(env), k) == if Claimable(env, k) then 1 else 0
  {
    var n := |env.htlcs|;
    ReceivedSignable(env);
    SpendsOfBatch(env, Received(env, n), 0, k);
    CountReceived(env, n, k);
    SpendsOfOffered(env, Expiries(env, n), k);
    SpendsAppend(Batch(env, Received(env, n), 0), OfferedTxs(env, Expiries(env, n)), k);
  }

  /** Waiting for blocks, learning preimages and unmarking spends only ever adds claims. */
  lemma ClaimsOnlyGrow(env: Env, later: Env, k: nat)
    requires WellSized(env) && Signable(env) && WellSized(later) && Signable(later)
    requires later.htlcs == env.htlcs && env.height <= later.height && env.preimages.Keys <= later.preimages.Keys
    requires forall i :: 0 <= i < |env.spent| && later.spent[i] ==> env.spent[i]
    ensures Spends(Plan(env), k) <= Spends(Plan(later), k)
  {
    ClaimedExactlyOnce(env, k);
    ClaimedExactlyOnce(later, k);
  }

  // ---- Well-formed transactions ----

  /**
   Each input spends an HTLC's own output with that HTLC's signature and preimage, the
   output beside it pays the same HTLC, and the lock time is what every input needs.
   */
  ghost predicate TxFits(env: Env, tx: HtlcTx, offered: bool)
    requires WellSized(env)
  {
    && |tx.inputs| == |tx.outputs| > 0
    && forall i :: 0 <= i < |tx.inputs| ==> InputFits(env, tx.inputs[i], tx.outputs[i], offered, tx.lockTime)
  }

  ghost predicate InputFits(env: Env, input: Input, output: nat, offered: bool, lockTime: nat)
    requires WellSized(env)
  {
    && Fits(env, Claim(input.index, input.preimage), offered, lockTime)
    && input.index < |env.sigs| && env.sigs[input.index] == input.sig
    && env.htlcs[input.index].vout == Some(input.vout)
    && output == input.index
  }

  lemma BuiltFits(env: Env, claims: seq<Claim>, offered: bool, lockTime: nat)
    requires WellSized(env) && Usable(env, claims) && claims != [] && AllFit(env, claims, offered, lockTime)
    ensures TxFits(env, Built(env, claims, lockTime), offered)
  {
    var tx := Built(env, claims, lockTime);
    forall i | 0 <= i < |tx.inputs| ensures InputFits(env, tx.inputs[i], tx.outputs[i], offered, lockTime) {
      assert Fits(env, claims[i], offered, lockTime);
    }
  }

  ghost predicate BatchFits(env: Env, tx: HtlcTx, offered: bool, lockTime: nat)
    requires WellSized(env)
  {
    TxFits(env, tx, offered) && tx.lockTime == lockTime && (!env.zeroFee ==> |tx.inputs| == 1)
  }

  lemma BatchesFit(env: Env, claims: seq<Claim>, offered: bool, lockTime: nat)
    requires WellSized(env) && Usable(env, claims) && AllFit(env, claims, offered, lockTime)
    ensures forall i :: 0 <= i < |Batch(env, claims, lockTime)| ==> BatchFits(env, Batch(env, claims, lockTime)[i], offered, lockTime)
    ensures env.zeroFee ==> |Batch(env, claims, lockTime)| <= 1
  {
    if claims != [] {
      if env.zeroFee {
        BuiltFits(env, claims, offered, lockTime);
      } else {
        forall i | 0 <= i < |claims| ensures BatchFits(env, Batch(env, claims, lockTime)[i], offered, lockTime) {
          BuiltFits(env, [claims[i]], offered, lockTime);
        }
      }
    }
  }

  /** Offered claims come in ascending order of expiry; with batching no two share an expiry. */
  ghost predicate OfferedInOrder(env: Env, txs: seq<HtlcTx>, keys: set<nat>)
    requires WellSized(env)
  {
    && (forall i :: 0 <= i < |txs| ==> txs[i].lockTime in keys && BatchFits(env, txs[i], true, txs[i].lockTime))
    && (forall i, j :: 0 <= i < j < |txs| ==>
                         txs[i].lockTime <= txs[j].lockTime && (env.zeroFee ==> txs[i].lockTime != txs[j].lockTime))
  }

  lemma {:induction false} OfferedWellFormed(env: Env, keys: set<nat>)
    requires WellSized(env) && Signable(env)
    ensures OfferedInOrder(env, OfferedTxs(env, keys), keys)
  {
    if keys != {} {
      var m := Least(keys);
      var claims := Offered(env, m, |env.htlcs|);
      OfferedSignable(env, m);
      OfferedFit(env, m, |env.htlcs|);
      BatchesFit(env, claims, true, m);
      OfferedWellFormed(env, keys - {m});
      InOrderAppend(env, Batch(env, claims, m), OfferedTxs(env, keys - {m}), keys, m);
    }
  }

  lemma InOrderAppend(env: Env, first: seq<HtlcTx>, rest: seq<HtlcTx>, keys: set<nat>, m: nat)
    requires WellSized(env) && m in keys && forall k :: k in keys ==> m <= k
    requires forall i :: 0 <= i < |first| ==> BatchFits(env, first[i], true, m)
    requires env.zeroFee ==> |first| <= 1
    requires OfferedInOrder(env, rest, keys - {m})
    ensures OfferedInOrder(env, first + rest, keys)
  {
    var txs := first + rest;
    forall i | 0 <= i < |txs| ensures txs[i].lockTime in keys && BatchFits(env, txs[i], true, txs[i].lockTime) {
      assert i >= |first| ==> txs[i] == rest[i - |first|];
    }
    forall i, j | 0 <= i < j < |txs|
      ensures txs[i].lockTime <= txs[j].lockTime && (env.zeroFee ==> txs[i].lockTime != txs[j].lockTime)
    {
      assert i < |first| ==> txs[i].lockTime == m;
      assert j >= |first| ==> txs[j] == rest[j - |first|];
      assert i >= |first| ==> txs[i] == rest[i - |first|];
    }
  }

  /**
   The plan: first the received claims, then the offered ones by expiry; every transaction
   fits, and outside zero-fee channels it has one input.
   */
  lemma PlanWellFormed(env: Env) returns (split: nat)
    requires WellSized(env) && Signable(env)
    ensures split <= |Plan(env)|
    ensures forall i :: 0 <= i < split ==> BatchFits(env, Plan(env)[i], false, 0)
    ensures OfferedInOrder(env, Plan(env)[split..], Expiries(env, |env.htlcs|))
    ensures env.zeroFee ==> split <= 1
  {
    var n := |env.htlcs|;
    ReceivedSignable(env);
    ReceivedFit(env, n);
    var first := Batch(env, Received(env, n), 0);
    split := |first|;
    BatchesFit(env, Received(env, n), false, 0);
    OfferedWellFormed(env, Expiries(env, n));
    assert Plan(env)[split..] == OfferedTxs(env, Expiries(env, n));
  }

  lemma {:induction false} OneTxPerExpiry(env: Env, keys: set<nat>)
    requires WellSized(env) && Signable(env) && env.zeroFee && keys <= Expiries(env, |env.htlcs|)
    ensures |OfferedTxs(env, keys)| == |keys|
  {
    if keys != {} {
      var m := Least(keys);
      OfferedSignable(env, m);
      OfferedFit(env, m, |env.htlcs|);
      OneTxPerExpiry(env, keys - {m});
    }
  }

  /** A zero-fee channel makes one transaction per expiry, and one for all received claims if there are any. */
  lemma BatchesAreMaximal(env: Env)
    requires WellSized(env) && Signable(env) && env.zeroFee
    ensures |Plan(env)| == |Expiries(env, |env.htlcs|)| + if Received(env, |env.htlcs|) == [] then 0 else 1
  {
    ReceivedSignable(env);
    OneTxPerExpiry(env, Expiries(env, |env.htlcs|));
  }

  // ---- The signer's loops ----

  /** Walks the HTLCs once, collecting received claims and grouping offered ones by expiry. */
  method Collect(env: Env) returns (received: seq<Claim>, offered: map<nat, seq<Claim>>)
    requires WellSized(env)
    ensures received == Received(env, |env.htlcs|)
    ensures Grouped(env, offered, |env.htlcs|)
  {
    received, offered := [], map[];
    var i := 0;
    while i < |env.htlcs|
      invariant i <= |env.htlcs|
      invariant received == Received(env, i)
      invariant Grouped(env, offered, i)
    {
      var h := env.htlcs[i];
      if h.vout.Some? && !env.spent[i] && h.offered && h.expiry <= env.height {
        var group := if h.expiry in offered then offered[h.expiry] else [];
        GroupedNext(env, offered, i, h.expiry, group);
        offered := offered[h.expiry := group + [Claim(i, None)]];
      } else {
        GroupedSame(env, offered, i);
        if h.vout.Some? && !env.spent[i] && !h.offered && h.hash in env.preimages {
          received := received + [Claim(i, Some(env.preimages[h.hash]))];
        }
      }
      i := i + 1;
    }
  }

  ghost predicate Grouped(env: Env, offered: map<nat, seq<Claim>>, n: nat)
    requires WellSized(env) && n <= |env.htlcs|
  {
    offered == map e | e in Expiries(env, n) :: Offered(env, e, n)
  }

  lemma {:induction false} NoneOffered(env: Env, expiry: nat, n: nat)
    requires WellSized(env) && n <= |env.htlcs| && expiry !in Expiries(env, n)
    ensures Offered(env, expiry, n) == []
  {
    if n > 0 {
      ExpiriesNext(env, n - 1);
      NoneOffered(env, expiry, n - 1);
    }
  }

  lemma GroupedNext(env: Env, offered: map<nat, seq<Claim>>, n: nat, expiry: nat, group: seq<Claim>)
    requires WellSized(env) && n < |env.htlcs| && Grouped(env, offered, n)
    requires Claimable(env, n) && env.htlcs[n].offered && expiry == env.htlcs[n].expiry
    requires group == if expiry in offered then offered[expiry] else []
    ensures Grouped(env, offered[expiry := group + [Claim(n, None)]], n + 1)
  {
    ExpiriesNext(env, n);
    if expiry !in offered {
      NoneOffered(env, expiry, n);
    }
    assert Offered(env, expiry, n + 1) == group + [Claim(n, None)];
    OthersUnchanged(env, n, expiry);
  }

  lemma OthersUnchanged(env: Env, n: nat, expiry: nat)
    requires WellSized(env) && n < |env.htlcs| && env.htlcs[n].expiry == expiry
    ensures forall e :: e in Expiries(env, n) && e != expiry ==> Offered(env, e, n + 1) == Offered(env, e, n)
  {
  }

  lemma GroupedSame(env: Env, offered: map<nat, seq<Claim>>, n: nat)
    requires WellSized(env) && n < |env.htlcs| && Grouped(env, offered, n)
    requires !(Claimable(env, n) && env.htlcs[n].offered)
    ensures Grouped(env, offered, n + 1)
  {
    ExpiriesNext(env, n);
    forall e ensures Offered(env, e, n + 1) == Offered(env, e, n) {
    }
  }

  lemma ExpiriesNext(env: Env, n: nat)
    requires WellSized(env) && n < |env.htlcs|
    ensures Expiries(env, n + 1) ==
            Expiries(env, n) + if Claimable(env, n) && env.htlcs[n].offered then {env.htlcs[n].expiry} else {}
  {
  }

  /** Builds one transaction, unless a signature is missing or the lock time is not a height. */
  method BuildBatched(env: Env, claims: seq<Claim>, lockTime: nat) returns (tx: Option<HtlcTx>)
    requires WellSized(env) && forall i :: 0 <= i < |claims| ==> Claimable(env, claims[i].index)
    ensures tx.Some? <==> lockTime < LOCK_TIME_THRESHOLD && Usable(env, claims)
    ensures tx.Some? ==> tx.value == Built(env, claims, lockTime)
  {
    var inputs: seq<Input>, outputs: seq<nat> := [], [];
    var i := 0;
    while i < |claims|
      invariant i <= |claims| && |inputs| == |outputs| == i
      invariant Usable(env, claims[..i])
      invariant inputs == Inputs(env, claims[..i])
      invariant forall k :: 0 <= k < i ==> outputs[k] == claims[k].index
    {
      var k := claims[i].index;
      if k >= |env.sigs| {
        assert !UsableClaim(env, claims[i]);
        return None;
      }
      assert claims[..i + 1] == claims[..i] + [claims[i]];
      assert UsableClaim(env, claims[i]);
      inputs := inputs + [Input(k, env.htlcs[k].vout.value, claims[i].preimage, env.sigs[k])];
      outputs := outputs + [k];
      i := i + 1;
    }
    assert claims[..i] == claims;
    if lockTime >= LOCK_TIME_THRESHOLD {
      return None;
    }
    tx := Some(HtlcTx(lockTime, inputs, outputs));
  }

  /** The transactions of one group of claims. */
  method BuildGroup(env: Env, claims: seq<Claim>, lockTime: nat) returns (txs: Option<seq<HtlcTx>>)
    requires WellSized(env) && forall i :: 0 <= i < |claims| ==> Claimable(env, claims[i].index)
    ensures txs.Some? <==> claims == [] || (lockTime < LOCK_TIME_THRESHOLD && Usable(env, claims))
    ensures txs.Some? ==> Usable(env, claims) && txs.value == Batch(env, claims, lockTime)
  {
    if claims == [] {
      return Some([]);
    }
    if env.zeroFee {
      var tx := BuildBatched(env, claims, lockTime);
      return if tx.Some? then Some([tx.value]) else None;
    }
    var done: seq<HtlcTx> := [];
    var i := 0;
    while i < |claims|
      invariant i <= |claims| && |done| == i
      invariant i > 0 ==> lockTime < LOCK_TIME_THRESHOLD
      invariant forall k :: 0 <= k < i ==> UsableClaim(env, claims[k])
      invariant forall k :: 0 <= k < i ==> done[k] == Built(env, [claims[k]], lockTime)
    {
      var tx := BuildBatched(env, [claims[i]], lockTime);
      assert Usable(env, [claims[i]]) <==> UsableClaim(env, claims[i]) by {
        assert [claims[i]][0] == claims[i];
      }
      if tx.None? {
        return None;
      }
      done := done + [tx.value];
      i := i + 1;
    }
    txs := Some(done);
  }

  method LeastKey(keys: set<nat>) returns (m: nat)
    requires keys != {}
    ensures m == Least(keys)
  {
    m :| m in keys;
    var rest := keys - {m};
    while rest != {}
      invariant m in keys && rest <= keys && forall k :: k in keys && k !in rest ==> m <= k
      decreases rest
    {
      var k :| k in rest;
      if k < m {
        m := k;
      }
      rest := rest - {k};
    }
  }

  /** A claim that cannot be signed. */
  lemma Unsignable(env: Env, claims: seq<Claim>, offered: bool, lockTime: nat)
    requires WellSized(env) && AllFit(env, claims, offered, lockTime) && claims != []
    requires !(lockTime < LOCK_TIME_THRESHOLD && Usable(env, claims))
    ensures !Signable(env)
  {
    if Usable(env, claims) {
      assert Fits(env, claims[0], offered, lockTime);
      assert !ClaimSignable(env, claims[0].index);
    } else {
      var i :| 0 <= i < |claims| && !UsableClaim(env, claims[i]);
      assert Fits(env, claims[i], offered, lockTime);
      assert !ClaimSignable(env, claims[i].index);
    }
  }

  /** Every group built, none of its claims lacked a signature or had too late an expiry. */
  lemma AllBuilt(env: Env)
    requires WellSized(env) && Usable(env, Received(env, |env.htlcs|))
    requires forall e :: e in Expiries(env, |env.htlcs|) ==>
                           e < LOCK_TIME_THRESHOLD && Usable(env, Offered(env, e, |env.htlcs|))
    ensures Signable(env)
  {
    forall k | 0 <= k < |env.htlcs| && Claimable(env, k) ensures ClaimSignable(env, k) {
      var n := |env.htlcs|;
      if env.htlcs[k].offered {
        CountOffered(env, env.htlcs[k].expiry, n, k);
        Counted(Offered(env, env.htlcs[k].expiry, n), k);
      } else {
        CountReceived(env, n, k);
        Counted(Received(env, n), k);
      }
    }
  }

  lemma {:induction false} Counted(claims: seq<Claim>, k: nat)
    requires Count(claims, k) > 0
    ensures exists i :: 0 <= i < |claims| && claims[i].index == k
  {
    if claims[0].index != k {
      Counted(claims[1..], k);
      var i :| 0 <= i < |claims[1..]| && claims[1..][i].index == k;
      assert claims[i + 1].index == k;
    }
  }

  /** What is built so far and what is left make up the whole. */
  ghost predicate Remaining(env: Env, done: seq<HtlcTx>, rest: set<nat>, all: set<nat>)
    requires WellSized(env)
  {
    Signable(env) ==> done + OfferedTxs(env, rest) == OfferedTxs(env, all)
  }

  lemma RemainingStep(env: Env, done: seq<HtlcTx>, rest: set<nat>, all: set<nat>, m: nat, group: seq<HtlcTx>)
    requires WellSized(env) && Remaining(env, done, rest, all) && rest != {} && m == Least(rest)
    requires Usable(env, Offered(env, m, |env.htlcs|)) && group == Batch(env, Offered(env, m, |env.htlcs|), m)
    ensures Remaining(env, done + group, rest - {m}, all)
  {
    if Signable(env) {
      assert done + group + OfferedTxs(env, rest - {m}) == done + (group + OfferedTxs(env, rest - {m}));
    }
  }

  /** The offered groups in ascending order of expiry; stops at the first that cannot be built. */
  method BuildOffered(env: Env, offered: map<nat, seq<Claim>>) returns (txs: Option<seq<HtlcTx>>)
    requires WellSized(env)
    requires Grouped(env, offered, |env.htlcs|)
    ensures txs.None? ==> !Signable(env)
    ensures txs.Some? ==> forall e :: e in offered ==> e < LOCK_TIME_THRESHOLD && Usable(env, offered[e])
    ensures txs.Some? && Signable(env) ==> txs.value == OfferedTxs(env, offered.Keys)
  {
    var done: seq<HtlcTx> := [];
    var rest := offered.Keys;
    while rest != {}
      invariant rest <= offered.Keys
      invariant forall e :: e in offered.Keys - rest ==> e < LOCK_TIME_THRESHOLD && Usable(env, offered[e])
      invariant Remaining(env, done, rest, offered.Keys)
      decreases rest
    {
      var m := LeastKey(rest);
      OfferedFit(env, m, |env.htlcs|);
      assert forall i :: 0 <= i < |offered[m]| ==> Fits(env, offered[m][i], true, m);
      var group := BuildGroup(env, offered[m], m);
      if group.None? {
        Unsignable(env, offered[m], true, m);
        return None;
      }
      RemainingStep(env, done, rest, offered.Keys, m, group.value);
      done := done + group.value;
      rest := rest - {m};
    }
    txs := Some(done);
  }

  /** Succeeds exactly when the flags match the HTLCs and every claim can be signed, and then returns the plan. */
  method SignHtlcs(env: Env) returns (txs: Option<seq<HtlcTx>>)
    ensures txs.Some? <==> WellSized(env) && Signable(env)
    ensures txs.Some? ==> txs.value == Plan(env)
  {
    if |env.spent| != |env.htlcs| {
      return None;
    }
    var received, offered := Collect(env);
    ReceivedFit(env, |env.htlcs|);
    assert forall i :: 0 <= i < |received| ==> Fits(env, received[i], false, 0);
    var first := BuildGroup(env, received, 0);
    if first.None? {
      Unsignable(env, received, false, 0);
      return None;
    }
    var second := BuildOffered(env, offered);
    if second.None? {
      return None;
    }
    assert forall e :: e in Expiries(env, |env.htlcs|) ==> e in offered && offered[e] == Offered(env, e, |env.htlcs|);
    AllBuilt(env);
    assert offered.Keys == Expiries(env, |env.htlcs|);
    txs := Some(first.value + second.value);
  }
}
