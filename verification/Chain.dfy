/**
 Transactions and blocks as the monitor sees them, and the part of the chain's
 past the monitor's state is compared with.
 */
module Chain {
  type Txid = nat
  type BlockHash = nat

  datatype OutPoint = OutPoint(txid: Txid, vout: nat)

  datatype TxOut = TxOut(value: nat, script: seq<nat>)

  datatype Tx = Tx(txid: Txid, version: int, lockTime: nat, inputs: seq<OutPoint>, outputs: seq<TxOut>)

  type Block = seq<Tx>

  /** Every coinbase input names this outpoint, which no transaction creates. */
  const COINBASE := OutPoint(0, 0xFFFF_FFFF)

  /** The confirmed past: the height each transaction confirmed at, which transaction
      spent each spent outpoint, and which transactions had a single input. */
  datatype Past = Past(at: map<Txid, nat>, spentBy: map<OutPoint, Txid>, lone: set<Txid>)

  ghost predicate NoDup<T(!new)>(xs: seq<T>) {
    forall i, j :: 0 <= i < j < |xs| ==> xs[i] != xs[j]
  }

  /** What consensus guarantees of the next transaction: a new txid, no earlier
      spend of its outputs, and inputs that are distinct and unspent. */
  ghost predicate ValidTx(p: Past, tx: Tx) {
    && tx.txid !in p.at
    && tx.txid != COINBASE.txid
    && (forall o :: o in p.spentBy ==> o.txid != tx.txid)
    && NoDup(tx.inputs)
    && (forall o :: o in tx.inputs ==> o.txid != tx.txid)
    && (forall o :: o in tx.inputs && o != COINBASE ==> o !in p.spentBy)
  }

  function Record(p: Past, height: nat, tx: Tx): Past {
    Past(p.at[tx.txid := height],
         p.spentBy + map o | o in tx.inputs && o != COINBASE :: tx.txid,
         p.lone + if |tx.inputs| == 1 then {tx.txid} else {})
  }

  /** The past after the first transactions of a block. */
  function RecordBlock(p: Past, height: nat, block: Block): Past
    decreases |block|
  {
    if block == [] then p else RecordBlock(Record(p, height, block[0]), height, block[1..])
  }

  ghost predicate ValidBlock(p: Past, height: nat, block: Block)
    decreases |block|
  {
    block == [] ||
    (ValidTx(p, block[0]) && ValidBlock(Record(p, height, block[0]), height, block[1..]))
  }
}
