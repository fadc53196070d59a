/**
 Questions asked of the transaction log: which rows concern a subject, and how much
 they move.
 */
module TxLog {
  import opened Common
  import opened Database

  /** What to look for among the applied rows. */
  datatype Key =
    | IntoAgent(a: Agent)
    | OutOfAgent(a: Agent)
    | Minted
    | Burned
    | ForEvent(eventId: Id)
    | RoyaltyOf(eventId: Id)
    | ChargeOf(invoiceId: Id)
    | PoolFeeOf(invoiceId: Id)
    | Refunds
    | RefundsOf(invoiceId: Id)

  predicate Matches(tx: Tx, key: Key) {
    && tx.outcome == Applied
    && match key
       case IntoAgent(a) => tx.to == Some(a)
       case OutOfAgent(a) => tx.from == Some(a)
       case Minted => tx.from == None
       case Burned => tx.to == None
       case ForEvent(e) => tx.eventId == Some(e)
       case RoyaltyOf(e) => tx.eventId == Some(e) && tx.reason == Royalty
       case ChargeOf(i) => tx.invoiceId == Some(i) && tx.reason == QueryPrice
       case PoolFeeOf(i) => tx.invoiceId == Some(i) && tx.reason == PoolFee
       case Refunds => tx.reason == RefundPayout
       case RefundsOf(i) => tx.invoiceId == Some(i) && tx.reason == RefundPayout
  }

  /** The applied rows that match, in log order. */
  function Select(txs: seq<Tx>, key: Key): seq<Tx> {
    if txs == [] then []
    else
      var front := Select(txs[..|txs| - 1], key);
      if Matches(txs[|txs| - 1], key) then front + [txs[|txs| - 1]] else front
  }

  /** The sum of amounts over the matching rows: SQL's COALESCE(SUM(amount), 0). */
  function Total(txs: seq<Tx>, key: Key): int {
    if txs == [] then 0
    else Total(txs[..|txs| - 1], key) + if Matches(txs[|txs| - 1], key) then txs[|txs| - 1].amount else 0
  }

  lemma Appended(txs: seq<Tx>, tx: Tx, key: Key)
    ensures Select(txs + [tx], key) == if Matches(tx, key) then Select(txs, key) + [tx] else Select(txs, key)
    ensures Total(txs + [tx], key) == Total(txs, key) + if Matches(tx, key) then tx.amount else 0
  {
  }

  lemma {:induction false} SelectedAreLogged(txs: seq<Tx>, key: Key)
    ensures forall tx :: tx in Select(txs, key) <==> tx in txs && Matches(tx, key)
    decreases |txs|
  {
    if txs != [] {
      var front, last := txs[..|txs| - 1], txs[|txs| - 1];
      SelectedAreLogged(front, key);
      assert txs == front + [last];
    }
  }
}
