/**
 app/trust/refund_pool.py: pool fees on settled queries, claims against settled
 invoices, and adjudication with a guard against concurrent decisions.
 */
module RefundPool {
  import opened Common
  import opened Database
  import opened Config
  import opened TxLog
  import opened CreditsLedger

  // ---- pool fee ----

  function PoolFeeMove(s: Settings, invoiceId: Id): Move {
    Move(Some(TREASURY), Some(VILLAGE_POOL), s.refundPoolFee, PoolFee, None, Some(invoiceId))
  }

  /** accrue_pool_fee: at most one applied fee per invoice. */
  function PoolFeeAccrued(t: Tables, s: Settings, invoiceId: Id): (Tables, Result<Option<Id>, LedgerError>) {
    if s.refundPoolFee <= 0 || Select(t.ledger.txs, PoolFeeOf(invoiceId)) != [] then (t, Ok(None))
    else
      var (t1, r) := Moved(t, PoolFeeMove(s, invoiceId), s.startingGrant);
      match r
      case Err(e) => (t, Err(e))
      case Ok(tx) => (t1, Ok(Some(tx)))
  }

  method AccruePoolFee(conn: Connection, s: Settings, invoiceId: Id) returns (r: Result<Option<Id>, LedgerError>)
    requires conn.saved.None?
    modifies conn
    ensures (conn.db, r) == PoolFeeAccrued(old(conn.db), s, invoiceId) && conn.saved.None?
  {
    if s.refundPoolFee <= 0 {
      return Ok(None);
    }
    conn.Begin();
    var already := Select(conn.db.ledger.txs, PoolFeeOf(invoiceId));
    if already != [] {
      conn.Commit();
      return Ok(None);
    }
    var tx := Transfer(conn, PoolFeeMove(s, invoiceId), s.startingGrant);
    if tx.Err? {
      conn.Rollback();
      return Err(tx.error);
    }
    conn.Commit();
    r := Ok(Some(tx.value));
  }

  // ---- claims ----

  datatype ClaimError =
    | UnknownInvoice | NotSettled(status: InvoiceStatus)
    | UnknownClaim | AlreadyAdjudicated(decided: ClaimStatus) | LostRace
    | PaymentFailed(cause: LedgerError)

  datatype ClaimDecision = ClaimDecision(claimId: Id, status: ClaimStatus, payout: int)

  /** file_claim: any number of claims per settled invoice. */
  function ClaimFiled(t: Tables, claimant: Agent, invoiceId: Id): (Tables, Result<Id, ClaimError>) {
    if invoiceId !in t.invoices then (t, Err(UnknownInvoice))
    else if t.invoices[invoiceId].status != Settled then (t, Err(NotSettled(t.invoices[invoiceId].status)))
    else
      (t.(claims := t.claims[t.nextId := Claim(invoiceId, claimant, Filed, None, None)], nextId := t.nextId + 1),
       Ok(t.nextId))
  }

  method FileClaim(conn: Connection, claimant: Agent, invoiceId: Id) returns (r: Result<Id, ClaimError>)
    modifies conn
    ensures (conn.db, r) == ClaimFiled(old(conn.db), claimant, invoiceId) && conn.saved == old(conn.saved)
  {
    if invoiceId !in conn.db.invoices {
      return Err(UnknownInvoice);
    }
    var status := conn.db.invoices[invoiceId].status;
    if status != Settled {
      return Err(NotSettled(status));
    }
    var id := conn.db.nextId;
    conn.db := conn.db.(
      claims := conn.db.claims[id := Claim(invoiceId, claimant, Filed, None, None)], nextId := id + 1);
    r := Ok(id);
  }

  /** What an adjudicator holds after its pre-check, before its transaction begins. */
  datatype Adjudication = Adjudication(claimId: Id, claimant: Agent, invoiceId: Id, justified: bool)

  /** app/trust/refund_pool.py:117-126, the pre-check outside the transaction. */
  function PreCheck(t: Tables, claimId: Id, justified: bool): Result<Adjudication, ClaimError> {
    if claimId !in t.claims then Err(UnknownClaim)
    else if t.claims[claimId].status != Filed then Err(AlreadyAdjudicated(t.claims[claimId].status))
    else Ok(Adjudication(claimId, t.claims[claimId].claimant, t.claims[claimId].invoiceId, justified))
  }

  function RefundMove(s: Settings, adj: Adjudication): Move {
    Move(Some(VILLAGE_POOL), Some(adj.claimant), s.queryPrice, RefundPayout, None, Some(adj.invoiceId))
  }

  predicate StillFiled(t: Tables, claimId: Id) {
    claimId in t.claims && t.claims[claimId].status == Filed
  }

  /** app/trust/refund_pool.py:128-168, the transaction: it may run after any other adjudicator's. */
  function Decided(t: Tables, s: Settings, adj: Adjudication, now: Time): (Tables, Result<ClaimDecision, ClaimError>) {
    if adj.justified then
      var (t1, r) := Moved(t, RefundMove(s, adj), s.startingGrant);
      if r.Err? then (t, Err(PaymentFailed(r.error)))
      else if !StillFiled(t, adj.claimId) then (t, Err(LostRace))
      else
        var row := t.claims[adj.claimId].(status := Approved, decidedTs := Some(now), payoutTx := Some(r.value));
        (t1.(claims := t.claims[adj.claimId := row]), Ok(ClaimDecision(adj.claimId, Approved, s.queryPrice)))
    else if !StillFiled(t, adj.claimId) then (t, Err(LostRace))
    else
      var row := t.claims[adj.claimId].(status := Denied, decidedTs := Some(now));
      (t.(claims := t.claims[adj.claimId := row]), Ok(ClaimDecision(adj.claimId, Denied, 0)))
  }

  method DecideClaim(conn: Connection, s: Settings, adj: Adjudication, now: Time)
    returns (r: Result<ClaimDecision, ClaimError>)
    requires conn.saved.None?
    modifies conn
    ensures (conn.db, r) == Decided(old(conn.db), s, adj, now) && conn.saved.None?
  {
    conn.Begin();
    if adj.justified {
      var tx := Transfer(conn, RefundMove(s, adj), s.startingGrant);
      if tx.Err? {
        conn.Rollback();
        return Err(PaymentFailed(tx.error));
      }
      if !StillFiled(conn.db, adj.claimId) {
        conn.Rollback();
        return Err(LostRace);
      }
      var row := conn.db.claims[adj.claimId].(status := Approved, decidedTs := Some(now), payoutTx := Some(tx.value));
      conn.db := conn.db.(claims := conn.db.claims[adj.claimId := row]);
      r := Ok(ClaimDecision(adj.claimId, Approved, s.queryPrice));
    } else {
      if !StillFiled(conn.db, adj.claimId) {
        conn.Rollback();
        return Err(LostRace);
      }
      var row := conn.db.claims[adj.claimId].(status := Denied, decidedTs := Some(now));
      conn.db := conn.db.(claims := conn.db.claims[adj.claimId := row]);
      r := Ok(ClaimDecision(adj.claimId, Denied, 0));
    }
    conn.Commit();
  }

  /** adjudicate_claim without interference: the pre-check, then the transaction at once. */
  function Adjudicated(t: Tables, s: Settings, claimId: Id, justified: bool, now: Time)
    : (Tables, Result<ClaimDecision, ClaimError>)
  {
    match PreCheck(t, claimId, justified)
    case Err(e) => (t, Err(e))
    case Ok(adj) => Decided(t, s, adj, now)
  }

  method AdjudicateClaim(conn: Connection, s: Settings, claimId: Id, justified: bool, now: Time)
    returns (r: Result<ClaimDecision, ClaimError>)
    requires conn.saved.None?
    modifies conn
    ensures (conn.db, r) == Adjudicated(old(conn.db), s, claimId, justified, now) && conn.saved.None?
  {
    match PreCheck(conn.db, claimId, justified)
    case Err(e) => r := Err(e);
    case Ok(adj) => r := DecideClaim(conn, s, adj, now);
  }
}
