/**
 app/a2a/executor.py, `_charge_querier_or_fallback`: issue an invoice, settle it in a
 second transaction, invalidate it in a third when the querier cannot pay, and accrue
 the pool fee best effort.
 */
module Charging {
  import opened Common
  import opened Database
  import opened Config
  import opened CreditsLedger
  import opened Payout
  import opened Invoices
  import opened RefundPool

  datatype ChargeResult =
    | MissingQuerier
    | Unfunded(invoiceId: Id)
    | Raised(invoiceId: Id, error: LedgerError)
    | Charged(invoiceId: Id)

  function ChargeMove(s: Settings, querier: Agent, invoiceId: Id): Move {
    Move(Some(querier), Some(TREASURY), s.queryPrice, QueryPrice, None, Some(invoiceId))
  }

  /** The settlement transaction on its own: transfer, then mark the invoice if still pending. */
  function SettlementOf(t: Tables, s: Settings, querier: Agent, invoiceId: Id, now: Time)
    : (Tables, Result<Id, LedgerError>)
  {
    var (t1, r) := Moved(t, ChargeMove(s, querier, invoiceId), s.startingGrant);
    match r
    case Err(e) => (t, Err(e))
    case Ok(tx) => (MarkedSettled(t1, invoiceId, tx, now), Ok(tx))
  }

  method Settle(conn: Connection, s: Settings, querier: Agent, invoiceId: Id, now: Time)
    returns (r: Result<Id, LedgerError>)
    requires conn.saved.None?
    modifies conn
    ensures (conn.db, r) == SettlementOf(old(conn.db), s, querier, invoiceId, now) && conn.saved.None?
  {
    conn.Begin();
    var tx := Transfer(conn, ChargeMove(s, querier, invoiceId), s.startingGrant);
    if tx.Err? {
      conn.Rollback();
      return Err(tx.error);
    }
    MarkInvoiceSettled(conn, invoiceId, tx.value, now);
    conn.Commit();
    r := Ok(tx.value);
  }

  /** The invoice row of a new charge, drawn under the next fresh id. */
  function InvoiceIssued(t: Tables, s: Settings, query: string, subject: Option<Agent>, now: Time): Tables {
    Issued(Drawn(t), t.nextId, query, subject, now + s.invoiceTtlSeconds * MICROS_PER_SECOND)
  }

  function Charge(t: Tables, s: Settings, querier: Option<Agent>, query: string, subject: Option<Agent>, now: Time)
    : (Tables, ChargeResult)
  {
    if !Truthy(querier) then (t, MissingQuerier)
    else
      var issued := InvoiceIssued(t, s, query, subject, now);
      AfterSettlement(issued, s, t.nextId, SettlementOf(issued, s, querier.value, t.nextId, now))
  }

  /** What follows the settlement attempt on the invoice just issued. */
  function AfterSettlement(issued: Tables, s: Settings, id: Id, settlement: (Tables, Result<Id, LedgerError>))
    : (Tables, ChargeResult)
  {
    match settlement.1
    case Err(InsufficientFunds) => (MarkedInvalidated(issued, id), Unfunded(id))
    case Err(e) => (issued, Raised(id, e))
    case Ok(_) => (PoolFeeAccrued(settlement.0, s, id).0, Charged(id))
  }

  /** app/a2a/executor.py:455-531. */
  method ChargeQuerier(conn: Connection, s: Settings, querier: Option<Agent>, query: string,
                       subject: Option<Agent>, now: Time)
    returns (r: ChargeResult)
    requires conn.saved.None?
    modifies conn
    ensures (conn.db, r) == Charge(old(conn.db), s, querier, query, subject, now) && conn.saved.None?
  {
    if !Truthy(querier) {
      return MissingQuerier;
    }
    var id := conn.db.nextId;
    conn.db := Drawn(conn.db);
    var expiry := now + s.invoiceTtlSeconds * MICROS_PER_SECOND;
    conn.Begin();
    InsertPendingInvoice(conn, id, query, subject, expiry);
    conn.Commit();

    var settled := Settle(conn, s, querier.value, id, now);
    if settled.Err? {
      if settled.error != InsufficientFunds {
        return Raised(id, settled.error);
      }
      conn.Begin();
      MarkInvoiceInvalidated(conn, id);
      conn.Commit();
      return Unfunded(id);
    }
    if s.refundPoolFee > 0 {
      var accrued := AccruePoolFee(conn, s, id);
    }
    r := Charged(id);
  }

  // ---- after the answer ----

  datatype RoyaltyReport = NotAttempted | Reported(releases: seq<Release>) | ReportedError

  /** The event ids behind an answer's citations; one that resolves to no event is skipped. */
  function Resolved(citations: seq<Option<Id>>): (r: seq<Id>)
    ensures forall e :: e in r <==> Some(e) in citations
  {
    if citations == [] then []
    else if citations[0].Some? then [citations[0].value] + Resolved(citations[1..])
    else Resolved(citations[1..])
  }

  /** Citations are resolved one by one, in their order. */
  lemma {:induction false} ResolvedSnoc(citations: seq<Option<Id>>, last: Option<Id>)
    ensures Resolved([]) == []
    ensures Resolved(citations + [last]) == Resolved(citations) + if last.Some? then [last.value] else []
    decreases |citations|
  {
    if citations == [] {
      assert citations + [last] == [last];
    } else {
      assert (citations + [last])[1..] == citations[1..] + [last];
      ResolvedSnoc(citations[1..], last);
    }
  }

  /** app/a2a/executor.py:324-347: a settled query releases the royalties of what it cited, best effort. */
  method ReleaseForQuery(conn: Connection, s: Settings, settled: Option<Id>, citations: seq<Option<Id>>, now: Time)
    returns (report: RoyaltyReport)
    requires conn.saved.None?
    modifies conn
    ensures conn.saved.None?
    ensures settled.None? || !s.royaltyEnabled ==> report == NotAttempted && conn.db == old(conn.db)
    ensures settled.Some? && s.royaltyEnabled ==>
              var (t, r) := Released(old(conn.db), s, Resolved(citations), settled, now);
              conn.db == t && report == if r.Ok? then Reported(r.value) else ReportedError
  {
    if settled.None? || !s.royaltyEnabled {
      return NotAttempted;
    }
    var released := ReleaseRoyalties(conn, s, Resolved(citations), settled, now);
    report := if released.Ok? then Reported(released.value) else ReportedError;
  }
}
