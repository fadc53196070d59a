/**
 app/storage/invoices.py: the invoice lifecycle. Every transition is guarded by
 "still pending", so an invoice leaves pending at most once.
 */
module Invoices {
  import opened Common
  import opened Database

  function Issued(t: Tables, id: Id, query: string, subject: Option<Agent>, expiry: Time): Tables {
    t.(invoices := t.invoices[id := Invoice(query, subject, expiry, Pending, None, None)])
  }

  predicate IsPending(t: Tables, id: Id) {
    id in t.invoices && t.invoices[id].status == Pending
  }

  function MarkedSettled(t: Tables, id: Id, tx: Id, now: Time): Tables {
    if IsPending(t, id)
    then t.(invoices := t.invoices[id :=
           t.invoices[id].(status := Settled, creditsTx := Some(tx), settledAt := Some(now))])
    else t
  }

  function MarkedInvalidated(t: Tables, id: Id): Tables {
    if IsPending(t, id) then t.(invoices := t.invoices[id := t.invoices[id].(status := Invalidated)]) else t
  }

  /** The pending invoices whose expiry has passed. */
  function Overdue(t: Tables, now: Time): set<Id> {
    set i | i in t.invoices && t.invoices[i].status == Pending && t.invoices[i].expiry < now
  }

  function Swept(t: Tables, now: Time): Tables {
    t.(invoices := map i | i in t.invoices ::
      if i in Overdue(t, now) then t.invoices[i].(status := Lapsed) else t.invoices[i])
  }

  /** A new row; the fresh id is the caller's to draw. */
  method InsertPendingInvoice(conn: Connection, id: Id, query: string, subject: Option<Agent>, expiry: Time)
    modifies conn
    ensures conn.db == Issued(old(conn.db), id, query, subject, expiry) && conn.saved == old(conn.saved)
  {
    conn.db := conn.db.(invoices :=
      conn.db.invoices[id := Invoice(query, subject, expiry, Pending, None, None)]);
  }

  method MarkInvoiceSettled(conn: Connection, id: Id, tx: Id, now: Time)
    modifies conn
    ensures conn.db == MarkedSettled(old(conn.db), id, tx, now) && conn.saved == old(conn.saved)
  {
    if id in conn.db.invoices && conn.db.invoices[id].status == Pending {
      var row := conn.db.invoices[id].(status := Settled, creditsTx := Some(tx), settledAt := Some(now));
      conn.db := conn.db.(invoices := conn.db.invoices[id := row]);
    }
  }

  method MarkInvoiceInvalidated(conn: Connection, id: Id)
    modifies conn
    ensures conn.db == MarkedInvalidated(old(conn.db), id) && conn.saved == old(conn.saved)
  {
    if id in conn.db.invoices && conn.db.invoices[id].status == Pending {
      conn.db := conn.db.(invoices := conn.db.invoices[id := conn.db.invoices[id].(status := Invalidated)]);
    }
  }

  /** The sweep: first select the overdue ids, then update those still pending. */
  method MarkExpiredInvoices(conn: Connection, now: Time) returns (count: nat)
    modifies conn
    ensures conn.db == Swept(old(conn.db), now) && conn.saved == old(conn.saved)
    ensures count == |Overdue(old(conn.db), now)|
    ensures var before, after := old(conn.db).invoices, conn.db.invoices;
            && after.Keys == before.Keys
            && forall i :: i in before ==>
                 after[i] == if before[i].status == Pending && before[i].expiry < now
                             then before[i].(status := Lapsed) else before[i]
  {
    var ids := Overdue(conn.db, now);
    count := |ids|;
    if ids == {} {
      assert Swept(conn.db, now).invoices == conn.db.invoices;
      return;
    }
    conn.db := conn.db.(invoices := map i | i in conn.db.invoices ::
      if i in ids && conn.db.invoices[i].status == Pending
      then conn.db.invoices[i].(status := Lapsed) else conn.db.invoices[i]);
  }
}
