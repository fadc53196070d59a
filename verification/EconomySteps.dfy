/**
 Every transaction of the village keeps the economy's invariant, and only moves rows
 forward through their life cycles.
 */
module EconomySteps {
  import opened Common
  import opened OrderedSets
  import opened Database
  import opened Config
  import opened TxLog
  import opened CreditsLedger
  import opened Payout
  import opened Invoices
  import opened RefundPool
  import opened Charging
  import opened TrustService
  import opened Corroboration
  import opened Publishing
  import opened EconomyInvariants

  // ---- life cycles ----

  predicate EscrowMoves(x: Escrow, x': Escrow) {
    || x' == x
    || (x.status == Open && x'.status != Open
        && x' == x.(status := x'.status, paidTx := x'.paidTx, paidTs := x'.paidTs))
  }

  predicate InvoiceMoves(x: Invoice, x': Invoice) {
    || x' == x
    || (x.status == Pending && x'.status != Pending
        && x' == x.(status := x'.status, creditsTx := x'.creditsTx, settledAt := x'.settledAt))
  }

  predicate ClaimMoves(x: Claim, x': Claim) {
    || x' == x
    || (x.status == Filed && x'.status != Filed
        && x' == x.(status := x'.status, decidedTs := x'.decidedTs, payoutTx := x'.payoutTx))
  }

  /** Logs only grow, rows are never removed, and every status is left at most once. */
  ghost predicate Evolves(t: Tables, t': Tables) {
    && t.ledger.txs <= t'.ledger.txs && t.trust.log <= t'.trust.log && t.nextId <= t'.nextId
    && (forall e :: e in t.events ==> e in t'.events && t'.events[e] == t.events[e])
    && (forall a :: a in t.identities ==> a in t'.identities && t'.identities[a] == t.identities[a])
    && (forall e :: e in t.escrows ==> e in t'.escrows && EscrowMoves(t.escrows[e], t'.escrows[e]))
    && (forall i :: i in t.invoices ==> i in t'.invoices && InvoiceMoves(t.invoices[i], t'.invoices[i]))
    && (forall c :: c in t.claims ==> c in t'.claims && ClaimMoves(t.claims[c], t'.claims[c]))
  }

  lemma EvolvesTransitively(t: Tables, u: Tables, v: Tables)
    requires Holds(Evolves(t, u)) && Holds(Evolves(u, v))
    ensures Evolves(t, v)
  {
  }

  /** A proposition handed on as a whole. */
  ghost predicate Holds(p: bool) {
    p
  }

  ghost predicate Keeps(s: Settings, t: Tables, t': Tables) {
    Holds(EconomyOk(s, t')) && Holds(Evolves(t, t'))
  }

  lemma KeepsNothingMoved(s: Settings, t: Tables)
    requires EconomyOk(s, t)
    ensures Keeps(s, t, t)
  {
  }

  lemma KeepsTransitively(s: Settings, t: Tables, u: Tables, v: Tables)
    requires Keeps(s, t, u) && Keeps(s, u, v)
    ensures Keeps(s, t, v)
  {
    EvolvesTransitively(t, u, v);
  }

  // ---- assembling the invariant, table by table ----

  lemma NewInvoices(s: Settings, t: Tables, t': Tables)
    requires EconomyOk(s, t) && t' == t.(invoices := t'.invoices, nextId := t'.nextId) && t.nextId <= t'.nextId
    requires InvoicesOk(s, t.ledger, t'.invoices) && forall i :: i in t'.invoices ==> i < t'.nextId
    requires forall i :: i in t.invoices ==> i in t'.invoices && InvoiceMoves(t.invoices[i], t'.invoices[i])
    ensures Keeps(s, t, t')
  {
  }

  lemma NewClaims(s: Settings, t: Tables, t': Tables)
    requires EconomyOk(s, t) && t' == t.(claims := t'.claims, nextId := t'.nextId) && t.nextId <= t'.nextId
    requires ClaimsOk(s, t.ledger, t'.claims) && forall c :: c in t'.claims ==> c < t'.nextId
    requires forall c :: c in t.claims ==> c in t'.claims && ClaimMoves(t.claims[c], t'.claims[c])
    ensures Keeps(s, t, t')
  {
  }

  lemma NewEscrows(s: Settings, t: Tables, t': Tables)
    requires EconomyOk(s, t) && t' == t.(escrows := t'.escrows)
    requires EscrowsOk(t.ledger, t'.escrows, t.events) && IncomeOk(s, t.ledger, t'.escrows, t.events)
    requires forall e :: e in t.escrows ==> e in t'.escrows && EscrowMoves(t.escrows[e], t'.escrows[e])
    ensures Keeps(s, t, t')
  {
  }

  lemma NewIdentities(s: Settings, t: Tables, t': Tables)
    requires EconomyOk(s, t) && t' == t.(identities := t'.identities)
    requires IdentitiesOk(t'.identities)
    requires forall a :: a in t.identities ==> a in t'.identities && t'.identities[a] == t.identities[a]
    ensures Keeps(s, t, t')
  {
  }

  /** A move of some reason other than royalties, without event, leaves escrows and income alone. */
  lemma NewMoney(s: Settings, t: Tables, t': Tables, mv: Move, tx: Id)
    requires EconomyOk(s, t) && Extends(s, t.ledger, t'.ledger, mv, tx)
    requires t' == t.(ledger := t'.ledger, invoices := t'.invoices, claims := t'.claims)
    requires mv.reason != Royalty && mv.eventId.None?
    requires mv.reason == PoolFee ==> mv.invoiceId.Some? && Select(t.ledger.txs, PoolFeeOf(mv.invoiceId.value)) == []
    requires InvoicesOk(s, t'.ledger, t'.invoices) && t'.invoices.Keys == t.invoices.Keys
    requires forall i :: i in t.invoices ==> InvoiceMoves(t.invoices[i], t'.invoices[i])
    requires ClaimsOk(s, t'.ledger, t'.claims) && t'.claims.Keys == t.claims.Keys
    requires forall c :: c in t.claims ==> ClaimMoves(t.claims[c], t'.claims[c])
    ensures Keeps(s, t, t')
  {
    EscrowsFrame(s, t.ledger, t'.ledger, mv, tx, t.escrows, t.events);
    IncomeFrame(s, t.ledger, t'.ledger, mv, tx, t.escrows, t.events);
    FeesFrame(s, t.ledger, t'.ledger, mv, tx);
  }

  /** A royalty or a publish: new money, escrows and events together. */
  lemma NewEvents(s: Settings, t: Tables, t': Tables)
    requires EconomyOk(s, t) && LedgerOk(s, t'.ledger) && t.ledger.txs <= t'.ledger.txs
    requires t' == t.(ledger := t'.ledger, escrows := t'.escrows, events := t'.events,
                      episodes := t'.episodes, entities := t'.entities)
    requires EscrowsOk(t'.ledger, t'.escrows, t'.events) && IncomeOk(s, t'.ledger, t'.escrows, t'.events)
    requires InvoicesOk(s, t'.ledger, t'.invoices) && FeesOk(t'.ledger) && ClaimsOk(s, t'.ledger, t'.claims)
    requires EventsOk(t'.events, t'.identities) && forall e :: e in t'.events ==> e < t'.nextId
    requires forall e :: e in t.events ==> e in t'.events && t'.events[e] == t.events[e]
    requires forall e :: e in t.escrows ==> e in t'.escrows && EscrowMoves(t.escrows[e], t'.escrows[e])
    ensures Keeps(s, t, t')
  {
  }

  // ---- royalties ----

  lemma ReleasedOneKeeps(s: Settings, t: Tables, e: Id, invoiceId: Option<Id>, now: Time)
    requires EconomyOk(s, t) && ReleasedOne(t, s, e, invoiceId, now).1.Ok?
    ensures Keeps(s, t, ReleasedOne(t, s, e, invoiceId, now).0)
  {
    if e !in t.escrows || t.escrows[e].status != Open {
      KeepsNothingMoved(s, t);
    } else if now > t.escrows[e].expiresTs {
      ClosedUnpaid(s, t, e);
    } else {
      var mv := RoyaltyMove(e, t.escrows[e], invoiceId);
      var (l, r) := Transferred(t.ledger, mv, s.startingGrant);
      TransferExtends(s, t.ledger, mv);
      EscrowPaid(s, t, e, mv, l, r.value, now);
    }
  }

  /** Closing an open escrow unpaid touches no money. */
  lemma ClosedUnpaid(s: Settings, t: Tables, e: Id)
    requires EconomyOk(s, t) && e in t.escrows && t.escrows[e].status == Open
    ensures Keeps(s, t, t.(escrows := t.escrows[e := t.escrows[e].(status := Expired)]))
  {
    var escrows := t.escrows[e := t.escrows[e].(status := Expired)];
    forall f: Id
      ensures EventEscrowOk(t.ledger, escrows, t.events, f)
      ensures EventIncomeOk(s, t.ledger, escrows, t.events, f)
    {
      assert EventEscrowOk(t.ledger, t.escrows, t.events, f);
      assert EventIncomeOk(s, t.ledger, t.escrows, t.events, f);
    }
    NewEscrows(s, t, t.(escrows := escrows));
  }

  lemma EscrowPaid(s: Settings, t: Tables, e: Id, mv: Move, l: Ledger, tx: Id, now: Time)
    requires EconomyOk(s, t) && e in t.escrows && t.escrows[e].status == Open && now <= t.escrows[e].expiresTs
    requires mv == RoyaltyMove(e, t.escrows[e], mv.invoiceId) && Extends(s, t.ledger, l, mv, tx)
    ensures var row := t.escrows[e].(status := Paid, paidTx := Some(tx), paidTs := Some(now));
            Keeps(s, t, t.(ledger := l, escrows := t.escrows[e := row]))
  {
    var row := t.escrows[e].(status := Paid, paidTx := Some(tx), paidTs := Some(now));
    var escrows := t.escrows[e := row];
    forall f: Id
      ensures EventEscrowOk(l, escrows, t.events, f)
    {
      assert EventEscrowOk(t.ledger, t.escrows, t.events, f);
      assert Shows(t.ledger, l, MoveTx(tx, mv), RoyaltyOf(f));
    }
    forall f: Id
      ensures EventIncomeOk(s, l, escrows, t.events, f)
    {
      IncomeOfPaid(s, t, e, mv, l, tx, row, f);
    }
    InvoicesFrame(s, t.ledger, l, mv, tx, t.invoices);
    FeesFrame(s, t.ledger, l, mv, tx);
    ClaimsFrame(s, t.ledger, l, mv, tx, t.claims);
    NewEvents(s, t, t.(ledger := l, escrows := escrows));
  }

  lemma IncomeOfPaid(s: Settings, t: Tables, e: Id, mv: Move, l: Ledger, tx: Id, row: Escrow, f: Id)
    requires EconomyOk(s, t) && e in t.escrows && t.escrows[e].status == Open && row.status == Paid
    requires row == t.escrows[e].(status := row.status, paidTx := row.paidTx, paidTs := row.paidTs)
    requires mv == RoyaltyMove(e, t.escrows[e], mv.invoiceId) && Extends(s, t.ledger, l, mv, tx)
    ensures EventIncomeOk(s, l, t.escrows[e := row], t.events, f)
  {
    assert EventEscrowOk(t.ledger, t.escrows, t.events, f);
    assert EventIncomeOk(s, t.ledger, t.escrows, t.events, f);
    assert Shows(t.ledger, l, MoveTx(tx, mv), ForEvent(f));
  }

  lemma {:induction false} ReleasedEachKeeps(s: Settings, t: Tables, ids: seq<Id>, invoiceId: Option<Id>, now: Time)
    requires EconomyOk(s, t) && ReleasedEach(t, s, ids, invoiceId, now).1.Ok?
    ensures Keeps(s, t, ReleasedEach(t, s, ids, invoiceId, now).0)
    decreases |ids|
  {
    if ids == [] {
      KeepsNothingMoved(s, t);
    } else {
      var front := ids[..|ids| - 1];
      ReleasedEachKeeps(s, t, front, invoiceId, now);
      var t1 := ReleasedEach(t, s, front, invoiceId, now).0;
      ReleasedOneKeeps(s, t1, ids[|ids| - 1], invoiceId, now);
      KeepsTransitively(s, t, t1, ReleasedEach(t, s, ids, invoiceId, now).0);
    }
  }

  lemma ReleaseKeeps(s: Settings, t: Tables, cited: seq<Id>, invoiceId: Option<Id>, now: Time)
    requires EconomyOk(s, t)
    ensures Keeps(s, t, Released(t, s, cited, invoiceId, now).0)
  {
    if Released(t, s, cited, invoiceId, now).1.Ok? {
      ReleasedEachKeeps(s, t, Dedup(cited), invoiceId, now);
    } else {
      KeepsNothingMoved(s, t);
    }
  }

  // ---- contradictions and other trust events ----

  lemma NewTrust(s: Settings, t: Tables, trust: TrustTables)
    requires EconomyOk(s, t) && t.trust.log <= trust.log
    ensures Keeps(s, t, t.(trust := trust))
  {
  }

  lemma TrustKeeps(s: Settings, t: Tables, call: TrustCall, m: TrustModel)
    requires EconomyOk(s, t)
    ensures Keeps(s, t, t.(trust := Recorded(t.trust, call, m).0))
  {
    RecordedIsLocal(t.trust, call, m, call.event.agent);
    NewTrust(s, t, Recorded(t.trust, call, m).0);
  }

  lemma ForfeitKeeps(s: Settings, t: Tables, e: Id)
    requires EconomyOk(s, t)
    ensures Keeps(s, t, Forfeited(t, e))
  {
    if e in t.escrows && t.escrows[e].status == Open {
      ClosedUnpaid(s, t, e);
    } else {
      KeepsNothingMoved(s, t);
    }
  }

  lemma ContradictionKeeps(s: Settings, t: Tables, m: TrustModel, d: Id, c: Id, weight: real, now: Stamp)
    requires EconomyOk(s, t)
    ensures Keeps(s, t, Contradicted(t, m, d, c, weight, now).0)
  {
    if d != c && d in t.events && c in t.events {
      ForfeitKeeps(s, t, d);
      var t1 := Forfeited(t, d);
      var e := TrustVerdict(t.events[d].sourceAgent, false, weight, "grounding_contradiction", d, now);
      TrustKeeps(s, t1, e, m);
      KeepsTransitively(s, t, t1, t1.(trust := Recorded(t1.trust, e, m).0));
    } else {
      KeepsNothingMoved(s, t);
    }
  }

  lemma CorroborationKeeps(s: Settings, t: Tables, m: TrustModel, o: Id, c: Id, weight: real, now: Stamp)
    requires EconomyOk(s, t)
    ensures Keeps(s, t, Corroborated(t, m, o, c, weight, now).0)
  {
    KeepsNothingMoved(s, t);
    if o in t.events {
      TrustKeeps(s, t, TrustVerdict(t.events[o].sourceAgent, true, weight, "corroborated", o, now), m);
    }
  }

  // ---- invoices ----

  lemma IssueKeeps(s: Settings, t: Tables, query: string, subject: Option<Agent>, now: Time)
    requires EconomyOk(s, t)
    ensures Keeps(s, t, InvoiceIssued(t, s, query, subject, now))
    ensures IsPending(InvoiceIssued(t, s, query, subject, now), t.nextId)
  {
    var t' := InvoiceIssued(t, s, query, subject, now);
    forall i: Id
      ensures InvoiceOk(s, t'.ledger, t'.invoices, i)
    {
      assert InvoiceOk(s, t.ledger, t.invoices, i);
    }
    NewInvoices(s, t, t');
  }

  lemma SettledInvoice(s: Settings, l: Ledger, l': Ledger, mv: Move, tx: Id,
                       invoices: map<Id, Invoice>, i: Id, row: Invoice)
    requires InvoicesOk(s, l, invoices) && i in invoices && invoices[i].status == Pending
    requires Extends(s, l, l', mv, tx) && mv.reason == QueryPrice && mv.invoiceId == Some(i)
    requires mv.amount == s.queryPrice && mv.to == Some(TREASURY)
    requires row.status == Settled && row.creditsTx == Some(tx)
    ensures InvoicesOk(s, l', invoices[i := row])
  {
    var invoices' := invoices[i := row];
    forall j: Id
      ensures InvoiceOk(s, l', invoices', j)
    {
      assert InvoiceOk(s, l, invoices, j);
      assert Shows(l, l', MoveTx(tx, mv), ChargeOf(j));
    }
  }

  lemma SettlementKeeps(s: Settings, t: Tables, querier: Agent, i: Id, now: Time)
    requires EconomyOk(s, t) && IsPending(t, i)
    ensures Keeps(s, t, SettlementOf(t, s, querier, i, now).0)
  {
    var (t', r) := SettlementOf(t, s, querier, i, now);
    if r.Ok? {
      var mv := ChargeMove(s, querier, i);
      TransferExtends(s, t.ledger, mv);
      SettledInvoice(s, t.ledger, t'.ledger, mv, r.value, t.invoices, i, t'.invoices[i]);
      ClaimsFrame(s, t.ledger, t'.ledger, mv, r.value, t.claims);
      NewMoney(s, t, t', mv, r.value);
    } else {
      KeepsNothingMoved(s, t);
    }
  }

  lemma UnchargedInvoices(s: Settings, l: Ledger, invoices: map<Id, Invoice>, invoices': map<Id, Invoice>)
    requires InvoicesOk(s, l, invoices) && invoices'.Keys == invoices.Keys
    requires forall i :: i in invoices ==>
               invoices'[i] == invoices[i]
               || (invoices[i].status == Pending && invoices'[i] == invoices[i].(status := invoices'[i].status)
                   && invoices'[i].status != Settled)
    ensures InvoicesOk(s, l, invoices')
  {
    forall j: Id
      ensures InvoiceOk(s, l, invoices', j)
    {
      assert InvoiceOk(s, l, invoices, j);
    }
  }

  lemma InvalidationKeeps(s: Settings, t: Tables, i: Id)
    requires EconomyOk(s, t)
    ensures Keeps(s, t, MarkedInvalidated(t, i))
  {
    if IsPending(t, i) {
      var t' := MarkedInvalidated(t, i);
      UnchargedInvoices(s, t.ledger, t.invoices, t'.invoices);
      NewInvoices(s, t, t');
    } else {
      KeepsNothingMoved(s, t);
    }
  }

  lemma SweepKeeps(s: Settings, t: Tables, now: Time)
    requires EconomyOk(s, t)
    ensures Keeps(s, t, Swept(t, now))
  {
    var t' := Swept(t, now);
    UnchargedInvoices(s, t.ledger, t.invoices, t'.invoices);
    NewInvoices(s, t, t');
  }

  lemma PoolFeeKeeps(s: Settings, t: Tables, i: Id)
    requires EconomyOk(s, t)
    ensures Keeps(s, t, PoolFeeAccrued(t, s, i).0)
  {
    var (t', r) := PoolFeeAccrued(t, s, i);
    if r.Ok? && r.value.Some? {
      var mv := PoolFeeMove(s, i);
      TransferExtends(s, t.ledger, mv);
      InvoicesFrame(s, t.ledger, t'.ledger, mv, r.value.value, t.invoices);
      ClaimsFrame(s, t.ledger, t'.ledger, mv, r.value.value, t.claims);
      NewMoney(s, t, t', mv, r.value.value);
    } else {
      KeepsNothingMoved(s, t);
    }
  }

  lemma ChargeKeeps(s: Settings, t: Tables, querier: Option<Agent>, query: string, subject: Option<Agent>, now: Time)
    requires EconomyOk(s, t)
    ensures Keeps(s, t, Charge(t, s, querier, query, subject, now).0)
  {
    if Truthy(querier) {
      var id := t.nextId;
      var issued := InvoiceIssued(t, s, query, subject, now);
      IssueKeeps(s, t, query, subject, now);
      SettlementKeeps(s, issued, querier.value, id, now);
      var (settled, r) := SettlementOf(issued, s, querier.value, id, now);
      if r.Ok? {
        PoolFeeKeeps(s, settled, id);
        KeepsTransitively(s, issued, settled, PoolFeeAccrued(settled, s, id).0);
        KeepsTransitively(s, t, issued, PoolFeeAccrued(settled, s, id).0);
      } else {
        InvalidationKeeps(s, issued, id);
        KeepsTransitively(s, t, issued, MarkedInvalidated(issued, id));
      }
    } else {
      KeepsNothingMoved(s, t);
    }
  }

  // ---- claims ----

  lemma UndecidedClaims(s: Settings, l: Ledger, claims: map<Id, Claim>, c: Id, row: Claim)
    requires ClaimsOk(s, l, claims) && row.status != Approved && row.payoutTx.None?
    requires c in claims ==> claims[c].status != Approved
    ensures ClaimsOk(s, l, claims[c := row])
  {
    var claims' := claims[c := row];
    assert ApprovedClaims(claims') == ApprovedClaims(claims);
    forall i: Id
      ensures InvoiceRefundsOk(s, l, claims', i)
    {
      assert InvoiceRefundsOk(s, l, claims, i);
      assert ApprovedFor(claims', i) == ApprovedFor(claims, i);
    }
    forall d | d in claims'
      ensures ClaimOk(s, l, claims', d)
    {
      if d != c {
        assert ClaimOk(s, l, claims, d);
      }
    }
  }

  lemma FilingKeeps(s: Settings, t: Tables, claimant: Agent, i: Id)
    requires EconomyOk(s, t)
    ensures Keeps(s, t, ClaimFiled(t, claimant, i).0)
  {
    var (t', r) := ClaimFiled(t, claimant, i);
    if r.Ok? {
      UndecidedClaims(s, t.ledger, t.claims, t.nextId, t'.claims[t.nextId]);
      NewClaims(s, t, t');
    } else {
      KeepsNothingMoved(s, t);
    }
  }

  /** What an adjudicator read still matches the claim's row, decided or not. */
  predicate ReadFrom(adj: Adjudication, claims: map<Id, Claim>) {
    adj.claimId in claims && claims[adj.claimId].claimant == adj.claimant
    && claims[adj.claimId].invoiceId == adj.invoiceId
  }

  lemma DecisionKeeps(s: Settings, t: Tables, adj: Adjudication, now: Time)
    requires EconomyOk(s, t) && ReadFrom(adj, t.claims)
    ensures Keeps(s, t, Decided(t, s, adj, now).0)
  {
    var (t', r) := Decided(t, s, adj, now);
    if r.Err? {
      KeepsNothingMoved(s, t);
    } else if adj.justified {
      var mv := RefundMove(s, adj);
      var (l, tx) := Transferred(t.ledger, mv, s.startingGrant);
      TransferExtends(s, t.ledger, mv);
      ApprovalKeeps(s, t, adj, mv, l, tx.value, now);
    } else {
      DenialKeeps(s, t, adj.claimId, now);
    }
  }

  lemma ApprovalKeeps(s: Settings, t: Tables, adj: Adjudication, mv: Move, l: Ledger, tx: Id, now: Time)
    requires EconomyOk(s, t) && ReadFrom(adj, t.claims) && StillFiled(t, adj.claimId)
    requires mv == RefundMove(s, adj) && Extends(s, t.ledger, l, mv, tx)
    ensures var row := t.claims[adj.claimId].(status := Approved, decidedTs := Some(now), payoutTx := Some(tx));
            Keeps(s, t, t.(ledger := l, claims := t.claims[adj.claimId := row]))
  {
    var row := t.claims[adj.claimId].(status := Approved, decidedTs := Some(now), payoutTx := Some(tx));
    ClaimApproved(s, t.ledger, t.claims, adj, mv, l, tx, row);
    InvoicesFrame(s, t.ledger, l, mv, tx, t.invoices);
    NewMoney(s, t, t.(ledger := l, claims := t.claims[adj.claimId := row]), mv, tx);
  }

  lemma DenialKeeps(s: Settings, t: Tables, c: Id, now: Time)
    requires EconomyOk(s, t) && StillFiled(t, c)
    ensures Keeps(s, t, t.(claims := t.claims[c := t.claims[c].(status := Denied, decidedTs := Some(now))]))
  {
    var row := t.claims[c].(status := Denied, decidedTs := Some(now));
    assert ClaimOk(s, t.ledger, t.claims, c);
    UndecidedClaims(s, t.ledger, t.claims, c, row);
    NewClaims(s, t, t.(claims := t.claims[c := row]));
  }

  lemma ApprovedGrows(claims: map<Id, Claim>, id: Id, row: Claim)
    requires id in claims && claims[id].status != Approved && row.status == Approved
    ensures ApprovedClaims(claims[id := row]) == ApprovedClaims(claims) + {id}
    ensures |ApprovedClaims(claims[id := row])| == |ApprovedClaims(claims)| + 1
  {
  }

  lemma ClaimApproved(s: Settings, l: Ledger, claims: map<Id, Claim>, adj: Adjudication,
                      mv: Move, l': Ledger, tx: Id, row: Claim)
    requires ClaimsOk(s, l, claims) && ReadFrom(adj, claims) && claims[adj.claimId].status == Filed
    requires mv == RefundMove(s, adj) && Extends(s, l, l', mv, tx)
    requires row == claims[adj.claimId].(status := Approved, payoutTx := Some(tx), decidedTs := row.decidedTs)
    ensures ClaimsOk(s, l', claims[adj.claimId := row])
  {
    PayoutsStayDistinct(s, l, claims, adj.claimId, tx, row);
    RefundsAddUp(s, l, claims, adj, mv, l', tx, row);
    PayoutsStayLogged(s, l, claims, adj, mv, l', tx, row);
    var claims' := claims[adj.claimId := row];
    forall i: Id
      ensures InvoiceRefundsOk(s, l', claims', i)
    {
      assert InvoiceRefundsOk(s, l, claims, i);
      RefundedOnceMore(s, l, claims, adj, mv, l', tx, row, i);
    }
  }

  lemma RefundsAddUp(s: Settings, l: Ledger, claims: map<Id, Claim>, adj: Adjudication,
                     mv: Move, l': Ledger, tx: Id, row: Claim)
    requires ClaimsOk(s, l, claims) && ReadFrom(adj, claims) && claims[adj.claimId].status == Filed
    requires mv == RefundMove(s, adj) && Extends(s, l, l', mv, tx) && row.status == Approved
    ensures var approved := ApprovedClaims(claims[adj.claimId := row]);
            |Select(l'.txs, Refunds)| == |approved| && Total(l'.txs, Refunds) == Worth(s.queryPrice, |approved|)
  {
    ApprovedGrows(claims, adj.claimId, row);
    assert Shows(l, l', MoveTx(tx, mv), Refunds);
  }

  lemma RefundedOnceMore(s: Settings, l: Ledger, claims: map<Id, Claim>, adj: Adjudication,
                         mv: Move, l': Ledger, tx: Id, row: Claim, i: Id)
    requires InvoiceRefundsOk(s, l, claims, i) && ReadFrom(adj, claims) && claims[adj.claimId].status == Filed
    requires mv == RefundMove(s, adj) && Extends(s, l, l', mv, tx)
    requires row.status == Approved && row.invoiceId == claims[adj.claimId].invoiceId
    ensures InvoiceRefundsOk(s, l', claims[adj.claimId := row], i)
  {
    assert Shows(l, l', MoveTx(tx, mv), RefundsOf(i));
    ApprovedForGrows(claims, adj.claimId, row, i);
  }

  lemma ApprovedForGrows(claims: map<Id, Claim>, id: Id, row: Claim, i: Id)
    requires id in claims && claims[id].status != Approved
    requires row.status == Approved && row.invoiceId == claims[id].invoiceId
    ensures |ApprovedFor(claims[id := row], i)| == |ApprovedFor(claims, i)| + if row.invoiceId == i then 1 else 0
  {
    assert id !in ApprovedFor(claims, i);
    assert ApprovedFor(claims[id := row], i) == ApprovedFor(claims, i) + if row.invoiceId == i then {id} else {};
  }

  lemma PayoutsStayLogged(s: Settings, l: Ledger, claims: map<Id, Claim>, adj: Adjudication,
                          mv: Move, l': Ledger, tx: Id, row: Claim)
    requires ClaimsOk(s, l, claims) && ReadFrom(adj, claims)
    requires mv == RefundMove(s, adj) && Extends(s, l, l', mv, tx)
    requires row == claims[adj.claimId].(status := Approved, payoutTx := Some(tx), decidedTs := row.decidedTs)
    ensures var claims' := claims[adj.claimId := row];
            forall c :: c in claims' ==> ClaimOk(s, l', claims', c)
  {
  }

  lemma PayoutsStayDistinct(s: Settings, l: Ledger, claims: map<Id, Claim>, id: Id, tx: Id, row: Claim)
    requires ClaimsOk(s, l, claims) && id in claims && claims[id].status == Filed
    requires |l.txs| <= tx && row.status == Approved && row.payoutTx == Some(tx)
    ensures var claims' := claims[id := row];
            forall c, d :: c in ApprovedClaims(claims') && d in ApprovedClaims(claims') && c != d ==>
              claims'[c].payoutTx != claims'[d].payoutTx
  {
  }

  // ---- publishing ----

  /** A binding is added only for an agent without one, under a DID nobody holds. */
  lemma GatesBind(s: Settings, t: Tables, req: PublishRequest, verified: bool)
    requires IdentitiesOk(t.identities)
    ensures var (t', r) := GatedIf(t, s, req, verified);
            && t' == t.(identities := t'.identities) && IdentitiesOk(t'.identities)
            && (forall a :: a in t.identities ==> a in t'.identities && t'.identities[a] == t.identities[a])
            && (r.Ok? ==> DidBound(t'.identities, req))
  {
  }

  /** A signed request's agent is bound to the DID it signs under. */
  predicate DidBound(identities: map<Agent, string>, req: PublishRequest) {
    Truthy(req.sellerDid) ==>
      req.sourceAgent in identities && Some(identities[req.sourceAgent]) == req.sellerDid
  }

  lemma GatesKeep(s: Settings, t: Tables, req: PublishRequest, verified: bool)
    requires EconomyOk(s, t)
    ensures var (t', r) := GatedIf(t, s, req, verified);
            Keeps(s, t, t') && (r.Ok? ==> DidBound(t'.identities, req))
  {
    GatesBind(s, t, req, verified);
    NewIdentities(s, t, GatedIf(t, s, req, verified).0);
  }

  /** The transaction of a publish, on an event id nobody has used. */
  lemma PublishTxKeeps(s: Settings, t: Tables, req: PublishRequest, e: Id)
    requires EconomyOk(s, t) && e < t.nextId && e !in t.events
    requires DidBound(t.identities, req)
    ensures Keeps(s, t, PublishTx(t, s, req, e).0)
  {
    KeepsNothingMoved(s, t);
    if PublishTx(t, s, req, e).1.Ok? {
      StoringKeeps(s, t, req, e, PaidFor(t, s, req, e));
    }
  }

  lemma StoringKeeps(s: Settings, t: Tables, req: PublishRequest, e: Id,
                     paid: (Tables, Result<Option<Id>, PublishError>))
    requires EconomyOk(s, t) && e < t.nextId && e !in t.events && DidBound(t.identities, req)
    requires paid == PaidFor(t, s, req, e) && paid.1.Ok? && !HashStored(paid.0, req.payloadHash)
    ensures Keeps(s, t, RowsAdded(paid.0, req, e, paid.1.value))
  {
    var t' := RowsAdded(paid.0, req, e, paid.1.value);
    assert EventEscrowOk(t.ledger, t.escrows, t.events, e);
    PaymentIsAMove(s, t, req, e);
    StoredEvents(t, req, e, paid.1.value);
    if paid.1.value.None? {
      UnpaidEvent(s, t, req, e);
      NewEvents(s, t, t');
    } else {
      PaidStoringKeeps(s, t, t', req, e, paid.1.value.value);
    }
  }

  lemma PaidStoringKeeps(s: Settings, t: Tables, t': Tables, req: PublishRequest, e: Id, tx: Id)
    requires EconomyOk(s, t) && e < t.nextId && e !in t.events && e !in t.escrows
    requires var mv := PaymentMove(s, req, e);
             && Transferred(t.ledger, mv, s.startingGrant) == (t'.ledger, Ok(tx))
             && 1 <= mv.amount <= s.publishReward
    requires t' == t.(ledger := t'.ledger, escrows := WithEscrow(t.escrows, e, EscrowOpened(s, req)),
                      events := t.events[e := EventOf(req, Some(tx))], episodes := t'.episodes, entities := t'.entities)
    requires EventsOk(t'.events, t.identities)
    ensures Keeps(s, t, t')
  {
    var mv := PaymentMove(s, req, e);
    TransferExtends(s, t.ledger, mv);
    PaidEvent(s, t, t', req, e, mv, tx);
    NewEvents(s, t, t');
  }

  lemma PaymentIsAMove(s: Settings, t: Tables, req: PublishRequest, e: Id)
    requires e !in t.escrows && PaidFor(t, s, req, e).1.Ok?
    ensures var (t', r) := PaidFor(t, s, req, e);
            if r.value.None? then t' == t
            else
              var (l, tx) := Transferred(t.ledger, PaymentMove(s, req, e), s.startingGrant);
              && tx == Ok(r.value.value)
              && t' == t.(ledger := l, escrows := WithEscrow(t.escrows, e, EscrowOpened(s, req)))
    ensures PaidFor(t, s, req, e).1.value.Some? ==>
              1 <= PaymentMove(s, req, e).amount <= s.publishReward
  {
  }

  lemma UnpaidEvent(s: Settings, t: Tables, req: PublishRequest, e: Id)
    requires EscrowsOk(t.ledger, t.escrows, t.events) && IncomeOk(s, t.ledger, t.escrows, t.events)
    requires e !in t.events
    ensures var events := t.events[e := EventOf(req, None)];
            EscrowsOk(t.ledger, t.escrows, events) && IncomeOk(s, t.ledger, t.escrows, events)
  {
    var events := t.events[e := EventOf(req, None)];
    forall f: Id
      ensures EventEscrowOk(t.ledger, t.escrows, events, f)
      ensures EventIncomeOk(s, t.ledger, t.escrows, events, f)
    {
      assert EventEscrowOk(t.ledger, t.escrows, t.events, f);
      assert EventIncomeOk(s, t.ledger, t.escrows, t.events, f);
    }
  }

  lemma PaidEvent(s: Settings, t: Tables, t': Tables, req: PublishRequest, e: Id, mv: Move, tx: Id)
    requires EconomyOk(s, t) && e !in t.events && e !in t.escrows
    requires mv == PaymentMove(s, req, e) && Extends(s, t.ledger, t'.ledger, mv, tx)
    requires 1 <= mv.amount <= s.publishReward
    requires t'.escrows == WithEscrow(t.escrows, e, EscrowOpened(s, req))
    requires t'.events == t.events[e := EventOf(req, Some(tx))]
    ensures EscrowsOk(t'.ledger, t'.escrows, t'.events) && IncomeOk(s, t'.ledger, t'.escrows, t'.events)
    ensures InvoicesOk(s, t'.ledger, t.invoices) && FeesOk(t'.ledger) && ClaimsOk(s, t'.ledger, t.claims)
  {
    var l := t'.ledger;
    forall f: Id
      ensures EventEscrowOk(l, t'.escrows, t'.events, f)
    {
      assert EventEscrowOk(t.ledger, t.escrows, t.events, f);
      assert Shows(t.ledger, l, MoveTx(tx, mv), RoyaltyOf(f));
    }
    forall f: Id
      ensures EventIncomeOk(s, l, t'.escrows, t'.events, f)
    {
      IncomeOfPublished(s, t, t', req, e, mv, tx, f);
    }
    InvoicesFrame(s, t.ledger, l, mv, tx, t.invoices);
    FeesFrame(s, t.ledger, l, mv, tx);
    ClaimsFrame(s, t.ledger, l, mv, tx, t.claims);
  }

  /** The payment and the escrow of a sale, the fee exact and the rest in escrow until the horizon. */
  lemma PaymentSplits(s: Settings, req: PublishRequest, e: Id, tx: Id, mv: Move, x: Option<Escrow>)
    requires mv == PaymentMove(s, req, e) && x == EscrowOpened(s, req)
    ensures mv.from == Some(TREASURY) && mv.to == Some(req.sourceAgent) && mv.eventId == Some(e)
    ensures PaidAtOnce(s, MoveTx(tx, mv))
    ensures if x.Some? then mv.amount < s.publishReward && x.value.status == Open
                            && IsRestOf(s, x.value, mv.amount, EventOf(req, Some(tx)))
            else mv.amount == s.publishReward
  {
    Payout.ListingFeeExactly(s.publishReward, s.listingFeeRatio);
  }

  lemma IncomeOfPublished(s: Settings, t: Tables, t': Tables, req: PublishRequest, e: Id, mv: Move, tx: Id, f: Id)
    requires EconomyOk(s, t) && e !in t.events && e !in t.escrows
    requires mv == PaymentMove(s, req, e) && Extends(s, t.ledger, t'.ledger, mv, tx)
    requires t'.escrows == WithEscrow(t.escrows, e, EscrowOpened(s, req))
    requires t'.events == t.events[e := EventOf(req, Some(tx))]
    ensures EventIncomeOk(s, t'.ledger, t'.escrows, t'.events, f)
  {
    PaymentSplits(s, req, e, tx, mv, EscrowOpened(s, req));
    assert EventIncomeOk(s, t.ledger, t.escrows, t.events, f);
    assert Shows(t.ledger, t'.ledger, MoveTx(tx, mv), ForEvent(f));
    if f == e {
      TotalOfNone(t.ledger.txs, ForEvent(e));
      FirstIncome(s, t'.ledger, t'.escrows, t'.events, e, mv, tx);
    } else {
      SameIncome(s, t.ledger, t'.ledger, t.escrows, t'.escrows, t.events, t'.events, f);
    }
  }

  lemma SameIncome(s: Settings, l: Ledger, l': Ledger, escrows: map<Id, Escrow>, escrows': map<Id, Escrow>,
                   events: map<Id, Event>, events': map<Id, Event>, e: Id)
    requires EventIncomeOk(s, l, escrows, events, e)
    requires Select(l'.txs, ForEvent(e)) == Select(l.txs, ForEvent(e))
    requires Total(l'.txs, ForEvent(e)) == Total(l.txs, ForEvent(e))
    requires e in events <==> e in events'
    requires e in events ==> events'[e] == events[e]
    requires e in escrows <==> e in escrows'
    requires e in escrows ==> escrows'[e] == escrows[e]
    ensures EventIncomeOk(s, l', escrows', events', e)
  {
  }

  lemma FirstIncome(s: Settings, l: Ledger, escrows: map<Id, Escrow>, events: map<Id, Event>, e: Id, mv: Move, tx: Id)
    requires e in events && events[e].creditsTx == Some(tx)
    requires Select(l.txs, ForEvent(e)) == [MoveTx(tx, mv)] && Total(l.txs, ForEvent(e)) == mv.amount
    requires mv.from == Some(TREASURY) && mv.to == Some(events[e].sourceAgent) && PaidAtOnce(s, MoveTx(tx, mv))
    requires if e in escrows then escrows[e].status == Open && mv.amount < s.publishReward
                                  && IsRestOf(s, escrows[e], mv.amount, events[e])
             else mv.amount == s.publishReward
    ensures EventIncomeOk(s, l, escrows, events, e)
  {
  }

  lemma {:induction false} TotalOfNone(txs: seq<Tx>, key: Key)
    requires Select(txs, key) == []
    ensures Total(txs, key) == 0
    decreases |txs|
  {
    if txs != [] {
      TotalOfNone(txs[..|txs| - 1], key);
    }
  }

  lemma StoredEvents(t: Tables, req: PublishRequest, e: Id, creditsTx: Option<Id>)
    requires EventsOk(t.events, t.identities) && e !in t.events && !HashStored(t, req.payloadHash)
    requires DidBound(t.identities, req)
    ensures EventsOk(t.events[e := EventOf(req, creditsTx)], t.identities)
  {
  }

  lemma DrawId(s: Settings, t: Tables)
    requires EconomyOk(s, t)
    ensures Keeps(s, t, Drawn(t))
    ensures t.nextId !in t.events
  {
    NewInvoices(s, t, Drawn(t));
  }

  /** After its transaction a publish changes the trust tables only. */
  lemma ConclusionKeeps(s: Settings, t: Tables, u: Tables, tx: (Tables, Result<Option<Id>, PublishError>), e: Id,
                        evidence: TrustTables)
    requires Keeps(s, t, u) && Keeps(s, u, tx.0) && tx.0.trust.log <= evidence.log
    ensures Keeps(s, t, Concluded(tx, e, evidence).0)
  {
    KeepsTransitively(s, t, u, tx.0);
    NewTrust(s, tx.0, evidence);
    KeepsTransitively(s, t, tx.0, tx.0.(trust := evidence));
  }

  lemma AcceptedKeeps(s: Settings, t: Tables, req: PublishRequest, evidence: TrustTables)
    requires EconomyOk(s, t) && DidBound(t.identities, req) && t.trust.log <= evidence.log
    ensures Keeps(s, t, Accepted(t, s, req, evidence).0)
  {
    DrawId(s, t);
    PublishTxKeeps(s, Drawn(t), req, t.nextId);
    TxLeavesTrust(s, Drawn(t), req, t.nextId);
    ConclusionKeeps(s, t, Drawn(t), PublishTx(Drawn(t), s, req, t.nextId), t.nextId, evidence);
  }

  lemma PublishKeeps(s: Settings, t: Tables, m: TrustModel, req: PublishRequest)
    requires EconomyOk(s, t)
    ensures Keeps(s, t, Published(t, s, m, req).0)
  {
    var e := SettledEvidence(req, t.nextId);
    RecordedIsLocal(t.trust, e, m, req.sourceAgent);
    PublishIfKeeps(s, t, req, VerifyPayload(req), Recorded(t.trust, e, m).0);
  }

  lemma PublishIfKeeps(s: Settings, t: Tables, req: PublishRequest, verified: bool, evidence: TrustTables)
    requires EconomyOk(s, t) && t.trust.log <= evidence.log
    ensures Keeps(s, t, PublishedIf(t, s, req, verified, evidence).0)
  {
    GatesKeep(s, t, req, verified);
    GatesBind(s, t, req, verified);
    var (gated, passed) := GatedIf(t, s, req, verified);
    if passed.Ok? {
      AcceptedKeeps(s, gated, req, evidence);
      KeepsTransitively(s, t, gated, Accepted(gated, s, req, evidence).0);
    }
  }
}
