/**
 What a caller of a single operation can rely on, row by row: when a charge, a fee, a
 release, a claim or a publish succeeds, what it then adds, and what it leaves behind
 when it does not.
 */
module Outcomes {
  import opened Common
  import opened Database
  import opened Config
  import opened TxLog
  import opened CreditsLedger
  import opened BetaScores
  import opened Invoices
  import opened RefundPool
  import opened Charging
  import opened TrustService
  import opened Publishing
  import opened OrderedSets
  import opened Payout
  import opened EconomyInvariants
  import opened EconomySteps
  import DidKey

  // ---- one more row ----

  predicate IsGrant(tx: Tx, amount: int) {
    tx.from.None? && tx.to.Some? && tx.amount == amount && tx.reason == StartingGrant && tx.outcome == Applied
  }

  /** The log goes on with first-touch grants at most, then `row`; every balance follows. */
  ghost predicate Adds(l: Ledger, l': Ledger, row: Tx, grant: int) {
    && l.txs <= l'.txs && |l.txs| <= row.txId && |l'.txs| == row.txId + 1 && l'.txs[row.txId] == row
    && (forall i :: |l.txs| <= i < row.txId ==> IsGrant(l'.txs[i], grant))
    && (forall a :: a in l'.balances <==> a in l.balances || row.from == Some(a) || row.to == Some(a))
    && (forall a :: a in l'.balances ==>
          l'.balances[a] == Spendable(l, a, grant) + (if row.to == Some(a) then row.amount else 0)
                                                   - (if row.from == Some(a) then row.amount else 0))
  }

  lemma OnlyGrants(l: Ledger, a: Option<Agent>, grant: int)
    ensures var l' := Ensured(l, a, grant).0;
            l.txs <= l'.txs && forall i :: |l.txs| <= i < |l'.txs| ==> IsGrant(l'.txs[i], grant)
  {
  }

  lemma OpenedAddsGrants(l: Ledger, mv: Move, grant: int)
    ensures var o := Opened(l, mv, grant);
            l.txs <= o.txs && forall i :: |l.txs| <= i < |o.txs| ==> IsGrant(o.txs[i], grant)
  {
    OnlyGrants(l, mv.from, grant);
    OnlyGrants(Ensured(l, mv.from, grant).0, mv.to, grant);
  }

  lemma TransferAdds(l: Ledger, mv: Move, grant: int)
    requires Transferred(l, mv, grant).1.Ok?
    ensures Adds(l, Transferred(l, mv, grant).0, MoveTx(Transferred(l, mv, grant).1.value, mv), grant)
  {
    OkTransfer(l, mv, grant);
    TransferOutcome(l, mv, grant);
    OpenedAddsGrants(l, mv, grant);
    PostedAdds(l, Opened(l, mv, grant), mv, grant, Transferred(l, mv, grant).0);
  }

  lemma PostedAdds(l: Ledger, o: Ledger, mv: Move, grant: int, l': Ledger)
    requires l' == Posted(o, mv) && l.txs <= o.txs && forall i :: |l.txs| <= i < |o.txs| ==> IsGrant(o.txs[i], grant)
    requires l.balances.Keys <= o.balances.Keys
    requires (mv.to.Some? ==> mv.to.value in o.balances) && (mv.from.Some? ==> mv.from.value in o.balances)
    requires forall a :: a in l'.balances ==>
               && (a in l.balances || mv.from == Some(a) || mv.to == Some(a))
               && l'.balances[a] == Spendable(l, a, grant) + (if mv.to == Some(a) then mv.amount else 0)
                                                           - (if mv.from == Some(a) then mv.amount else 0)
    ensures Adds(l, l', MoveTx(|o.txs|, mv), grant)
  {
    assert l'.txs == o.txs + [MoveTx(|o.txs|, mv)];
    assert l'.balances.Keys == o.balances.Keys;
  }

  // ---- charging ----

  function InvoiceRow(s: Settings, query: string, subject: Option<Agent>, now: Time, status: InvoiceStatus): Invoice {
    Invoice(query, subject, now + s.invoiceTtlSeconds * MICROS_PER_SECOND, status, None, None)
  }

  /** The tables with one more uncharged invoice, and nothing else. */
  function WithUncharged(t: Tables, row: Invoice): Tables {
    t.(invoices := t.invoices[t.nextId := row], nextId := t.nextId + 1)
  }

  /** Two agents have rows, or can be granted some. */
  predicate RowsFor(l: Ledger, one: Agent, two: Agent, grant: int) {
    (one in l.balances && two in l.balances) || grant >= 1
  }

  /**
   A query is charged exactly when the querier, perhaps with its first grant, can pay.
   Otherwise the ledger is untouched and the invoice is left invalidated, or pending
   when the settlement raised; without a querier there is no invoice either.
   */
  lemma ChargeOutcome(t: Tables, s: Settings, querier: Option<Agent>, query: string, subject: Option<Agent>, now: Time)
    ensures var (t', r) := Charge(t, s, querier, query, subject, now);
            if querier.None? || querier.value == "" then r == MissingQuerier && t' == t
            else
              var rows := RowsFor(t.ledger, querier.value, TREASURY, s.startingGrant);
              var pays := Spendable(t.ledger, querier.value, s.startingGrant) >= s.queryPrice;
              && r == (if !rows then Raised(t.nextId, ConstraintViolation)
                       else if pays then Charged(t.nextId) else Unfunded(t.nextId))
              && (r.Unfunded? ==> t' == WithUncharged(t, InvoiceRow(s, query, subject, now, Invalidated)))
              && (r.Raised? ==> t' == WithUncharged(t, InvoiceRow(s, query, subject, now, Pending)))
  {
    if Truthy(querier) {
      var issued := InvoiceIssued(t, s, query, subject, now);
      SettlementVerdict(issued, s, querier.value, t.nextId, now,
                        SettlementOf(issued, s, querier.value, t.nextId, now).1);
    }
  }

  lemma SettlementVerdict(t: Tables, s: Settings, querier: Agent, i: Id, now: Time, r: Result<Id, LedgerError>)
    requires querier != "" && r == SettlementOf(t, s, querier, i, now).1
    ensures r.Err? ==> r.error == if !RowsFor(t.ledger, querier, TREASURY, s.startingGrant) then ConstraintViolation
                                  else InsufficientFunds
    ensures r.Ok? <==> && RowsFor(t.ledger, querier, TREASURY, s.startingGrant)
                       && Spendable(t.ledger, querier, s.startingGrant) >= s.queryPrice
  {
    TransferOutcome(t.ledger, ChargeMove(s, querier, i), s.startingGrant);
  }

  function ChargeRow(s: Settings, querier: Agent, i: Id, tx: Id): Tx {
    Tx(tx, Some(querier), Some(TREASURY), s.queryPrice, QueryPrice, None, Some(i), Applied)
  }

  function FeeRow(s: Settings, i: Id, tx: Id): Tx {
    Tx(tx, Some(TREASURY), Some(VILLAGE_POOL), s.refundPoolFee, PoolFee, None, Some(i), Applied)
  }

  /** The fee is on, not yet taken for the invoice, and the treasury can pay it to the pool. */
  predicate FeeIsDue(l: Ledger, s: Settings, i: Id) {
    && s.refundPoolFee > 0 && Select(l.txs, PoolFeeOf(i)) == []
    && Spendable(l, TREASURY, s.startingGrant) >= s.refundPoolFee
    && RowsFor(l, TREASURY, VILLAGE_POOL, s.startingGrant)
  }

  /** After a charge the treasury can pay a fee that is on, and the pool has or gets a row. */
  predicate FeeFollowsCharge(l: Ledger, s: Settings, querier: Agent, i: Id) {
    && s.refundPoolFee > 0 && Select(l.txs, PoolFeeOf(i)) == []
    && Spendable(l, TREASURY, s.startingGrant) + (if querier == TREASURY then 0 else s.queryPrice) >= s.refundPoolFee
    && (VILLAGE_POOL in l.balances || querier == VILLAGE_POOL || s.startingGrant >= 1)
  }

  /** Grants aside, the log gains the charge and perhaps the fee; every balance follows. */
  ghost predicate ChargedAndFee(l: Ledger, l': Ledger, s: Settings, querier: Agent, i: Id, tx: Id) {
    var fee, last := FeeFollowsCharge(l, s, querier, i), |l'.txs| - 1;
    && l.txs <= l'.txs && |l.txs| <= tx <= last && l'.txs[tx] == ChargeRow(s, querier, i, tx)
    && (if fee then tx < last && l'.txs[last] == FeeRow(s, i, last) else tx == last)
    && (forall k :: |l.txs| <= k < last && k != tx ==> IsGrant(l'.txs[k], s.startingGrant))
    && (forall a :: a in l'.balances <==>
          a in l.balances || a == querier || a == TREASURY || (fee && a == VILLAGE_POOL))
    && (forall a :: a in l'.balances ==>
          l'.balances[a] == Spendable(l, a, s.startingGrant)
            - (if a == querier then s.queryPrice else 0) + (if a == TREASURY then s.queryPrice else 0)
            - (if fee && a == TREASURY then s.refundPoolFee else 0)
            + (if fee && a == VILLAGE_POOL then s.refundPoolFee else 0))
  }

  /**
   A charged query's invoice is settled and names the charge; the log gains the charge
   and then, exactly when it is due, one pool fee. No other table changes.
   */
  lemma ChargedExactly(t: Tables, s: Settings, querier: Option<Agent>, query: string, subject: Option<Agent>, now: Time)
    requires Charge(t, s, querier, query, subject, now).1.Charged?
    ensures querier.Some?
         && IsCharged(t, Charge(t, s, querier, query, subject, now).0, s, querier.value,
                      InvoiceRow(s, query, subject, now, Settled), now)
  {
    var issued := InvoiceIssued(t, s, query, subject, now);
    var settlement := SettlementOf(issued, s, querier.value, t.nextId, now);
    AfterCharge(t, s, querier.value, query, subject, now, issued, settlement,
                PoolFeeAccrued(settlement.0, s, t.nextId));
  }

  ghost predicate IsCharged(t: Tables, t': Tables, s: Settings, querier: Agent, row: Invoice, now: Time) {
    && t.nextId in t'.invoices && t'.invoices[t.nextId].creditsTx.Some?
    && var tx := t'.invoices[t.nextId].creditsTx.value;
       && t' == WithUncharged(t, row.(creditsTx := Some(tx), settledAt := Some(now))).(ledger := t'.ledger)
       && ChargedAndFee(t.ledger, t'.ledger, s, querier, t.nextId, tx)
  }

  lemma AfterCharge(t: Tables, s: Settings, querier: Agent, query: string, subject: Option<Agent>, now: Time,
                    issued: Tables, settlement: (Tables, Result<Id, LedgerError>),
                    fee: (Tables, Result<Option<Id>, LedgerError>))
    requires issued == InvoiceIssued(t, s, query, subject, now)
    requires settlement == SettlementOf(issued, s, querier, t.nextId, now) && settlement.1.Ok?
    requires fee == PoolFeeAccrued(settlement.0, s, t.nextId)
    ensures IsCharged(t, fee.0, s, querier, InvoiceRow(s, query, subject, now, Settled), now)
  {
    var row := InvoiceRow(s, query, subject, now, Settled);
    IssuedAndSettled(t, s, querier, query, subject, now, issued, settlement);
    FeeTables(settlement.0, s, t.nextId, fee);
    ChargedTables(t, s, querier, row, settlement.0, settlement.1.value, now, fee);
  }

  /** The charge alone. */
  ghost predicate IsSettled(t: Tables, settled: Tables, s: Settings, querier: Agent, row: Invoice, tx: Id, now: Time) {
    && settled == WithUncharged(t, row.(creditsTx := Some(tx), settledAt := Some(now))).(ledger := settled.ledger)
    && Adds(t.ledger, settled.ledger, ChargeRow(s, querier, t.nextId, tx), s.startingGrant)
    && Select(settled.ledger.txs, PoolFeeOf(t.nextId)) == Select(t.ledger.txs, PoolFeeOf(t.nextId))
  }

  lemma IssuedAndSettled(t: Tables, s: Settings, querier: Agent, query: string, subject: Option<Agent>, now: Time,
                         issued: Tables, settlement: (Tables, Result<Id, LedgerError>))
    requires issued == InvoiceIssued(t, s, query, subject, now)
    requires settlement == SettlementOf(issued, s, querier, t.nextId, now) && settlement.1.Ok?
    ensures IsSettled(t, settlement.0, s, querier, InvoiceRow(s, query, subject, now, Settled), settlement.1.value, now)
  {
    SettlementOutcome(issued, s, querier, t.nextId, now, settlement);
    SettledRow(t, s, query, subject, now, issued, settlement.0, settlement.1.value);
  }

  lemma SettledRow(t: Tables, s: Settings, query: string, subject: Option<Agent>, now: Time,
                   issued: Tables, settled: Tables, tx: Id)
    requires issued == InvoiceIssued(t, s, query, subject, now)
    requires settled == issued.(ledger := settled.ledger, invoices := issued.invoices[t.nextId :=
               issued.invoices[t.nextId].(status := Settled, creditsTx := Some(tx), settledAt := Some(now))])
    ensures issued.ledger == t.ledger
    ensures settled == WithUncharged(t, InvoiceRow(s, query, subject, now, Settled)
                                          .(creditsTx := Some(tx), settledAt := Some(now))).(ledger := settled.ledger)
  {
  }

  ghost predicate IsFeeTaken(t: Tables, s: Settings, i: Id, fee: (Tables, Result<Option<Id>, LedgerError>)) {
    && fee.0 == t.(ledger := fee.0.ledger)
    && if FeeIsDue(t.ledger, s, i)
       then fee.1.Ok? && fee.1.value.Some?
            && Adds(t.ledger, fee.0.ledger, FeeRow(s, i, fee.1.value.value), s.startingGrant)
       else fee.0 == t
  }

  lemma FeeTables(t: Tables, s: Settings, i: Id, fee: (Tables, Result<Option<Id>, LedgerError>))
    requires fee == PoolFeeAccrued(t, s, i)
    ensures IsFeeTaken(t, s, i, fee)
  {
    PoolFeeOutcome(t, s, i);
  }

  lemma ChargedTables(t: Tables, s: Settings, querier: Agent, row: Invoice, settled: Tables, tx: Id, now: Time,
                      fee: (Tables, Result<Option<Id>, LedgerError>))
    requires IsSettled(t, settled, s, querier, row, tx, now)
    requires IsFeeTaken(settled, s, t.nextId, fee)
    ensures IsCharged(t, fee.0, s, querier, row, now)
  {
    DueAfterCharge(t.ledger, settled.ledger, s, querier, t.nextId, tx);
    if FeeIsDue(settled.ledger, s, t.nextId) {
      WithFee(t.ledger, settled.ledger, fee.0.ledger, s, querier, t.nextId, tx, fee.1.value.value);
    } else {
      WithoutFee(t.ledger, settled.ledger, s, querier, t.nextId, tx);
    }
  }

  lemma DueAfterCharge(l: Ledger, l1: Ledger, s: Settings, querier: Agent, i: Id, tx: Id)
    requires Adds(l, l1, ChargeRow(s, querier, i, tx), s.startingGrant)
    requires Select(l1.txs, PoolFeeOf(i)) == Select(l.txs, PoolFeeOf(i))
    ensures FeeIsDue(l1, s, i) <==> FeeFollowsCharge(l, s, querier, i)
  {
  }

  lemma WithoutFee(l: Ledger, l': Ledger, s: Settings, querier: Agent, i: Id, tx: Id)
    requires Adds(l, l', ChargeRow(s, querier, i, tx), s.startingGrant) && !FeeFollowsCharge(l, s, querier, i)
    ensures ChargedAndFee(l, l', s, querier, i, tx)
  {
  }

  lemma WithFee(l: Ledger, l1: Ledger, l': Ledger, s: Settings, querier: Agent, i: Id, tx: Id, last: Id)
    requires Adds(l, l1, ChargeRow(s, querier, i, tx), s.startingGrant) && FeeFollowsCharge(l, s, querier, i)
    requires Adds(l1, l', FeeRow(s, i, last), s.startingGrant)
    ensures ChargedAndFee(l, l', s, querier, i, tx)
  {
  }

  lemma SettlementOutcome(t: Tables, s: Settings, querier: Agent, i: Id, now: Time,
                          settlement: (Tables, Result<Id, LedgerError>))
    requires IsPending(t, i) && settlement == SettlementOf(t, s, querier, i, now) && settlement.1.Ok?
    ensures var (t', r) := settlement;
            && t' == t.(ledger := t'.ledger, invoices := t.invoices[i :=
                 t.invoices[i].(status := Settled, creditsTx := Some(r.value), settledAt := Some(now))])
            && Adds(t.ledger, t'.ledger, ChargeRow(s, querier, i, r.value), s.startingGrant)
            && Select(t'.ledger.txs, PoolFeeOf(i)) == Select(t.ledger.txs, PoolFeeOf(i))
  {
    ChargeMoves(t.ledger, s, querier, i, Transferred(t.ledger, ChargeMove(s, querier, i), s.startingGrant));
  }

  lemma ChargeMoves(l: Ledger, s: Settings, querier: Agent, i: Id, moved: (Ledger, Result<Id, LedgerError>))
    requires moved == Transferred(l, ChargeMove(s, querier, i), s.startingGrant) && moved.1.Ok?
    ensures Adds(l, moved.0, ChargeRow(s, querier, i, moved.1.value), s.startingGrant)
    ensures Select(moved.0.txs, PoolFeeOf(i)) == Select(l.txs, PoolFeeOf(i))
    ensures Select(moved.0.txs, ChargeOf(i)) == Select(l.txs, ChargeOf(i)) + [ChargeRow(s, querier, i, moved.1.value)]
  {
    TransferAdds(l, ChargeMove(s, querier, i), s.startingGrant);
    TransferSelect(l, ChargeMove(s, querier, i), s.startingGrant, PoolFeeOf(i));
    TransferSelect(l, ChargeMove(s, querier, i), s.startingGrant, ChargeOf(i));
  }

  /**
   The settlement step on its own checks nothing: it keeps "settled exactly when charged
   once" exactly while the invoice is pending. Run after a sweep, it would take the
   money and leave the invoice lapsed; the executor never yields between the two steps.
   */
  lemma SettlementSafeExactlyWhilePending(t: Tables, s: Settings, querier: Agent, i: Id, now: Time)
    requires InvoiceOk(s, t.ledger, t.invoices, i) && SettlementOf(t, s, querier, i, now).1.Ok?
    ensures var t' := SettlementOf(t, s, querier, i, now).0;
            InvoiceOk(s, t'.ledger, t'.invoices, i) <==> IsPending(t, i)
  {
    var moved := Moved(t, ChargeMove(s, querier, i), s.startingGrant);
    ChargeMoves(t.ledger, s, querier, i, (moved.0.ledger, moved.1));
    SafeExactlyWhilePending(s, t.ledger, moved.0, i, ChargeRow(s, querier, i, moved.1.value), now);
  }

  lemma SafeExactlyWhilePending(s: Settings, l: Ledger, t: Tables, i: Id, charge: Tx, now: Time)
    requires InvoiceOk(s, l, t.invoices, i) && charge.amount == s.queryPrice && charge.to == Some(TREASURY)
    requires Select(t.ledger.txs, ChargeOf(i)) == Select(l.txs, ChargeOf(i)) + [charge]
    ensures InvoiceOk(s, t.ledger, MarkedSettled(t, i, charge.txId, now).invoices, i) <==> IsPending(t, i)
  {
  }

  // ---- pool fees ----

  /**
   A pool fee is taken exactly when it is due: one row from the treasury to the pool, the
   invoice's only one, so that asking again takes none. Otherwise nothing changes.
   */
  lemma PoolFeeOutcome(t: Tables, s: Settings, i: Id)
    ensures var (t', r) := PoolFeeAccrued(t, s, i);
            && t' == t.(ledger := t'.ledger)
            && (if FeeIsDue(t.ledger, s, i)
                then && r == Ok(Some(|t'.ledger.txs| - 1))
                     && Adds(t.ledger, t'.ledger, FeeRow(s, i, |t'.ledger.txs| - 1), s.startingGrant)
                     && |Select(t'.ledger.txs, PoolFeeOf(i))| == 1 && PoolFeeAccrued(t', s, i) == (t', Ok(None))
                else t' == t && (r == Ok(None) <==>
                                   s.refundPoolFee <= 0 || Select(t.ledger.txs, PoolFeeOf(i)) != []))
  {
    if s.refundPoolFee > 0 && Select(t.ledger.txs, PoolFeeOf(i)) == [] {
      FeeMoved(t, s, i, Moved(t, PoolFeeMove(s, i), s.startingGrant));
    }
  }

  lemma FeeMoved(t: Tables, s: Settings, i: Id, moved: (Tables, Result<Id, LedgerError>))
    requires s.refundPoolFee > 0 && Select(t.ledger.txs, PoolFeeOf(i)) == []
    requires moved == Moved(t, PoolFeeMove(s, i), s.startingGrant)
    ensures moved.1.Ok? <==> FeeIsDue(t.ledger, s, i)
    ensures moved.1.Ok? ==>
              && Adds(t.ledger, moved.0.ledger, FeeRow(s, i, moved.1.value), s.startingGrant)
              && |Select(moved.0.ledger.txs, PoolFeeOf(i))| == 1
  {
    TransferOutcome(t.ledger, PoolFeeMove(s, i), s.startingGrant);
    if moved.1.Ok? {
      TransferAdds(t.ledger, PoolFeeMove(s, i), s.startingGrant);
      TransferSelect(t.ledger, PoolFeeMove(s, i), s.startingGrant, PoolFeeOf(i));
    }
  }

  // ---- claims ----

  /** A claim is filed exactly on a settled invoice: one more pending row under the returned id. */
  lemma FilingOutcome(t: Tables, claimant: Agent, i: Id)
    ensures var (t', r) := ClaimFiled(t, claimant, i);
            && (r.Ok? <==> i in t.invoices && t.invoices[i].status == Settled)
            && (r == Err(UnknownInvoice) <==> i !in t.invoices)
            && t' == (if r.Ok? then t.(claims := t.claims[t.nextId := Claim(i, claimant, Filed, None, None)],
                                       nextId := t.nextId + 1)
                      else t)
            && (r.Ok? ==> r.value == t.nextId)
  {
  }

  predicate PoolCanPay(l: Ledger, s: Settings, claimant: Agent) {
    && claimant != "" && Spendable(l, VILLAGE_POOL, s.startingGrant) >= s.queryPrice
    && RowsFor(l, VILLAGE_POOL, claimant, s.startingGrant)
  }

  function RefundRow(s: Settings, c: Claim, tx: Id): Tx {
    Tx(tx, Some(VILLAGE_POOL), Some(c.claimant), s.queryPrice, RefundPayout, None, Some(c.invoiceId), Applied)
  }

  /** Claim `c` after an approval in which row `tx` refunded it. */
  ghost predicate Refunded(t: Tables, t': Tables, s: Settings, c: Id, now: Time)
    requires c in t.claims
  {
    && c in t'.claims && t'.claims[c].payoutTx.Some?
    && var tx := t'.claims[c].payoutTx.value;
       && Adds(t.ledger, t'.ledger, RefundRow(s, t.claims[c], tx), s.startingGrant)
       && t' == t.(ledger := t'.ledger, claims := t.claims[c :=
            t.claims[c].(status := Approved, decidedTs := Some(now), payoutTx := Some(tx))])
  }

  /**
   The verdict on claim `c`: a pending claim is denied when not justified, and approved
   and refunded when justified and the pool can pay; anything else changes nothing.
   */
  ghost predicate Judged(t: Tables, t': Tables, s: Settings, c: Id, justified: bool, now: Time) {
    if !StillFiled(t, c) then t' == t
    else if !justified then t' == t.(claims := t.claims[c := t.claims[c].(status := Denied, decidedTs := Some(now))])
    else if PoolCanPay(t.ledger, s, t.claims[c].claimant) then Refunded(t, t', s, c, now)
    else t' == t
  }

  predicate Reports(t: Tables, r: Result<ClaimDecision, ClaimError>, s: Settings, c: Id, justified: bool) {
    if !StillFiled(t, c) then r.Err?
    else if !justified then r == Ok(ClaimDecision(c, Denied, 0))
    else if PoolCanPay(t.ledger, s, t.claims[c].claimant) then r == Ok(ClaimDecision(c, Approved, s.queryPrice))
    else r.Err?
  }

  /** The deciding transaction, however long ago the claim was read. */
  lemma DecisionExactly(t: Tables, s: Settings, adj: Adjudication, now: Time)
    requires ReadFrom(adj, t.claims)
    ensures var (t', r) := Decided(t, s, adj, now);
            Judged(t, t', s, adj.claimId, adj.justified, now) && Reports(t, r, s, adj.claimId, adj.justified)
  {
    TransferOutcome(t.ledger, RefundMove(s, adj), s.startingGrant);
    if Transferred(t.ledger, RefundMove(s, adj), s.startingGrant).1.Ok? {
      TransferAdds(t.ledger, RefundMove(s, adj), s.startingGrant);
    }
  }

  /** A whole adjudication decides as its argument says. */
  lemma AdjudicationExactly(t: Tables, s: Settings, c: Id, justified: bool, now: Time)
    ensures var (t', r) := Adjudicated(t, s, c, justified, now);
            && Judged(t, t', s, c, justified, now) && Reports(t, r, s, c, justified)
            && (r == Err(UnknownClaim) <==> c !in t.claims)
            && (c in t.claims && t.claims[c].status != Filed ==> r == Err(AlreadyAdjudicated(t.claims[c].status)))
  {
    if StillFiled(t, c) {
      DecisionExactly(t, s, PreCheck(t, c, justified).value, now);
    }
  }

  /**
   A claim is decided exactly when it is still pending and, if approved, the pool can
   pay; it is then no longer pending, and whoever else had read it loses without a trace.
   */
  lemma DecisionOutcome(t: Tables, s: Settings, adj: Adjudication, now: Time, other: Adjudication, later: Time)
    requires other.claimId == adj.claimId
    ensures var (t', r) := Decided(t, s, adj, now);
            && (r.Ok? <==> StillFiled(t, adj.claimId) && (adj.justified ==> PoolCanPay(t.ledger, s, adj.claimant)))
            && (r.Err? ==> t' == t)
            && (r.Ok? ==> Decided(t', s, other, later).0 == t' && Decided(t', s, other, later).1.Err?)
  {
    TransferOutcome(t.ledger, RefundMove(s, adj), s.startingGrant);
  }

  // ---- royalties ----

  function RoyaltyRow(x: Escrow, e: Id, settled: Option<Id>, tx: Id): Tx {
    Tx(tx, Some(TREASURY), Some(x.seller), x.amount, Royalty, Some(e), settled, Applied)
  }

  /** One turn of the release: skipped, expired, or paid by one row that names the settled invoice. */
  lemma TurnExactly(t: Tables, s: Settings, e: Id, settled: Option<Id>, now: Time)
    requires ReleasedOne(t, s, e, settled, now).1.Ok?
    ensures var t' := ReleasedOne(t, s, e, settled, now).0;
            if e !in t.escrows || t.escrows[e].status != Open then t' == t
            else if now > t.escrows[e].expiresTs
            then t' == t.(escrows := t.escrows[e := t.escrows[e].(status := Expired)])
            else && e in t'.escrows && t'.escrows[e].paidTx.Some?
                 && var tx := t'.escrows[e].paidTx.value;
                    && Adds(t.ledger, t'.ledger, RoyaltyRow(t.escrows[e], e, settled, tx), s.startingGrant)
                    && t' == t.(ledger := t'.ledger, escrows := t.escrows[e :=
                         t.escrows[e].(status := Paid, paidTx := Some(tx), paidTs := Some(now))])
  {
    if e in t.escrows && Transferred(t.ledger, RoyaltyMove(e, t.escrows[e], settled), s.startingGrant).1.Ok? {
      TransferAdds(t.ledger, RoyaltyMove(e, t.escrows[e], settled), s.startingGrant);
    }
  }

  /** Row `tx` is a first-touch grant or the royalty of one of the cited events, for the settled invoice. */
  predicate PaysRoyalty(tx: Tx, s: Settings, cited: seq<Id>, settled: Option<Id>) {
    || IsGrant(tx, s.startingGrant)
    || (tx.reason == Royalty && tx.outcome == Applied && tx.from == Some(TREASURY)
        && tx.eventId.Some? && tx.eventId.value in cited && tx.invoiceId == settled)
  }

  predicate OnlyRoyalties(l: Ledger, l': Ledger, s: Settings, cited: seq<Id>, settled: Option<Id>) {
    && l.txs <= l'.txs
    && forall k :: |l.txs| <= k < |l'.txs| ==> PaysRoyalty(l'.txs[k], s, cited, settled)
  }

  /** A release adds royalties of cited events to the log, each naming the settled invoice, and grants. */
  lemma RoyaltiesNameTheInvoice(t: Tables, s: Settings, cited: seq<Id>, settled: Option<Id>, now: Time)
    ensures OnlyRoyalties(t.ledger, Released(t, s, cited, settled, now).0.ledger, s, cited, settled)
  {
    if Released(t, s, cited, settled, now).1.Ok? {
      EachRoyaltyNamesIt(t, s, Dedup(cited), settled, now, cited);
    }
  }

  lemma {:induction false} EachRoyaltyNamesIt(t: Tables, s: Settings, ids: seq<Id>, settled: Option<Id>, now: Time,
                                              cited: seq<Id>)
    requires ReleasedEach(t, s, ids, settled, now).1.Ok? && forall e :: e in ids ==> e in cited
    ensures OnlyRoyalties(t.ledger, ReleasedEach(t, s, ids, settled, now).0.ledger, s, cited, settled)
    decreases |ids|
  {
    if ids != [] {
      var front, last := ids[..|ids| - 1], ids[|ids| - 1];
      EachSnoc(t, s, front, last, settled, now);
      assert front + [last] == ids;
      EachRoyaltyNamesIt(t, s, front, settled, now, cited);
      var t1 := ReleasedEach(t, s, front, settled, now).0;
      TurnExactly(t1, s, last, settled, now);
    }
  }

  // ---- publishing ----

  /** What a paid publish moves at once. */
  function DueAtOnce(s: Settings): int {
    if s.royaltyEnabled then Payout.ListingFee(s.publishReward, s.listingFeeRatio) else s.publishReward
  }

  predicate PartiesExist(t: Tables, s: Settings, req: PublishRequest) {
    req.sourceAgent != "" && RowsFor(t.ledger, TREASURY, req.sourceAgent, s.startingGrant)
  }

  /** The treasury, perhaps with its first grant, can pay what a publish pays at once. */
  predicate CanBePaid(t: Tables, s: Settings, req: PublishRequest) {
    || !PaymentsOn(s)
    || (PartiesExist(t, s, req) && Spendable(t.ledger, TREASURY, s.startingGrant) >= DueAtOnce(s))
  }

  predicate TreasuryIsShort(t: Tables, s: Settings, req: PublishRequest) {
    PaymentsOn(s) && PartiesExist(t, s, req) && Spendable(t.ledger, TREASURY, s.startingGrant) < DueAtOnce(s)
  }

  /** The DID is the name of some key, under which the signature verifies. */
  ghost predicate ProvesKey(req: PublishRequest) {
    exists key: seq<DidKey.byte> ::
      |key| == 32 && req.sellerDid == Some(DidKey.DidFromPublicKey(key)) && req.signatureVerifies
  }

  lemma VerifiesExactly(req: PublishRequest)
    ensures VerifyPayload(req) <==> ProvesKey(req)
  {
    if VerifyPayload(req) {
      DidKey.AcceptedDidIsCanonical(req.sellerDid.value);
    }
    if key: seq<DidKey.byte> :|
         |key| == 32 && req.sellerDid == Some(DidKey.DidFromPublicKey(key)) && req.signatureVerifies {
      DidKey.DidRoundTrip(key);
    }
  }

  predicate PassesGates(t: Tables, s: Settings, req: PublishRequest, verified: bool) {
    && req.kind !in BLOCKLISTED_KINDS && !req.nearDuplicate
    && if !Truthy(req.sellerDid) && !Truthy(req.signature) then !s.requireSignedPublish
       else && Truthy(req.sellerDid) && Truthy(req.signature) && verified
            && if req.sourceAgent in t.identities then t.identities[req.sourceAgent] == req.sellerDid.value
               else !DidTaken(t, req.sourceAgent, req.sellerDid.value)
  }

  /** A first valid signature, of an agent without a DID under a DID nobody holds. */
  predicate FirstBinding(t: Tables, req: PublishRequest, verified: bool) {
    && req.kind !in BLOCKLISTED_KINDS
    && Truthy(req.sellerDid) && Truthy(req.signature) && verified
    && req.sourceAgent !in t.identities && !DidTaken(t, req.sourceAgent, req.sellerDid.value)
  }

  function BoundAfter(t: Tables, req: PublishRequest, verified: bool): map<Agent, string> {
    if FirstBinding(t, req, verified) then t.identities[req.sourceAgent := req.sellerDid.value] else t.identities
  }

  lemma GatesOutcome(t: Tables, s: Settings, req: PublishRequest, verified: bool)
    ensures var (g, passed) := GatedIf(t, s, req, verified);
            && g == t.(identities := BoundAfter(t, req, verified))
            && (passed.Ok? <==> PassesGates(t, s, req, verified))
  {
  }

  lemma PaymentOutcome(t: Tables, s: Settings, req: PublishRequest, g: Tables)
    requires t.nextId !in t.escrows && g == t.(identities := g.identities)
    ensures var (t', r) := PaidFor(Drawn(g), s, req, t.nextId);
            && (r.Ok? <==> CanBePaid(t, s, req))
            && (r.Ok? ==> (r.value.Some? <==> PaymentsOn(s)))
            && t' == Drawn(g).(ledger := t'.ledger, escrows := t'.escrows)
            && (HashStored(t', req.payloadHash) <==> HashStored(t, req.payloadHash))
  {
  }

  lemma TransactionOutcome(t: Tables, s: Settings, req: PublishRequest, g: Tables)
    requires t.nextId !in t.events && t.nextId !in t.escrows && g == t.(identities := g.identities)
    ensures var (t', r) := PublishTx(Drawn(g), s, req, t.nextId);
            && (r.Ok? <==> CanBePaid(t, s, req) && !HashStored(t, req.payloadHash))
            && t'.identities == g.identities && t'.trust == t.trust
            && (r.Err? ==> t' == Drawn(g))
            && (r.Ok? ==> (r.value.Some? <==> PaymentsOn(s)))
  {
    PaymentOutcome(t, s, req, g);
  }

  /**
   A publish succeeds exactly when it passes the gates, can be paid for, and brings a
   new hash. Successful or not, it binds a DID exactly on a first valid signature; a
   failed one leaves everything else as it was, but for an id drawn and thrown away.
   */
  lemma PublishSucceedsExactly(t: Tables, s: Settings, m: TrustModel, req: PublishRequest)
    requires t.nextId !in t.events && t.nextId !in t.escrows
    ensures var (t', r) := Published(t, s, m, req);
            var verified := VerifyPayload(req);
            && (r.Ok? <==> PassesGates(t, s, req, verified) && CanBePaid(t, s, req) && !HashStored(t, req.payloadHash))
            && (t'.identities != t.identities <==> FirstBinding(t, req, verified))
            && t'.identities == BoundAfter(t, req, verified)
            && (r.Err? ==> t' == t.(identities := BoundAfter(t, req, verified),
                                    nextId := t.nextId + if PassesGates(t, s, req, verified) then 1 else 0))
  {
    SucceedsExactlyIf(t, s, req, VerifyPayload(req), Recorded(t.trust, SettledEvidence(req, t.nextId), m).0);
  }

  lemma SucceedsExactlyIf(t: Tables, s: Settings, req: PublishRequest, verified: bool, evidence: TrustTables)
    requires t.nextId !in t.events && t.nextId !in t.escrows
    ensures var (t', r) := PublishedIf(t, s, req, verified, evidence);
            && (r.Ok? <==> PassesGates(t, s, req, verified) && CanBePaid(t, s, req) && !HashStored(t, req.payloadHash))
            && t'.identities == BoundAfter(t, req, verified)
            && (r.Err? ==> t' == t.(identities := BoundAfter(t, req, verified),
                                    nextId := t.nextId + if PassesGates(t, s, req, verified) then 1 else 0))
            && (r.Ok? ==> t'.trust == if PaymentsOn(s) then evidence else t.trust)
  {
    GatesOutcome(t, s, req, verified);
    var g := GatedIf(t, s, req, verified).0;
    TransactionOutcome(t, s, req, g);
    AfterTransaction(PublishTx(Drawn(g), s, req, t.nextId), t.nextId, evidence);
  }

  lemma AfterTransaction(tx: (Tables, Result<Option<Id>, PublishError>), e: Id, evidence: TrustTables)
    ensures var (t', r) := Concluded(tx, e, evidence);
            && (r.Ok? <==> tx.1.Ok?) && t'.identities == tx.0.identities
            && (r.Err? ==> t' == tx.0)
            && (r.Ok? ==> t'.trust == if tx.1.value.Some? then evidence else tx.0.trust)
  {
  }

  /** The evidence a settled sale is: reliability, of weight 1. */
  function SaleEvidence(req: PublishRequest, e: Id): TrustEvent {
    TrustEvent(req.ts.at, req.sourceAgent, "reliability", true, 1.0, "publish_settled", Some(e))
  }

  /** What it takes, once stored, to be evidence. */
  predicate IsEvidence(t: Tables, s: Settings, m: TrustModel, req: PublishRequest) {
    PaymentsOn(s) && !Unrecordable(t.trust, m, SaleEvidence(req, t.nextId), req.ts.aware)
  }

  /**
   A successful publish is reliability evidence exactly when it was paid for, the request's
   time has an offset or no stored row must be aged, and the new score has a lower bound.
   */
  lemma PublishRecordsExactly(t: Tables, s: Settings, m: TrustModel, req: PublishRequest)
    requires t.nextId !in t.events && t.nextId !in t.escrows && Published(t, s, m, req).1.Ok?
    ensures var t' := Published(t, s, m, req).0;
            var e := SaleEvidence(req, t.nextId);
            && (t'.trust != t.trust <==> IsEvidence(t, s, m, req))
            && t'.trust == (if PaymentsOn(s) then Recorded(t.trust, TrustCall(e, req.ts.aware), m).0 else t.trust)
            && (t'.trust != t.trust ==> t'.trust.log == t.trust.log + [e])
  {
    var call := SettledEvidence(req, t.nextId);
    RecordFailsExactly(t.trust, call, m);
    SucceedsExactlyIf(t, s, req, VerifyPayload(req), Recorded(t.trust, call, m).0);
    assert |t.trust.log + [call.event]| > |t.trust.log|;
  }

  /**
   A successful publish stores one event under the id it returns, with a hash that was
   nowhere before, one episode, and its entities; it is linked to an applied payment
   from the treasury to the seller exactly when payments are on.
   */
  lemma PublishStores(t: Tables, s: Settings, m: TrustModel, req: PublishRequest)
    requires t.nextId !in t.events && t.nextId !in t.escrows && Published(t, s, m, req).1.Ok?
    ensures StoredBy(t, Published(t, s, m, req).0, s, req) && Published(t, s, m, req).1 == Ok(t.nextId)
  {
    StoresIf(t, s, req, VerifyPayload(req), Recorded(t.trust, SettledEvidence(req, t.nextId), m).0);
  }

  ghost predicate StoredBy(t: Tables, t': Tables, s: Settings, req: PublishRequest) {
    var e := t.nextId;
    && e in t'.events && !HashStored(t, req.payloadHash)
    && t'.events == t.events[e := Event(req.ts.at, req.kind, req.sourceAgent, req.sourceType, req.payloadHash,
                                        t'.events[e].creditsTx, req.sellerDid)]
    && t'.episodes == t.episodes + [Episode(e, req.sourceAgent, req.observed, req.kind, req.ts.at, req.sourceType)]
    && Corroborates(t.entities, t'.entities, req)
    && t'.invoices == t.invoices && t'.claims == t.claims
    && if s.paymentEnabled && !s.paymentKillSwitch
       then t'.events[e].creditsTx.Some? && SellerPaid(t, t', s, req, t'.events[e].creditsTx.value)
       else t'.events[e].creditsTx.None? && t'.ledger == t.ledger && t'.escrows == t.escrows
  }

  /** How often a request names `a`: as its seller, as the agent observed, or as both. */
  function Mentions(req: PublishRequest, a: Agent): nat {
    (if a == req.sourceAgent then 1 else 0) + (if a != "" && req.observed == Some(a) then 1 else 0)
  }

  /** Every mention counts once for the entity, which the first one creates. */
  ghost predicate Corroborates(entities: map<Agent, Entity>, entities': map<Agent, Entity>, req: PublishRequest) {
    && (forall a :: a in entities' <==> a in entities || Mentions(req, a) > 0)
    && (forall a :: a in entities' ==>
          entities'[a] == if a !in entities then Entity(req.sourceType, Mentions(req, a), req.ts.at, req.ts.at)
                          else if Mentions(req, a) == 0 then entities[a]
                          else entities[a].(corroborations := entities[a].corroborations + Mentions(req, a),
                                            lastUpdated := req.ts.at))
  }

  /** The treasury paid the seller at once what is due at once, and put the rest into escrow. */
  ghost predicate SellerPaid(t: Tables, t': Tables, s: Settings, req: PublishRequest, tx: Id) {
    var e := t.nextId;
    && e in t'.events && |t'.ledger.txs| == tx + 1
    && var row := t'.ledger.txs[tx];
       && Adds(t.ledger, t'.ledger, row, s.startingGrant) && PaidAtOnce(s, row)
       && row == Tx(tx, Some(TREASURY), Some(req.sourceAgent), row.amount, row.reason, Some(e), None, Applied)
       && if row.amount == s.publishReward then t'.escrows == t.escrows
          else && e in t'.escrows && IsRestOf(s, t'.escrows[e], row.amount, t'.events[e])
               && t'.escrows == t.escrows[e := Escrow(req.sourceAgent, t'.escrows[e].amount, t'.escrows[e].createdTs,
                                                      t'.escrows[e].expiresTs, Open, None, None)]
  }

  lemma StoresIf(t: Tables, s: Settings, req: PublishRequest, verified: bool, evidence: TrustTables)
    requires t.nextId !in t.events && t.nextId !in t.escrows && PublishedIf(t, s, req, verified, evidence).1.Ok?
    ensures var (t', r) := PublishedIf(t, s, req, verified, evidence);
            StoredBy(t, t', s, req) && r == Ok(t.nextId)
  {
    GatesOutcome(t, s, req, verified);
    TransactionStores(t, s, req, GatedIf(t, s, req, verified).0);
  }

  lemma TransactionStores(t: Tables, s: Settings, req: PublishRequest, g: Tables)
    requires t.nextId !in t.events && t.nextId !in t.escrows && g == t.(identities := g.identities)
    requires PublishTx(Drawn(g), s, req, t.nextId).1.Ok?
    ensures StoredBy(t, PublishTx(Drawn(g), s, req, t.nextId).0, s, req)
  {
    PaymentOutcome(t, s, req, g);
    PaymentIsAMove(s, Drawn(g), req, t.nextId);
    EveryMentionCounts(t.entities, req);
    var (paid, r) := PaidFor(Drawn(g), s, req, t.nextId);
    if PaymentsOn(s) {
      SellerIsPaid(t, s, req, PaymentMove(s, req, t.nextId), r.value.value, paid,
                   PublishTx(Drawn(g), s, req, t.nextId).0);
    }
  }

  lemma EveryMentionCounts(entities: map<Agent, Entity>, req: PublishRequest)
    ensures Corroborates(entities, EntitiesTouched(entities, req), req)
  {
  }

  lemma SellerIsPaid(t: Tables, s: Settings, req: PublishRequest, mv: Move, tx: Id, paid: Tables, t': Tables)
    requires mv == PaymentMove(s, req, t.nextId) && Transferred(t.ledger, mv, s.startingGrant) == (paid.ledger, Ok(tx))
    requires t.nextId !in t.escrows && paid.escrows == WithEscrow(t.escrows, t.nextId, EscrowOpened(s, req))
    requires t'.ledger == paid.ledger && t'.escrows == paid.escrows
    requires t.nextId in t'.events && t'.events[t.nextId] == EventOf(req, Some(tx))
    ensures SellerPaid(t, t', s, req, tx)
  {
    TransferAdds(t.ledger, mv, s.startingGrant);
    PaymentSplits(s, req, t.nextId, tx, mv, EscrowOpened(s, req));
  }

  // ---- which error ----

  predicate IsSigned(req: PublishRequest) {
    Truthy(req.sellerDid) || Truthy(req.signature)
  }

  /** The refusals before the transaction, exactly; a DID that another agent holds is a database error. */
  predicate GateRefusals<R(==)>(t: Tables, s: Settings, req: PublishRequest, verified: bool,
                                r: Result<R, PublishError>)
  {
    var admitted := req.kind !in BLOCKLISTED_KINDS;
    var proper := Truthy(req.sellerDid) && Truthy(req.signature) && verified;
    && (r == Err(BlockedKind) <==> !admitted)
    && (r == Err(InvalidSignature) <==> admitted && IsSigned(req) && !proper)
    && (r == Err(MissingSignature) <==> admitted && !IsSigned(req) && s.requireSignedPublish)
    && (r == Err(DidMismatch) <==>
          admitted && proper && req.sourceAgent in t.identities
          && t.identities[req.sourceAgent] != req.sellerDid.value)
    && (r == Err(JaccardDuplicate) <==>
          req.nearDuplicate && PassesGates(t, s, req.(nearDuplicate := false), verified))
  }

  predicate TxRefusals(t: Tables, s: Settings, req: PublishRequest, passes: bool, r: Result<Id, PublishError>) {
    && (r == Err(ExactHashDuplicate) <==> passes && CanBePaid(t, s, req) && HashStored(t, req.payloadHash))
    && (r == Err(OldmanInsufficientFunds) <==> passes && TreasuryIsShort(t, s, req))
  }

  lemma PublishRefusals(t: Tables, s: Settings, m: TrustModel, req: PublishRequest)
    requires t.nextId !in t.events && t.nextId !in t.escrows
    ensures var r := Published(t, s, m, req).1;
            && GateRefusals(t, s, req, VerifyPayload(req), r)
            && TxRefusals(t, s, req, PassesGates(t, s, req, VerifyPayload(req)), r)
  {
    RefusalsIf(t, s, req, VerifyPayload(req), Recorded(t.trust, SettledEvidence(req, t.nextId), m).0);
  }

  lemma RefusalsIf(t: Tables, s: Settings, req: PublishRequest, verified: bool, evidence: TrustTables)
    requires t.nextId !in t.events && t.nextId !in t.escrows
    ensures var r := PublishedIf(t, s, req, verified, evidence).1;
            GateRefusals(t, s, req, verified, r) && TxRefusals(t, s, req, PassesGates(t, s, req, verified), r)
  {
    GatesOutcome(t, s, req, verified);
    GateErrors(t, s, req, verified);
    TxErrors(t, s, req, GatedIf(t, s, req, verified).0);
  }

  lemma GateErrors(t: Tables, s: Settings, req: PublishRequest, verified: bool)
    ensures GateRefusals(t, s, req, verified, GatedIf(t, s, req, verified).1)
  {
  }

  /** Past the gates only three kinds of error are left. */
  lemma TxErrors(t: Tables, s: Settings, req: PublishRequest, g: Tables)
    requires t.nextId !in t.events && t.nextId !in t.escrows && g == t.(identities := g.identities)
    ensures var r := PublishTx(Drawn(g), s, req, t.nextId).1;
            r.Err? ==> r.error == if TreasuryIsShort(t, s, req) then OldmanInsufficientFunds
                                  else if CanBePaid(t, s, req) then ExactHashDuplicate else OtherDatabaseError
  {
    PaymentOutcome(t, s, req, g);
    if PaymentsOn(s) {
      TransferOutcome(t.ledger, PaymentMove(s, req, t.nextId), s.startingGrant);
    }
  }
}
