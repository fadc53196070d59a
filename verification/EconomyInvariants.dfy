/**
 What the village's tables promise each other at every moment: the invariant of the
 credits economy, one predicate per group of tables.
 */
module EconomyInvariants {
  import opened Common
  import opened Database
  import opened Config
  import opened TxLog
  import opened CreditsLedger
  import opened CreditsAuditing
  import Payout

  // ---- the ledger and how it grows ----

  /** `n` payments of `price`, added up. */
  function Worth(price: int, n: nat): int {
    if n == 0 then 0 else Worth(price, n - 1) + price
  }

  /** All money there is was granted: one starting grant per agent with a row. */
  predicate SupplyOk(s: Settings, l: Ledger) {
    Total(l.txs, Minted) == Worth(s.startingGrant, |l.balances|)
  }

  /** Balances agree with the log, none is negative, and the log holds applied transfers only. */
  ghost predicate LedgerOk(s: Settings, l: Ledger) {
    && Sound(l) && Rowed(l) && SupplyOk(s, l)
    && forall i :: 0 <= i < |l.txs| ==> l.txs[i].outcome == Applied && l.txs[i].to.Some?
  }

  /** What the log shows about `key` after one more row `tx`, starting grants aside. */
  ghost predicate Shows(l: Ledger, l': Ledger, tx: Tx, key: Key) {
    && Select(l'.txs, key) == Select(l.txs, key) + (if Matches(tx, key) then [tx] else [])
    && Total(l'.txs, key) == Total(l.txs, key) + (if Matches(tx, key) then tx.amount else 0)
  }

  /** `l'` is `l` after the successful move `mv`, logged under `id`. */
  ghost predicate Extends(s: Settings, l: Ledger, l': Ledger, mv: Move, id: Id) {
    && LedgerOk(s, l')
    && l.balances.Keys <= l'.balances.Keys && l.txs <= l'.txs
    && mv.from.Some? && mv.from.value in l'.balances && mv.to.Some? && mv.to.value in l'.balances
    && |l.txs| <= id < |l'.txs| && l'.txs[id] == MoveTx(id, mv)
    && mv.amount > 0 && mv.to != Some("")
    && forall key :: GrantFree(key) ==> Shows(l, l', MoveTx(id, mv), key)
  }

  lemma TransferExtends(s: Settings, l: Ledger, mv: Move)
    requires LedgerOk(s, l) && mv.from.Some? && mv.to.Some?
    requires Transferred(l, mv, s.startingGrant).1.Ok?
    ensures Extends(s, l, Transferred(l, mv, s.startingGrant).0, mv, Transferred(l, mv, s.startingGrant).1.value)
  {
    var startingGrant := s.startingGrant;
    var (l', r) := Transferred(l, mv, startingGrant);
    TransferKeepsSound(l, mv, startingGrant);
    TransferKeepsRowed(l, mv, startingGrant);
    OkTransfer(l, mv, startingGrant);
    forall key | GrantFree(key)
      ensures Shows(l, l', MoveTx(r.value, mv), key)
    {
      TransferSelect(l, mv, startingGrant, key);
    }
    OpenedGrows(l, mv, startingGrant);
    TransferSupplies(s, l, mv);
    var o := Opened(l, mv, startingGrant);
    assert l' == Posted(o, mv) && l'.txs[|o.txs|] == MoveTx(|o.txs|, mv);
    assert l'.balances.Keys == o.balances.Keys;
  }

  lemma RowAdded(b: map<Agent, int>, a: Agent, v: int)
    requires a !in b
    ensures |b[a := v]| == |b| + 1
  {
    assert b[a := v].Keys == b.Keys + {a};
    assert |b[a := v]| == |b[a := v].Keys| && |b| == |b.Keys|;
  }

  lemma GrantSupplies(s: Settings, l: Ledger, a: Agent, rows: nat)
    requires SupplyOk(s, l) && rows == |l.balances| + 1
    ensures Total(Logged(l, Grant(a, s.startingGrant), Applied).txs, Minted) == Worth(s.startingGrant, rows)
  {
    Appended(l.txs, Logged(l, Grant(a, s.startingGrant), Applied).txs[|l.txs|], Minted);
  }

  lemma EnsuredSupplies(s: Settings, l: Ledger, a: Option<Agent>)
    requires SupplyOk(s, l) && Ensured(l, a, s.startingGrant).1.Ok?
    ensures SupplyOk(s, Ensured(l, a, s.startingGrant).0)
  {
    if a.Some? && a.value !in l.balances {
      RowAdded(l.balances, a.value, s.startingGrant);
      GrantSupplies(s, l, a.value, |Ensured(l, a, s.startingGrant).0.balances|);
    }
  }

  lemma TransferSupplies(s: Settings, l: Ledger, mv: Move)
    requires SupplyOk(s, l) && mv.from.Some? && Transferred(l, mv, s.startingGrant).1.Ok?
    ensures SupplyOk(s, Transferred(l, mv, s.startingGrant).0)
  {
    OkTransfer(l, mv, s.startingGrant);
    EnsuredSupplies(s, l, mv.from);
    EnsuredSupplies(s, Ensured(l, mv.from, s.startingGrant).0, mv.to);
    PostedSupplies(s, Opened(l, mv, s.startingGrant), mv);
  }

  lemma PostedSupplies(s: Settings, l: Ledger, mv: Move)
    requires SupplyOk(s, l) && mv.from.Some?
    ensures SupplyOk(s, Posted(l, mv))
  {
    var l' := Posted(l, mv);
    Appended(l.txs, l'.txs[|l.txs|], Minted);
    assert l'.balances.Keys == l.balances.Keys;
    assert |l'.balances| == |l'.balances.Keys| && |l.balances| == |l.balances.Keys|;
  }

  lemma OpenedGrows(l: Ledger, mv: Move, startingGrant: int)
    requires forall i :: 0 <= i < |l.txs| ==> l.txs[i].outcome == Applied && l.txs[i].to.Some?
    ensures var o := Opened(l, mv, startingGrant);
            && l.txs <= o.txs
            && forall i :: 0 <= i < |o.txs| ==> o.txs[i].outcome == Applied && o.txs[i].to.Some?
  {
  }

  // ---- escrows ----

  /** The royalty row an escrow's payment left. */
  predicate IsRoyaltyFor(tx: Tx, x: Escrow) {
    && tx.from == Some(TREASURY) && tx.to == Some(x.seller) && tx.amount == x.amount
    && x.paidTx == Some(tx.txId)
  }

  /** Paid exactly when one royalty row exists, which it names; and then paid in time. */
  ghost predicate EscrowOk(l: Ledger, e: Id, x: Escrow) {
    var royalties := Select(l.txs, RoyaltyOf(e));
    && x.amount > 0 && x.seller != "" && x.seller in l.balances && TREASURY in l.balances
    && if x.status == Paid
       then x.paidTs.Some? && x.paidTs.value <= x.expiresTs && |royalties| == 1 && IsRoyaltyFor(royalties[0], x)
       else x.paidTs.None? && x.paidTx.None? && royalties == []
  }

  ghost predicate EventEscrowOk(l: Ledger, escrows: map<Id, Escrow>, events: map<Id, Event>, e: Id) {
    if e in escrows
    then e in events && escrows[e].seller == events[e].sourceAgent && EscrowOk(l, e, escrows[e])
    else Select(l.txs, RoyaltyOf(e)) == []
  }

  ghost predicate EscrowsOk(l: Ledger, escrows: map<Id, Escrow>, events: map<Id, Event>) {
    forall e: Id :: EventEscrowOk(l, escrows, events, e)
  }

  // ---- what an event earned ----

  function Outstanding(escrows: map<Id, Escrow>, e: Id): int {
    if e in escrows && escrows[e].status != Paid then escrows[e].amount else 0
  }

  predicate RoyaltyPaid(escrows: map<Id, Escrow>, e: Id) {
    e in escrows && escrows[e].status == Paid
  }

  /** What a sale pays at once: the clamped and rounded share of the reward, or all of it. */
  predicate PaidAtOnce(s: Settings, tx: Tx) {
    if s.royaltyEnabled
    then tx.reason == ListingFee && Payout.IsListingFee(tx.amount, s.publishReward, s.listingFeeRatio)
    else tx.reason == PublishReward && tx.amount == s.publishReward
  }

  /** The rest of the reward, to be earned within the horizon, in days of 24 hours. */
  predicate IsRestOf(s: Settings, x: Escrow, paid: int, sold: Event) {
    && x.amount == s.publishReward - paid && x.createdTs == sold.ts
    && x.expiresTs == sold.ts + s.escrowHorizonDays * (24 * 60 * 60 * 1_000_000)
  }

  /**
   A paid-for event has its linked payment of what is paid at once, an escrow exactly for
   a rest and, once that is paid, one royalty; with what is outstanding they make the reward.
   */
  ghost predicate EventIncomeOk(s: Settings, l: Ledger, escrows: map<Id, Escrow>, events: map<Id, Event>, e: Id) {
    var paid := Select(l.txs, ForEvent(e));
    if e !in events || events[e].creditsTx.None? then paid == [] && e !in escrows
    else
      && |paid| == (if RoyaltyPaid(escrows, e) then 2 else 1)
      && paid[0].txId == events[e].creditsTx.value && PaidAtOnce(s, paid[0])
      && (e in escrows <==> paid[0].amount < s.publishReward)
      && (e in escrows ==> IsRestOf(s, escrows[e], paid[0].amount, events[e]))
      && (forall tx :: tx in paid ==> tx.from == Some(TREASURY) && tx.to == Some(events[e].sourceAgent))
      && Total(l.txs, ForEvent(e)) == s.publishReward - Outstanding(escrows, e)
  }

  ghost predicate IncomeOk(s: Settings, l: Ledger, escrows: map<Id, Escrow>, events: map<Id, Event>) {
    forall e: Id :: EventIncomeOk(s, l, escrows, events, e)
  }

  // ---- invoices and fees ----

  /** Settled exactly when one query charge for it exists, whose id it stores. */
  ghost predicate InvoiceOk(s: Settings, l: Ledger, invoices: map<Id, Invoice>, i: Id) {
    var charges := Select(l.txs, ChargeOf(i));
    if i in invoices && invoices[i].status == Settled
    then |charges| == 1 && invoices[i].creditsTx == Some(charges[0].txId)
         && charges[0].amount == s.queryPrice && charges[0].to == Some(TREASURY)
    else charges == [] && (i in invoices ==> invoices[i].creditsTx.None?)
  }

  ghost predicate InvoicesOk(s: Settings, l: Ledger, invoices: map<Id, Invoice>) {
    forall i: Id :: InvoiceOk(s, l, invoices, i)
  }

  ghost predicate OneFee(l: Ledger, i: Id) {
    |Select(l.txs, PoolFeeOf(i))| <= 1
  }

  ghost predicate FeesOk(l: Ledger) {
    forall i: Id :: OneFee(l, i)
  }

  // ---- claims ----

  function ApprovedClaims(claims: map<Id, Claim>): set<Id> {
    set c | c in claims && claims[c].status == Approved
  }

  predicate IsPayoutOf(tx: Tx, c: Claim, price: int) {
    && tx.outcome == Applied && tx.reason == RefundPayout && tx.amount == price
    && tx.from == Some(VILLAGE_POOL) && tx.to == Some(c.claimant) && tx.invoiceId == Some(c.invoiceId)
  }

  /** An approved claim names its own payout row; no other claim names any. */
  ghost predicate ClaimOk(s: Settings, l: Ledger, claims: map<Id, Claim>, c: Id)
    requires c in claims
  {
    if claims[c].status == Approved
    then claims[c].payoutTx.Some? && claims[c].payoutTx.value < |l.txs|
         && IsPayoutOf(l.txs[claims[c].payoutTx.value], claims[c], s.queryPrice)
    else claims[c].payoutTx.None?
  }

  ghost predicate ClaimsOk(s: Settings, l: Ledger, claims: map<Id, Claim>) {
    && (forall c :: c in claims ==> ClaimOk(s, l, claims, c))
    && (forall c, d :: c in ApprovedClaims(claims) && d in ApprovedClaims(claims) && c != d ==>
          claims[c].payoutTx != claims[d].payoutTx)
    && |Select(l.txs, Refunds)| == |ApprovedClaims(claims)|
    && Total(l.txs, Refunds) == Worth(s.queryPrice, |ApprovedClaims(claims)|)
    && (forall i: Id :: InvoiceRefundsOk(s, l, claims, i))
  }

  function ApprovedFor(claims: map<Id, Claim>, i: Id): set<Id> {
    set c | c in claims && claims[c].status == Approved && claims[c].invoiceId == i
  }

  /** An invoice has been refunded once for each of its approved claims. */
  ghost predicate InvoiceRefundsOk(s: Settings, l: Ledger, claims: map<Id, Claim>, i: Id) {
    && |Select(l.txs, RefundsOf(i))| == |ApprovedFor(claims, i)|
    && Total(l.txs, RefundsOf(i)) == Worth(s.queryPrice, |ApprovedFor(claims, i)|)
  }

  // ---- events and identities ----

  predicate Signed(e: Event) {
    Truthy(e.sellerDid)
  }

  /** No two events share a payload hash; signed events carry their agent's bound DID. */
  ghost predicate EventsOk(events: map<Id, Event>, identities: map<Agent, string>) {
    && (forall e, f :: e in events && f in events && e != f ==> events[e].payloadHash != events[f].payloadHash)
    && (forall e :: e in events && Signed(events[e]) ==>
          events[e].sourceAgent in identities && Some(identities[events[e].sourceAgent]) == events[e].sellerDid)
  }

  /** Bindings are one-to-one. */
  ghost predicate IdentitiesOk(identities: map<Agent, string>) {
    forall a, b :: a in identities && b in identities && a != b ==> identities[a] != identities[b]
  }

  predicate IdsOk(t: Tables) {
    && (forall e :: e in t.events ==> e < t.nextId)
    && (forall i :: i in t.invoices ==> i < t.nextId)
    && (forall c :: c in t.claims ==> c < t.nextId)
  }

  /** The invariant of all tables but the trust tables. */
  ghost predicate EconomyOk(s: Settings, t: Tables) {
    && LedgerOk(s, t.ledger)
    && EscrowsOk(t.ledger, t.escrows, t.events)
    && IncomeOk(s, t.ledger, t.escrows, t.events)
    && InvoicesOk(s, t.ledger, t.invoices)
    && FeesOk(t.ledger)
    && ClaimsOk(s, t.ledger, t.claims)
    && EventsOk(t.events, t.identities)
    && IdentitiesOk(t.identities)
    && IdsOk(t)
  }

  /** Even without any invariant, a transfer only appends to the log. */
  lemma TransferGrows(l: Ledger, mv: Move, startingGrant: int)
    ensures l.txs <= Transferred(l, mv, startingGrant).0.txs
  {
  }

  // ---- rows a transfer does not concern ----

  lemma EscrowsFrame(s: Settings, l: Ledger, l': Ledger, mv: Move, id: Id,
                     escrows: map<Id, Escrow>, events: map<Id, Event>)
    requires Extends(s, l, l', mv, id) && mv.reason != Royalty && EscrowsOk(l, escrows, events)
    ensures EscrowsOk(l', escrows, events)
  {
    forall e: Id
      ensures EventEscrowOk(l', escrows, events, e)
    {
      assert EventEscrowOk(l, escrows, events, e);
      assert Shows(l, l', MoveTx(id, mv), RoyaltyOf(e));
    }
  }

  lemma IncomeFrame(s: Settings, l: Ledger, l': Ledger, mv: Move, id: Id,
                    escrows: map<Id, Escrow>, events: map<Id, Event>)
    requires Extends(s, l, l', mv, id) && mv.eventId.None? && IncomeOk(s, l, escrows, events)
    ensures IncomeOk(s, l', escrows, events)
  {
    forall e: Id
      ensures EventIncomeOk(s, l', escrows, events, e)
    {
      assert EventIncomeOk(s, l, escrows, events, e);
      assert Shows(l, l', MoveTx(id, mv), ForEvent(e));
    }
  }

  lemma InvoicesFrame(s: Settings, l: Ledger, l': Ledger, mv: Move, id: Id, invoices: map<Id, Invoice>)
    requires Extends(s, l, l', mv, id) && mv.reason != QueryPrice && InvoicesOk(s, l, invoices)
    ensures InvoicesOk(s, l', invoices)
  {
    forall i: Id
      ensures InvoiceOk(s, l', invoices, i)
    {
      assert InvoiceOk(s, l, invoices, i);
      assert Shows(l, l', MoveTx(id, mv), ChargeOf(i));
    }
  }

  lemma FeesFrame(s: Settings, l: Ledger, l': Ledger, mv: Move, id: Id)
    requires Extends(s, l, l', mv, id) && FeesOk(l)
    requires mv.reason == PoolFee ==> mv.invoiceId.Some? && Select(l.txs, PoolFeeOf(mv.invoiceId.value)) == []
    ensures FeesOk(l')
  {
    forall i: Id
      ensures OneFee(l', i)
    {
      assert OneFee(l, i);
      assert Shows(l, l', MoveTx(id, mv), PoolFeeOf(i));
    }
  }

  lemma ClaimsFrame(s: Settings, l: Ledger, l': Ledger, mv: Move, id: Id, claims: map<Id, Claim>)
    requires Extends(s, l, l', mv, id) && mv.reason != RefundPayout && ClaimsOk(s, l, claims)
    ensures ClaimsOk(s, l', claims)
  {
    assert Shows(l, l', MoveTx(id, mv), Refunds);
    forall c | c in claims
      ensures ClaimOk(s, l', claims, c)
    {
      assert ClaimOk(s, l, claims, c);
    }
    forall i: Id
      ensures InvoiceRefundsOk(s, l', claims, i)
    {
      assert InvoiceRefundsOk(s, l, claims, i);
      assert Shows(l, l', MoveTx(id, mv), RefundsOf(i));
    }
  }
}
