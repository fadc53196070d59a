/**
 Short runs of the village, from empty tables, that show inputs on which a property one
 might expect does not hold.
 */
module ConcreteRuns {
  import opened Common
  import opened BetaScores
  import opened OrderedSets
  import opened Database
  import opened Config
  import opened TxLog
  import opened CreditsLedger
  import opened Invoices
  import opened Charging
  import opened Payout
  import opened RoyaltyReleases
  import opened TrustService
  import opened Corroboration
  import opened Publishing
  import opened EconomyInvariants
  import opened Outcomes
  import opened Economy
  import opened VillageTrust
  import DidKey

  /** Payments and royalties on, a grant of 10, a reward of 9: one credit at once, 8 in escrow. */
  const PAYING: Settings :=
    DEFAULT_SETTINGS.(paymentEnabled := true, royaltyEnabled := true,
                      startingGrant := 10, publishReward := 9, listingFeeRatio := 0.0)

  /** An unsigned sale at a time. */
  function Sale(seller: Agent, hash: string, ts: Stamp): PublishRequest {
    PublishRequest("report", seller, None, SelfReport, ts, hash, None, None, false, false)
  }

  /** What a paid sale leaves. */
  ghost predicate Sold(t: Tables, t': Tables, m: TrustModel, seller: Agent, hash: string, ts: Stamp) {
    var e := t.nextId;
    && t'.nextId == e + 1 && e in t'.events && t'.events == t.events[e := t'.events[e]]
    && t'.events[e].payloadHash == hash && t'.events[e].sourceAgent == seller && t'.events[e].creditsTx.Some?
    && t'.escrows == t.escrows[e := OpenEscrow(PAYING, seller, 8, ts.at)]
    && TREASURY in t'.ledger.balances
    && t'.ledger.balances[TREASURY] == Spendable(t.ledger, TREASURY, 10) - (if seller == TREASURY then 0 else 1)
    && t'.trust == Recorded(t.trust, SettledEvidence(Sale(seller, hash, ts), e), m).0
  }

  lemma SaleOutcome(t: Tables, s: Settings, m: TrustModel, seller: Agent, hash: string, ts: Stamp,
                    out: (Tables, Result<Id, PublishError>))
    requires s == PAYING && seller != "" && !HashStored(t, hash)
    requires t.nextId !in t.events && t.nextId !in t.escrows
    requires Spendable(t.ledger, TREASURY, 10) >= 1
    requires out == Published(t, s, m, Sale(seller, hash, ts))
    ensures out.1 == Ok(t.nextId) && Sold(t, out.0, m, seller, hash, ts)
  {
    var req := Sale(seller, hash, ts);
    PublishSucceedsExactly(t, s, m, req);
    PublishStores(t, s, m, req);
    OneAtOnce(t, out.0, s, req, out.0.events[t.nextId].creditsTx.value);
    PublishRecordsExactly(t, s, m, req);
    NextIdAfter(t, s, m, req);
  }

  /** Of nine credits at ratio 0 one is paid at once. */
  lemma OneAtOnce(t: Tables, t': Tables, s: Settings, req: PublishRequest, tx: Id)
    requires s == PAYING && t.nextId !in t.escrows && SellerPaid(t, t', s, req, tx)
    requires t'.events[t.nextId].ts == req.ts.at
    ensures t'.escrows == t.escrows[t.nextId := OpenEscrow(s, req.sourceAgent, 8, req.ts.at)]
    ensures TREASURY in t'.ledger.balances
    ensures t'.ledger.balances[TREASURY]
         == Spendable(t.ledger, TREASURY, 10) - (if req.sourceAgent == TREASURY then 0 else 1)
  {
    assert 9.0 * s.listingFeeRatio == 0.0;
  }

  lemma NextIdAfter(t: Tables, s: Settings, m: TrustModel, req: PublishRequest)
    requires t.nextId !in t.events && t.nextId !in t.escrows && Published(t, s, m, req).1.Ok?
    ensures Published(t, s, m, req).0.nextId == t.nextId + 1
  {
    var verified := VerifyPayload(req);
    var g := GatedIf(t, s, req, verified).0;
    GatesOutcome(t, s, req, verified);
    TransactionOutcome(t, s, req, g);
  }

  lemma RunSnoc(s: Settings, m: TrustModel, ops: seq<Op>, op: Op)
    ensures RunOf(s, m, ops + [op]) == Apply(s, m, RunOf(s, m, ops), op)
  {
    assert (ops + [op])[..|ops + [op]| - 1] == ops;
  }

  lemma OneSale(s: Settings, m: TrustModel, seller: Agent, ts: Stamp, t: Tables)
    requires s == PAYING && seller != "" && t == RunOf(s, m, [Publish(Sale(seller, "a", ts))]).db
    ensures Sold(EMPTY_TABLES, t, m, seller, "a", ts)
  {
    var none: seq<Op> := [];
    var op := Publish(Sale(seller, "a", ts));
    RunSnoc(s, m, none, op);
    assert none + [op] == [op];
    SaleOutcome(EMPTY_TABLES, s, m, seller, "a", ts, Published(EMPTY_TABLES, s, m, Sale(seller, "a", ts)));
  }

  /** Two sales in a row. */
  lemma TwoSales(s: Settings, m: TrustModel, one: Agent, two: Agent, ts: Stamp, ops: seq<Op>, t: Tables)
    requires s == PAYING && one != "" && two != ""
    requires ops == [Publish(Sale(one, "a", ts)), Publish(Sale(two, "b", ts))] && t == RunOf(s, m, ops).db
    ensures AfterTwo(t, one, two, ts)
  {
    var t1 := RunOf(s, m, [ops[0]]).db;
    OneSale(s, m, one, ts, t1);
    RunSnoc(s, m, [ops[0]], ops[1]);
    assert [ops[0]] + [ops[1]] == ops;
    SaleOutcome(t1, s, m, two, "b", ts, Published(t1, s, m, Sale(two, "b", ts)));
    BothSold(m, one, two, ts, t1, t);
  }

  ghost predicate AfterTwo(t: Tables, one: Agent, two: Agent, ts: Stamp) {
    && 0 in t.events && 1 in t.events && t.events[0].sourceAgent == one && t.events[1].sourceAgent == two
    && t.escrows == map[0 := OpenEscrow(PAYING, one, 8, ts.at), 1 := OpenEscrow(PAYING, two, 8, ts.at)]
    && TREASURY in t.ledger.balances
    && t.ledger.balances[TREASURY] == 8 + (if one == TREASURY then 1 else 0) + (if two == TREASURY then 1 else 0)
    && (forall a :: (a, HONESTY) !in t.trust.scores)
  }

  lemma BothSold(m: TrustModel, one: Agent, two: Agent, ts: Stamp, t1: Tables, t2: Tables)
    requires Sold(EMPTY_TABLES, t1, m, one, "a", ts) && Sold(t1, t2, m, two, "b", ts)
    ensures AfterTwo(t2, one, two, ts)
  {
    OnlyItsAxis(EMPTY_TABLES.trust, SettledEvidence(Sale(one, "a", ts), 0), m);
    OnlyItsAxis(t1.trust, SettledEvidence(Sale(two, "b", ts), 1), m);
  }

  lemma OnlyItsAxis(t: TrustTables, call: TrustCall, m: TrustModel)
    requires call.event.criterion == RELIABILITY && forall a :: (a, HONESTY) !in t.scores
    ensures forall a :: (a, HONESTY) !in Recorded(t, call, m).0.scores
  {
  }

  // ---- a treasury that sells to itself ----

  /** After one sale by the treasury and one by bob, the order of citations decides the release. */
  lemma SelfSaleOfRun(s: Settings, m: TrustModel, ts: Stamp, ops: seq<Op>)
    requires s == PAYING && ops == [Publish(Sale(TREASURY, "a", ts)), Publish(Sale("bob", "b", ts))]
    ensures OrderDecides(RunOf(s, m, ops).db, s, {0, 1}, ts.at)
  {
    var w := RunOf(s, m, ops);
    TwoSales(s, m, TREASURY, "bob", ts, ops, w.db);
    EveryRunIsOk(s, m, ops);
    EscrowPartiesHaveRows(s, w);
    TreasuryAndBob(w.db, ts.at);
    SelfSaleOrderMatters(w.db, s, {0, 1}, ts.at);
  }

  lemma TreasuryAndBob(t: Tables, now: Time)
    requires Funded(t) && t.escrows.Keys == {0, 1} && BalanceOf(t.ledger, TREASURY) == 9
    requires t.escrows[0].seller == TREASURY && t.escrows[1].seller == "bob"
    requires Due(t, now, 0) == 8 && Due(t, now, 1) == 8
    ensures SomeOrderSucceeds(t, now, {0, 1}) && !EveryOrderSucceeds(t, now, {0, 1})
  {
    OwnOweNothing(t, now, {0});
    OneMoreToOthers(t, now, {0}, 1);
    assert {0} + {1} == {0, 1};
    LargestOwnIsReached(t, now, {0, 1});
    assert 0 in {0, 1} && DueTo(t, now, 0, TREASURY) == 8 && DueTo(t, now, 1, TREASURY) == 0;
  }

  // ---- a failed publish that leaves a binding ----

  /** A first valid signature over a payload that is already stored. */
  lemma FailedPublishBinds(s: Settings, m: TrustModel, key: seq<DidKey.byte>, ts: Stamp, t: Tables, req: PublishRequest)
    requires s == DEFAULT_SETTINGS && |key| == 32
    requires t == RunOf(s, m, [Publish(Sale("alice", "a", ts))]).db
    requires req == Sale("bob", "a", ts).(sellerDid := Some(DidKey.DidFromPublicKey(key)),
                                          signature := Some("5ig"), signatureVerifies := true)
    ensures var (t', r) := Published(t, s, m, req);
            r.Err? && "bob" !in t.identities && "bob" in t'.identities
  {
    UnpaidSale(s, m, ts, t);
    EveryRunIsOk(s, m, [Publish(Sale("alice", "a", ts))]);
    FreshIdIsUnused(s, t);
    SignedWith(key, req);
    StoredHashBinds(t, s, m, req);
  }

  lemma SignedWith(key: seq<DidKey.byte>, req: PublishRequest)
    requires |key| == 32 && req.sellerDid == Some(DidKey.DidFromPublicKey(key)) && req.signatureVerifies
    ensures VerifyPayload(req) && Truthy(req.sellerDid)
  {
    DidKey.DidRoundTrip(key);
  }

  lemma StoredHashBinds(t: Tables, s: Settings, m: TrustModel, req: PublishRequest)
    requires t.nextId !in t.events && t.nextId !in t.escrows && HashStored(t, req.payloadHash)
    requires FirstBinding(t, req, VerifyPayload(req))
    ensures var (t', r) := Published(t, s, m, req);
            r.Err? && req.sourceAgent in t'.identities
  {
    PublishSucceedsExactly(t, s, m, req);
  }

  lemma UnpaidSale(s: Settings, m: TrustModel, ts: Stamp, t: Tables)
    requires s == DEFAULT_SETTINGS && t == RunOf(s, m, [Publish(Sale("alice", "a", ts))]).db
    ensures HashStored(t, "a") && t.identities == map[]
  {
    var first := Sale("alice", "a", ts);
    var none: seq<Op> := [];
    RunSnoc(s, m, none, Publish(first));
    assert none + [Publish(first)] == [Publish(first)];
    PublishSucceedsExactly(EMPTY_TABLES, s, m, first);
    PublishStores(EMPTY_TABLES, s, m, first);
    assert t.events[0].payloadHash == "a";
  }

  // ---- a failed contradiction that forfeits ----

  /** Weight -1 against a seller without honesty events: the score has no lower bound, the escrow is gone. */
  lemma FailedContradictionForfeits(s: Settings, m: TrustModel, ts: Stamp, ops: seq<Op>, t: Tables)
    requires s == PAYING && m.ledger == DEFAULT_LEDGER_POLICY
    requires ops == [Publish(Sale("ann", "a", ts)), Publish(Sale("bob", "b", ts))] && t == RunOf(s, m, ops).db
    ensures var (t', r) := Contradicted(t, m, 0, 1, -1.0, Stamp(ts.at, true));
            && r.Err? && t'.trust == t.trust
            && OpenEscrowOf(t, 0) && 0 in t'.escrows && t'.escrows[0].status == Expired
  {
    TwoSales(s, m, "ann", "bob", ts, ops, t);
    TrustRefusesExactly(t, m, 0, -1.0, Stamp(ts.at, true));
    FailedContradiction(t, m, 0, 1, -1.0, Stamp(ts.at, true));
  }

  // ---- a settled sale that is no evidence ----

  /** Ann's second paid sale carries a time without offset: it is stored and paid, but never counted. */
  lemma NaiveSaleIsNoEvidence(s: Settings, m: TrustModel, ts: Stamp, later: Time, t: Tables)
    requires s == PAYING && ts.aware && t == RunOf(s, m, [Publish(Sale("ann", "a", ts))]).db
    ensures var (t', r) := Published(t, s, m, Sale("ann", "b", Stamp(later, false)));
            && r == Ok(1) && 1 in t'.events && t'.events[1].creditsTx.Some?
            && t.trust.log != [] && t'.trust == t.trust
  {
    OneSale(s, m, "ann", ts, t);
    FirstEvidence(m, SettledEvidence(Sale("ann", "a", ts), 0));
    var out := Published(t, s, m, Sale("ann", "b", Stamp(later, false)));
    SaleOutcome(t, s, m, "ann", "b", Stamp(later, false), out);
  }

  lemma FirstEvidence(m: TrustModel, call: TrustCall)
    requires call.aware && call.event.positive && call.event.weight == 1.0 && call.event.criterion == RELIABILITY
    ensures var t := Recorded(EMPTY_TABLES.trust, call, m).0;
            t.log == [call.event] && View(t, call.event.agent).reliability.Some?
  {
    RecordFailsExactly(EMPTY_TABLES.trust, call, m);
    RecordedIsLocal(EMPTY_TABLES.trust, call, m, call.event.agent);
  }

  // ---- a settlement after the sweep ----

  /** An invoice issued, then swept, then settled: the query is charged, the invoice stays lapsed. */
  lemma LateSettlementCharges(s: Settings, querier: Agent, now: Time, later: Time, t: Tables)
    requires querier != "" && s.startingGrant >= s.queryPrice
    requires later > now + s.invoiceTtlSeconds * MICROS_PER_SECOND
    requires t == Swept(InvoiceIssued(EMPTY_TABLES, s, "who", None, now), later)
    ensures var (t', r) := SettlementOf(t, s, querier, 0, later);
            && r.Ok? && 0 in t'.invoices && t'.invoices[0].status == Lapsed
            && Select(t'.ledger.txs, ChargeOf(0)) == [ChargeRow(s, querier, 0, r.value)]
  {
    LapsedInvoice(s, now, later, t);
    ChargedAnyway(t, s, querier, 0, later);
  }

  lemma LapsedInvoice(s: Settings, now: Time, later: Time, t: Tables)
    requires later > now + s.invoiceTtlSeconds * MICROS_PER_SECOND
    requires t == Swept(InvoiceIssued(EMPTY_TABLES, s, "who", None, now), later)
    ensures t.ledger == EMPTY_TABLES.ledger && 0 in t.invoices && t.invoices[0].status == Lapsed
  {
  }

  lemma ChargedAnyway(t: Tables, s: Settings, querier: Agent, i: Id, now: Time)
    requires querier != "" && !IsPending(t, i) && Select(t.ledger.txs, ChargeOf(i)) == []
    requires RowsFor(t.ledger, querier, TREASURY, s.startingGrant)
    requires Spendable(t.ledger, querier, s.startingGrant) >= s.queryPrice
    ensures var (t', r) := SettlementOf(t, s, querier, i, now);
            && r.Ok? && t'.invoices == t.invoices
            && Select(t'.ledger.txs, ChargeOf(i)) == [ChargeRow(s, querier, i, r.value)]
  {
    var settlement := SettlementOf(t, s, querier, i, now);
    SettlementVerdict(t, s, querier, i, now, settlement.1);
    LateCharge(t, s, querier, i, now, Moved(t, ChargeMove(s, querier, i), s.startingGrant));
  }

  lemma LateCharge(t: Tables, s: Settings, querier: Agent, i: Id, now: Time, moved: (Tables, Result<Id, LedgerError>))
    requires !IsPending(t, i) && Select(t.ledger.txs, ChargeOf(i)) == []
    requires moved == Moved(t, ChargeMove(s, querier, i), s.startingGrant) && moved.1.Ok?
    ensures SettlementOf(t, s, querier, i, now) == moved && moved.0.invoices == t.invoices
    ensures Select(moved.0.ledger.txs, ChargeOf(i)) == [ChargeRow(s, querier, i, moved.1.value)]
  {
    ChargeMoves(t.ledger, s, querier, i, (moved.0.ledger, moved.1));
  }
}
