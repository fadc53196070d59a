/**
 Whole runs of the village: publishes, charges, sweeps, releases, fees, claims,
 adjudications and verdicts in any order, with any arguments, rejected and rolled-back
 calls included. Adjudicators may read a claim and decide it much later.
 */
module Economy {
  import opened Common
  import opened OrderedSets
  import opened Database
  import opened Config
  import opened TxLog
  import opened CreditsLedger
  import opened CreditsAuditing
  import opened Payout
  import opened RoyaltyReleases
  import opened Invoices
  import opened RefundPool
  import opened Charging
  import opened TrustService
  import opened Corroboration
  import opened Publishing
  import opened EconomyInvariants
  import opened EconomySteps
  import opened Outcomes

  datatype Op =
    | Publish(req: PublishRequest)
    | ChargeQuery(querier: Option<Agent>, query: string, subject: Option<Agent>, now: Time)
    | SweepInvoices(now: Time)
    | ReleaseCited(cited: seq<Id>, settled: Option<Id>, now: Time)
    | AccrueFee(invoiceId: Id)
    | File(claimant: Agent, invoiceId: Id)
    | BeginAdjudication(claimId: Id, justified: bool)
    | FinishAdjudication(which: nat, now: Time)
    | Contradict(disputed: Id, contradicting: Id, weight: real, when: Stamp)
    | Corroborate(original: Id, corroborating: Id, weight: real, when: Stamp)
    | RecordEvidence(call: TrustCall)

  /** The tables, and the adjudicators between their pre-check and their transaction. */
  datatype World = World(db: Tables, waiting: seq<Adjudication>)

  const START: World := World(EMPTY_TABLES, [])

  function Apply(s: Settings, m: TrustModel, w: World, op: Op): World {
    match op
    case Publish(req) => w.(db := Published(w.db, s, m, req).0)
    case ChargeQuery(querier, query, subject, now) => w.(db := Charge(w.db, s, querier, query, subject, now).0)
    case SweepInvoices(now) => w.(db := Swept(w.db, now))
    case ReleaseCited(cited, settled, now) => w.(db := Released(w.db, s, cited, settled, now).0)
    case AccrueFee(invoiceId) => w.(db := PoolFeeAccrued(w.db, s, invoiceId).0)
    case File(claimant, invoiceId) => w.(db := ClaimFiled(w.db, claimant, invoiceId).0)
    case BeginAdjudication(claimId, justified) =>
      var check := PreCheck(w.db, claimId, justified);
      if check.Ok? then w.(waiting := w.waiting + [check.value]) else w
    case FinishAdjudication(which, now) =>
      if which < |w.waiting|
      then World(Decided(w.db, s, w.waiting[which], now).0, w.waiting[..which] + w.waiting[which + 1..])
      else w
    case Contradict(d, c, weight, now) => w.(db := Contradicted(w.db, m, d, c, weight, now).0)
    case Corroborate(o, c, weight, now) => w.(db := Corroborated(w.db, m, o, c, weight, now).0)
    case RecordEvidence(call) => w.(db := w.db.(trust := Recorded(w.db.trust, call, m).0))
  }

  function RunFrom(s: Settings, m: TrustModel, w: World, ops: seq<Op>): World {
    if ops == [] then w else Apply(s, m, RunFrom(s, m, w, ops[..|ops| - 1]), ops[|ops| - 1])
  }

  function RunOf(s: Settings, m: TrustModel, ops: seq<Op>): World {
    RunFrom(s, m, START, ops)
  }

  // ---- the invariant of every run ----

  predicate WaitingOk(w: World) {
    forall k :: 0 <= k < |w.waiting| ==> ReadFrom(w.waiting[k], w.db.claims)
  }

  lemma MoneyStep(s: Settings, m: TrustModel, w: World, op: Op)
    requires EconomyOk(s, w.db) && WaitingOk(w)
    ensures Keeps(s, w.db, Apply(s, m, w, op).db)
  {
    if op.Publish? || op.ChargeQuery? || op.SweepInvoices? || op.ReleaseCited? || op.AccrueFee? {
      TradeStep(s, m, w, op, Apply(s, m, w, op).db);
    } else {
      JudgementStep(s, m, w, op, Apply(s, m, w, op).db);
    }
  }

  lemma TradeStep(s: Settings, m: TrustModel, w: World, op: Op, after: Tables)
    requires EconomyOk(s, w.db) && after == Apply(s, m, w, op).db
    requires op.Publish? || op.ChargeQuery? || op.SweepInvoices? || op.ReleaseCited? || op.AccrueFee?
    ensures Keeps(s, w.db, after)
  {
    match op
    case Publish(req) => PublishKeeps(s, w.db, m, req);
    case ChargeQuery(querier, query, subject, now) => ChargeKeeps(s, w.db, querier, query, subject, now);
    case SweepInvoices(now) => SweepKeeps(s, w.db, now);
    case ReleaseCited(cited, settled, now) => ReleaseKeeps(s, w.db, cited, settled, now);
    case AccrueFee(invoiceId) => PoolFeeKeeps(s, w.db, invoiceId);
  }

  lemma JudgementStep(s: Settings, m: TrustModel, w: World, op: Op, after: Tables)
    requires EconomyOk(s, w.db) && WaitingOk(w) && after == Apply(s, m, w, op).db
    requires !(op.Publish? || op.ChargeQuery? || op.SweepInvoices? || op.ReleaseCited? || op.AccrueFee?)
    ensures Keeps(s, w.db, after)
  {
    match op
    case File(claimant, invoiceId) => FilingKeeps(s, w.db, claimant, invoiceId);
    case BeginAdjudication(claimId, justified) => KeepsNothingMoved(s, w.db);
    case FinishAdjudication(which, now) =>
      if which < |w.waiting| {
        DecisionKeeps(s, w.db, w.waiting[which], now);
      } else {
        KeepsNothingMoved(s, w.db);
      }
    case Contradict(d, c, weight, now) => ContradictionKeeps(s, w.db, m, d, c, weight, now);
    case Corroborate(o, c, weight, now) => CorroborationKeeps(s, w.db, m, o, c, weight, now);
    case RecordEvidence(call) => TrustKeeps(s, w.db, call, m);
  }

  lemma WaitingStep(s: Settings, m: TrustModel, w: World, op: Op)
    requires WaitingOk(w) && Evolves(w.db, Apply(s, m, w, op).db)
    ensures WaitingOk(Apply(s, m, w, op))
  {
    var w' := Apply(s, m, w, op);
    forall k | 0 <= k < |w'.waiting|
      ensures ReadFrom(w'.waiting[k], w'.db.claims)
    {
      if op.BeginAdjudication? && k == |w.waiting| {
        assert ReadFrom(w'.waiting[k], w.db.claims);
      } else {
        var j := if op.FinishAdjudication? && op.which < |w.waiting| && k >= op.which then k + 1 else k;
        assert w'.waiting[k] == w.waiting[j];
        StillRead(w.waiting[j], w.db, w'.db);
      }
    }
  }

  lemma StillRead(adj: Adjudication, t: Tables, t': Tables)
    requires ReadFrom(adj, t.claims) && Evolves(t, t')
    ensures ReadFrom(adj, t'.claims)
  {
  }

  ghost predicate WorldOk(s: Settings, w: World) {
    EconomyOk(s, w.db) && WaitingOk(w)
  }

  lemma StepIsOk(s: Settings, m: TrustModel, w: World, op: Op)
    requires WorldOk(s, w)
    ensures WorldOk(s, Apply(s, m, w, op)) && Evolves(w.db, Apply(s, m, w, op).db)
  {
    MoneyStep(s, m, w, op);
    WaitingStep(s, m, w, op);
  }

  /** Every run keeps the invariant, and continuing a run only moves rows forward. */
  lemma {:induction false} RunIsOk(s: Settings, m: TrustModel, w: World, ops: seq<Op>)
    requires WorldOk(s, w)
    ensures WorldOk(s, RunFrom(s, m, w, ops)) && Evolves(w.db, RunFrom(s, m, w, ops).db)
    decreases |ops|
  {
    if ops == [] {
      KeepsNothingMoved(s, w.db);
    } else {
      var front := ops[..|ops| - 1];
      RunIsOk(s, m, w, front);
      StepIsOk(s, m, RunFrom(s, m, w, front), ops[|ops| - 1]);
      EvolvesTransitively(w.db, RunFrom(s, m, w, front).db, RunFrom(s, m, w, ops).db);
    }
  }

  lemma StartIsOk(s: Settings)
    ensures WorldOk(s, START)
  {
  }

  lemma EveryRunIsOk(s: Settings, m: TrustModel, ops: seq<Op>)
    ensures WorldOk(s, RunOf(s, m, ops))
  {
    StartIsOk(s);
    RunIsOk(s, m, START, ops);
  }

  // ---- money ----

  /**
   In every run, each agent's balance is applied credits in minus applied credits out,
   no balance is negative, total balances equal total minted credits, and every paid
   escrow has its royalty row: the audit is balanced and reports no issue.
   */
  lemma AuditIsAlwaysClean(s: Settings, m: TrustModel, ops: seq<Op>)
    ensures var db := RunOf(s, m, ops).db;
            && (forall a: Agent :: BalanceOf(db.ledger, a) == Net(db.ledger.txs, a) && BalanceOf(db.ledger, a) >= 0)
            && SumBalances(db.ledger, db.ledger.balances.Keys) == Total(db.ledger.txs, Minted)
            && (forall e :: !Orphan(db, e))
            && (forall i :: 0 <= i < |db.ledger.txs| ==> db.ledger.txs[i].outcome == Applied)
  {
    EveryRunIsOk(s, m, ops);
    var db := RunOf(s, m, ops).db;
    NoBurns(db.ledger.txs);
    BalancedExactlyWithoutBurns(db.ledger);
    forall e
      ensures !Orphan(db, e)
    {
      NoOrphan(s, db, e);
    }
  }

  lemma {:induction false} NoBurns(txs: seq<Tx>)
    requires forall i :: 0 <= i < |txs| ==> txs[i].to.Some?
    ensures Select(txs, Burned) == []
    decreases |txs|
  {
    if txs != [] {
      NoBurns(txs[..|txs| - 1]);
    }
  }

  lemma NoOrphan(s: Settings, db: Tables, e: Id)
    requires EconomyOk(s, db)
    ensures !Orphan(db, e)
  {
    assert EventEscrowOk(db.ledger, db.escrows, db.events, e);
    if e in db.escrows && db.escrows[e].status == Paid {
      var tx := Select(db.ledger.txs, RoyaltyOf(e))[0];
      SelectedAreLogged(db.ledger.txs, RoyaltyOf(e));
      assert tx in db.ledger.txs;
    }
  }

  /** All money there is was granted: one starting grant for every agent with a row, none lost. */
  lemma MoneySupplyOfRun(s: Settings, m: TrustModel, ops: seq<Op>)
    ensures var l := RunOf(s, m, ops).db.ledger;
            SumBalances(l, l.balances.Keys) == s.startingGrant * |l.balances|
  {
    EveryRunIsOk(s, m, ops);
    AuditIsAlwaysClean(s, m, ops);
    WorthIsProduct(s.startingGrant, |RunOf(s, m, ops).db.ledger.balances|);
  }

  // ---- escrows ----

  /**
   In every run an escrow is paid exactly when one applied royalty row for its event
   exists; that row has its amount and the id it recorded, and was paid in time.
   */
  lemma EscrowsOfRun(s: Settings, m: TrustModel, ops: seq<Op>, e: Id)
    ensures var db := RunOf(s, m, ops).db;
            var royalties := Select(db.ledger.txs, RoyaltyOf(e));
            && |royalties| == (if RoyaltyPaid(db.escrows, e) then 1 else 0)
            && (RoyaltyPaid(db.escrows, e) ==>
                  && royalties[0].amount == db.escrows[e].amount && royalties[0].to == Some(db.escrows[e].seller)
                  && db.escrows[e].paidTx == Some(royalties[0].txId)
                  && db.escrows[e].paidTs.Some? && db.escrows[e].paidTs.value <= db.escrows[e].expiresTs)
  {
    EveryRunIsOk(s, m, ops);
    var db := RunOf(s, m, ops).db;
    assert EventEscrowOk(db.ledger, db.escrows, db.events, e);
  }

  /** Once an escrow has left "open", no continuation of the run changes it or pays for it again. */
  lemma ClosedEscrowsStay(s: Settings, m: TrustModel, w: World, more: seq<Op>, e: Id)
    requires WorldOk(s, w) && e in w.db.escrows && w.db.escrows[e].status != Open
    ensures var db := RunFrom(s, m, w, more).db;
            && e in db.escrows && db.escrows[e] == w.db.escrows[e]
            && |Select(db.ledger.txs, RoyaltyOf(e))| == |Select(w.db.ledger.txs, RoyaltyOf(e))|
  {
    RunIsOk(s, m, w, more);
    var db := RunFrom(s, m, w, more).db;
    assert EscrowMoves(w.db.escrows[e], db.escrows[e]);
    assert EventEscrowOk(db.ledger, db.escrows, db.events, e);
    assert EventEscrowOk(w.db.ledger, w.db.escrows, w.db.events, e);
  }

  /** In every run the parties of every escrow have rows, so a release depends on the treasury alone. */
  lemma EscrowPartiesHaveRows(s: Settings, w: World)
    requires WorldOk(s, w)
    ensures Funded(w.db)
  {
    forall e | e in w.db.escrows
      ensures w.db.escrows[e].amount > 0 && w.db.escrows[e].seller != ""
              && w.db.escrows[e].seller in w.db.ledger.balances && TREASURY in w.db.ledger.balances
    {
      assert EventEscrowOk(w.db.ledger, w.db.escrows, w.db.events, e);
    }
  }

  /**
   At any moment of any run, citing events releases all their open escrows or none: all
   exactly when the treasury covers each at its turn; without a self-sale, exactly when
   it covers the sum of those still in time.
   */
  lemma ReleaseOfRun(s: Settings, m: TrustModel, ops: seq<Op>, cited: seq<Id>, invoiceId: Option<Id>, now: Time)
    ensures var t := RunOf(s, m, ops).db;
            var (t', r) := Released(t, s, cited, invoiceId, now);
            && (r.Ok? <==> CoveredInOrder(t, now, Dedup(cited)))
            && (NoSelfSale(t, cited) ==>
                  (r.Ok? <==> BalanceOf(t.ledger, TREASURY) >= TotalDue(t, now, Elements(cited))))
            && (if r.Ok? then After(t, t', Dedup(cited), now) else t' == t)
  {
    EveryRunIsOk(s, m, ops);
    var w := RunOf(s, m, ops);
    EscrowPartiesHaveRows(s, w);
    SucceedsExactlyInOrder(w.db, s, cited, invoiceId, now);
    ReleaseIsAllOrNothing(w.db, s, cited, invoiceId, now);
    if NoSelfSale(w.db, cited) {
      SucceedsExactlyWhenCovered(w.db, s, cited, invoiceId, now);
    }
  }

  /** A contradicted event earns no royalty afterwards, in any continuation. */
  lemma ContradictedNeverPaid(s: Settings, m: TrustModel, w: World, d: Id, c: Id, weight: real, now: Stamp,
                              after: World, more: seq<Op>)
    requires WorldOk(s, w) && ProperPair(w.db, d, c)
    requires !RoyaltyPaid(w.db.escrows, d)
    requires after == Apply(s, m, w, Contradict(d, c, weight, now))
    ensures Select(RunFrom(s, m, after, more).db.ledger.txs, RoyaltyOf(d)) == []
  {
    ContradictionCloses(w.db, m, d, c, weight, now);
    NoRoyaltyAfter(s, m, w, Contradict(d, c, weight, now), more, d);
  }

  lemma NoRoyaltyAfter(s: Settings, m: TrustModel, w: World, op: Op, more: seq<Op>, e: Id)
    requires WorldOk(s, w) && NotPayable(Apply(s, m, w, op).db, e)
    ensures Select(RunFrom(s, m, Apply(s, m, w, op), more).db.ledger.txs, RoyaltyOf(e)) == []
  {
    StepIsOk(s, m, w, op);
    NoRoyaltyFrom(s, m, Apply(s, m, w, op), more, e);
  }

  lemma ContradictionCloses(t: Tables, m: TrustModel, d: Id, c: Id, weight: real, now: Stamp)
    requires ProperPair(t, d, c) && !RoyaltyPaid(t.escrows, d)
    ensures NotPayable(Contradicted(t, m, d, c, weight, now).0, d)
  {
  }

  /** Stored, and without an escrow that could still be paid. */
  predicate NotPayable(t: Tables, e: Id) {
    e in t.events && (e in t.escrows ==> t.escrows[e].status == Expired)
  }

  lemma NoRoyaltyFrom(s: Settings, m: TrustModel, w: World, more: seq<Op>, e: Id)
    requires WorldOk(s, w) && NotPayable(w.db, e)
    ensures Select(RunFrom(s, m, w, more).db.ledger.txs, RoyaltyOf(e)) == []
  {
    assert EventEscrowOk(w.db.ledger, w.db.escrows, w.db.events, e);
    if e in w.db.escrows {
      ClosedEscrowsStay(s, m, w, more, e);
    } else {
      NoLateEscrow(s, m, w, more, e);
    }
  }

  /** An event stored without an escrow never earns a royalty later. */
  lemma NoLateEscrow(s: Settings, m: TrustModel, w: World, more: seq<Op>, e: Id)
    requires WorldOk(s, w) && e in w.db.events && e !in w.db.escrows
    ensures Select(RunFrom(s, m, w, more).db.ledger.txs, RoyaltyOf(e)) == []
  {
    RunIsOk(s, m, w, more);
    RewardAlreadyWhole(s, w.db, RunFrom(s, m, w, more).db, e);
  }

  /** Its reward was paid in full at once, and a royalty on top would exceed it. */
  lemma RewardAlreadyWhole(s: Settings, t: Tables, t': Tables, e: Id)
    requires EconomyOk(s, t) && EconomyOk(s, t') && Evolves(t, t')
    requires e in t.events && e !in t.escrows
    ensures Select(t'.ledger.txs, RoyaltyOf(e)) == []
  {
    assert EventEscrowOk(t'.ledger, t'.escrows, t'.events, e);
    assert EventIncomeOk(s, t.ledger, t.escrows, t.events, e);
    assert EventIncomeOk(s, t'.ledger, t'.escrows, t'.events, e);
    if RoyaltyPaid(t'.escrows, e) {
      LongerLog(t.ledger.txs, t'.ledger.txs, ForEvent(e));
      assert false;
    }
  }

  /** In a longer log of positive amounts, more matching rows add up to more. */
  lemma {:induction false} LongerLog(txs: seq<Tx>, txs': seq<Tx>, key: Key)
    requires txs <= txs' && forall i :: 0 <= i < |txs'| ==> txs'[i].amount > 0
    ensures |Select(txs', key)| >= |Select(txs, key)| && Total(txs', key) >= Total(txs, key)
    ensures |Select(txs', key)| > |Select(txs, key)| ==> Total(txs', key) > Total(txs, key)
    decreases |txs'|
  {
    if |txs'| == |txs| {
      assert txs' == txs;
    } else {
      var front, last := txs'[..|txs'| - 1], txs'[|txs'| - 1];
      LongerLog(txs, front, key);
      assert txs' == front + [last];
      Appended(front, last, key);
    }
  }

  // ---- what sellers earn ----

  /**
   In every run a paid-for event has earned its reward less what is still outstanding:
   never more than the reward, and all of it exactly when its escrow is paid or it has none.
   */
  lemma IncomeOfRun(s: Settings, m: TrustModel, ops: seq<Op>, e: Id)
    ensures var db := RunOf(s, m, ops).db;
            var earned := Total(db.ledger.txs, ForEvent(e));
            if e in db.events && db.events[e].creditsTx.Some? then
              && earned == s.publishReward - Outstanding(db.escrows, e)
              && 0 <= earned <= s.publishReward
              && (earned == s.publishReward <==> e !in db.escrows || RoyaltyPaid(db.escrows, e))
            else earned == 0 && e !in db.escrows
  {
    EveryRunIsOk(s, m, ops);
    var db := RunOf(s, m, ops).db;
    assert EventEscrowOk(db.ledger, db.escrows, db.events, e);
    assert EventIncomeOk(s, db.ledger, db.escrows, db.events, e);
    PositiveTotal(db.ledger.txs, ForEvent(e));
  }

  lemma {:induction false} PositiveTotal(txs: seq<Tx>, key: Key)
    requires forall i :: 0 <= i < |txs| ==> txs[i].amount > 0
    ensures Total(txs, key) >= 0
    ensures Select(txs, key) == [] ==> Total(txs, key) == 0
    decreases |txs|
  {
    if txs != [] {
      PositiveTotal(txs[..|txs| - 1], key);
    }
  }

  /**
   In every run a paid-for event is linked to the first of its rows, all from the treasury
   to its seller. That row pays the rounded share of the reward, or all of it without
   royalties; an escrow was opened exactly for a rest, with the rest and the deadline.
   */
  lemma PaymentOfRun(s: Settings, m: TrustModel, ops: seq<Op>, e: Id)
    requires var db := RunOf(s, m, ops).db; e in db.events && db.events[e].creditsTx.Some?
    ensures var db := RunOf(s, m, ops).db;
            var paid := Select(db.ledger.txs, ForEvent(e));
            && |paid| == (if RoyaltyPaid(db.escrows, e) then 2 else 1)
            && paid[0].txId == db.events[e].creditsTx.value && PaidAtOnce(s, paid[0])
            && (e in db.escrows <==> paid[0].amount < s.publishReward)
            && (e in db.escrows ==> IsRestOf(s, db.escrows[e], paid[0].amount, db.events[e]))
            && (forall tx :: tx in paid ==> tx.from == Some(TREASURY) && tx.to == Some(db.events[e].sourceAgent))
  {
    EveryRunIsOk(s, m, ops);
    var db := RunOf(s, m, ops).db;
    assert EventIncomeOk(s, db.ledger, db.escrows, db.events, e);
  }

  // ---- invoices and claims ----

  /** In every run an invoice is settled exactly when its one charge exists, and has at most one pool fee. */
  lemma InvoicesOfRun(s: Settings, m: TrustModel, ops: seq<Op>, i: Id)
    ensures var db := RunOf(s, m, ops).db;
            var charges := Select(db.ledger.txs, ChargeOf(i));
            var settled := i in db.invoices && db.invoices[i].status == Settled;
            && |charges| == (if settled then 1 else 0)
            && (settled ==> db.invoices[i].creditsTx == Some(charges[0].txId) && charges[0].amount == s.queryPrice)
            && |Select(db.ledger.txs, PoolFeeOf(i))| <= 1
  {
    EveryRunIsOk(s, m, ops);
    var db := RunOf(s, m, ops).db;
    assert InvoiceOk(s, db.ledger, db.invoices, i);
    assert OneFee(db.ledger, i);
  }

  lemma {:induction false} WorthIsProduct(price: int, n: nat)
    ensures Worth(price, n) == price * n
    decreases n
  {
    if n > 0 {
      WorthIsProduct(price, n - 1);
      assert price * n == price * (n - 1) + price;
    }
  }

  /** In every run the refunds paid out are the query price times the number of approved claims. */
  lemma RefundsOfRun(s: Settings, m: TrustModel, ops: seq<Op>)
    ensures var db := RunOf(s, m, ops).db;
            var approved := ApprovedClaims(db.claims);
            && |Select(db.ledger.txs, Refunds)| == |approved|
            && Total(db.ledger.txs, Refunds) == s.queryPrice * |approved|
            && (forall c :: c in approved ==>
                  && db.claims[c].payoutTx.Some? && db.claims[c].payoutTx.value < |db.ledger.txs|
                  && IsPayoutOf(db.ledger.txs[db.claims[c].payoutTx.value], db.claims[c], s.queryPrice))
            && (forall c, d :: c in approved && d in approved && c != d ==>
                  db.claims[c].payoutTx != db.claims[d].payoutTx)
  {
    EveryRunIsOk(s, m, ops);
    var db := RunOf(s, m, ops).db;
    WorthIsProduct(s.queryPrice, |ApprovedClaims(db.claims)|);
    forall c | c in ApprovedClaims(db.claims)
      ensures db.claims[c].payoutTx.Some? && db.claims[c].payoutTx.value < |db.ledger.txs|
              && IsPayoutOf(db.ledger.txs[db.claims[c].payoutTx.value], db.claims[c], s.queryPrice)
    {
      assert ClaimOk(s, db.ledger, db.claims, c);
    }
  }

  /** In every run the refunds of each invoice are the query price times its own approved claims. */
  lemma RefundsOfInvoice(s: Settings, m: TrustModel, ops: seq<Op>, i: Id)
    ensures var db := RunOf(s, m, ops).db;
            && |Select(db.ledger.txs, RefundsOf(i))| == |ApprovedFor(db.claims, i)|
            && Total(db.ledger.txs, RefundsOf(i)) == s.queryPrice * |ApprovedFor(db.claims, i)|
  {
    EveryRunIsOk(s, m, ops);
    var db := RunOf(s, m, ops).db;
    assert InvoiceRefundsOk(s, db.ledger, db.claims, i);
    WorthIsProduct(s.queryPrice, |ApprovedFor(db.claims, i)|);
  }

  /** Decided claims and invoices that left "pending" stay as they are in every continuation. */
  lemma DecidedRowsStay(s: Settings, m: TrustModel, w: World, more: seq<Op>)
    requires WorldOk(s, w)
    ensures var db := RunFrom(s, m, w, more).db;
            && (forall c :: c in w.db.claims && w.db.claims[c].status != Filed ==>
                  c in db.claims && db.claims[c] == w.db.claims[c])
            && (forall i :: i in w.db.invoices && w.db.invoices[i].status != Pending ==>
                  i in db.invoices && db.invoices[i] == w.db.invoices[i])
            && (forall a :: a in w.db.identities ==> a in db.identities && db.identities[a] == w.db.identities[a])
            && (forall e :: e in w.db.events ==> e in db.events && db.events[e] == w.db.events[e])
            && w.db.ledger.txs <= db.ledger.txs
  {
    RunIsOk(s, m, w, more);
    OnlyForward(w.db, RunFrom(s, m, w, more).db);
  }

  lemma OnlyForward(t: Tables, t': Tables)
    requires Evolves(t, t')
    ensures forall c :: c in t.claims && t.claims[c].status != Filed ==> c in t'.claims && t'.claims[c] == t.claims[c]
    ensures forall i :: i in t.invoices && t.invoices[i].status != Pending ==>
              i in t'.invoices && t'.invoices[i] == t.invoices[i]
  {
  }

  /** An adjudicator that read a claim too early loses: an error, and not one row changed. */
  lemma LateAdjudicatorLoses(s: Settings, t: Tables, adj: Adjudication, now: Time)
    requires !StillFiled(t, adj.claimId)
    ensures Decided(t, s, adj, now).0 == t && Decided(t, s, adj, now).1.Err?
  {
  }

  // ---- publishing ----

  /**
   At any moment of any run, a publish succeeds exactly when it passes the gates, can be
   paid for and brings a new hash; it then stores one linked event, and otherwise leaves
   all rows but a first DID binding as they were.
   */
  lemma PublishOfRun(s: Settings, m: TrustModel, ops: seq<Op>, req: PublishRequest)
    ensures var t := RunOf(s, m, ops).db;
            var (t', r) := Published(t, s, m, req);
            var verified := VerifyPayload(req);
            && (r.Ok? <==> PassesGates(t, s, req, verified) && CanBePaid(t, s, req) && !HashStored(t, req.payloadHash))
            && t'.identities == BoundAfter(t, req, verified)
            && (r.Ok? ==> StoredBy(t, t', s, req))
            && (r.Ok? ==> (t'.trust != t.trust <==> IsEvidence(t, s, m, req)))
            && (r.Err? ==> t' == t.(identities := t'.identities, nextId := t'.nextId))
  {
    var t := RunOf(s, m, ops).db;
    EveryRunIsOk(s, m, ops);
    FreshIdIsUnused(s, t);
    PublishSucceedsExactly(t, s, m, req);
    if Published(t, s, m, req).1.Ok? {
      PublishStores(t, s, m, req);
      PublishRecordsExactly(t, s, m, req);
    }
  }

  lemma FreshIdIsUnused(s: Settings, t: Tables)
    requires EconomyOk(s, t)
    ensures t.nextId !in t.events && t.nextId !in t.escrows
  {
    assert EventEscrowOk(t.ledger, t.escrows, t.events, t.nextId);
  }

  // ---- events and identities ----

  /** In every run hashes are unique, bindings one-to-one, and signed events carry the bound DID. */
  lemma EventsOfRun(s: Settings, m: TrustModel, ops: seq<Op>)
    ensures EventsOk(RunOf(s, m, ops).db.events, RunOf(s, m, ops).db.identities)
    ensures IdentitiesOk(RunOf(s, m, ops).db.identities)
  {
    EveryRunIsOk(s, m, ops);
  }
}
