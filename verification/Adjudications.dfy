/**
 Refund claims over whole runs: every verdict is the one an adjudicator was called with,
 however many steps lie between its reading the claim and its deciding it.
 */
module Adjudications {
  import opened Common
  import OrderedSets
  import opened Database
  import opened Config
  import opened CreditsLedger
  import opened Payout
  import opened Invoices
  import opened RefundPool
  import opened Charging
  import opened TrustService
  import opened Corroboration
  import opened Publishing
  import opened EconomySteps
  import opened Outcomes
  import opened Economy

  /** A pending claim brings one more adjudicator, who holds the verdict; nothing else happens. */
  lemma BegunExactly(s: Settings, m: TrustModel, w: World, c: Id, justified: bool)
    ensures var w' := Apply(s, m, w, BeginAdjudication(c, justified));
            && w'.db == w.db
            && w'.waiting == w.waiting
                 + (if StillFiled(w.db, c)
                    then [Adjudication(c, w.db.claims[c].claimant, w.db.claims[c].invoiceId, justified)] else [])
  {
  }

  /** Who decides leaves the queue, and the claim as its verdict says. */
  lemma FinishedExactly(s: Settings, m: TrustModel, w: World, which: nat, now: Time)
    requires WorldOk(s, w) && which < |w.waiting|
    ensures var w' := Apply(s, m, w, FinishAdjudication(which, now));
            && Judged(w.db, w'.db, s, w.waiting[which].claimId, w.waiting[which].justified, now)
            && w'.waiting == w.waiting[..which] + w.waiting[which + 1..]
  {
    DecisionExactly(w.db, s, w.waiting[which], now);
  }

  /** Read and decided at once, a claim gets the verdict of the call. */
  lemma DecidedAtOnce(s: Settings, m: TrustModel, w: World, c: Id, justified: bool, now: Time)
    requires WorldOk(s, w) && StillFiled(w.db, c)
    ensures var begun := Apply(s, m, w, BeginAdjudication(c, justified));
            var w' := Apply(s, m, begun, FinishAdjudication(|w.waiting|, now));
            Judged(w.db, w'.db, s, c, justified, now) && w'.waiting == w.waiting
  {
    var begun := Apply(s, m, w, BeginAdjudication(c, justified));
    BegunExactly(s, m, w, c, justified);
    StepIsOk(s, m, w, BeginAdjudication(c, justified));
    FinishedExactly(s, m, begun, |w.waiting|, now);
  }

  // ---- every verdict was called for ----

  /** Waiting and decided verdicts all come from calls among `ops`. */
  ghost predicate Called(w: World, ops: seq<Op>) {
    && (forall k :: 0 <= k < |w.waiting| ==>
          BeginAdjudication(w.waiting[k].claimId, w.waiting[k].justified) in ops)
    && (forall c :: c in w.db.claims && w.db.claims[c].status == Approved ==> BeginAdjudication(c, true) in ops)
    && (forall c :: c in w.db.claims && w.db.claims[c].status == Denied ==> BeginAdjudication(c, false) in ops)
  }

  /**
   In every run an approved claim was adjudicated as justified and a denied one as not,
   and every waiting adjudicator holds the verdict of its own call.
   */
  lemma {:induction false} VerdictsOfRun(s: Settings, m: TrustModel, ops: seq<Op>)
    ensures Called(RunOf(s, m, ops), ops)
    decreases |ops|
  {
    if ops != [] {
      var front, op := ops[..|ops| - 1], ops[|ops| - 1];
      VerdictsOfRun(s, m, front);
      EveryRunIsOk(s, m, front);
      assert forall o :: o in front ==> o in ops;
      CalledStep(s, m, RunOf(s, m, front), op, front, ops);
    }
  }

  lemma CalledStep(s: Settings, m: TrustModel, w: World, op: Op, front: seq<Op>, ops: seq<Op>)
    requires WorldOk(s, w) && Called(w, front) && ops == front + [op]
    ensures Called(Apply(s, m, w, op), ops)
  {
    if op.BeginAdjudication? {
      BegunExactly(s, m, w, op.claimId, op.justified);
      CalledByBegin(w, op, Apply(s, m, w, op), front, ops);
    } else if op.FinishAdjudication? && op.which < |w.waiting| {
      FinishedExactly(s, m, w, op.which, op.now);
      CalledByFinish(s, w, op, Apply(s, m, w, op), front, ops);
    } else {
      DecidesNothing(s, m, w, op);
      StillCalled(w, Apply(s, m, w, op), front, ops);
    }
  }

  lemma CalledByBegin(w: World, op: Op, w': World, front: seq<Op>, ops: seq<Op>)
    requires Called(w, front) && ops == front + [op] && op.BeginAdjudication? && w'.db == w.db
    requires w'.waiting == w.waiting
               + (if StillFiled(w.db, op.claimId)
                  then [Adjudication(op.claimId, w.db.claims[op.claimId].claimant,
                                     w.db.claims[op.claimId].invoiceId, op.justified)] else [])
    ensures Called(w', ops)
  {
  }

  lemma CalledByFinish(s: Settings, w: World, op: Op, w': World, front: seq<Op>, ops: seq<Op>)
    requires Called(w, front) && ops == front + [op] && op.FinishAdjudication? && op.which < |w.waiting|
    requires Judged(w.db, w'.db, s, w.waiting[op.which].claimId, w.waiting[op.which].justified, op.now)
    requires w'.waiting == w.waiting[..op.which] + w.waiting[op.which + 1..]
    ensures Called(w', ops)
  {
    assert BeginAdjudication(w.waiting[op.which].claimId, w.waiting[op.which].justified) in ops;
  }

  /** Decided claims of `t'` were decided in `t` already. */
  predicate NoneDecided(t: Tables, t': Tables) {
    forall c :: c in t'.claims && t'.claims[c].status != Filed ==> c in t.claims && t.claims[c] == t'.claims[c]
  }

  lemma StillCalled(w: World, w': World, front: seq<Op>, ops: seq<Op>)
    requires Called(w, front) && front <= ops && w'.waiting == w.waiting && NoneDecided(w.db, w'.db)
    ensures Called(w', ops)
  {
    assert forall o :: o in front ==> o in ops;
  }

  /** No other step decides a claim. */
  lemma DecidesNothing(s: Settings, m: TrustModel, w: World, op: Op)
    requires !op.BeginAdjudication? && (op.FinishAdjudication? ==> op.which >= |w.waiting|)
    ensures Apply(s, m, w, op).waiting == w.waiting && NoneDecided(w.db, Apply(s, m, w, op).db)
  {
    match op
    case Publish(req) =>
      PublishLeavesClaims(w.db, s, req, VerifyPayload(req),
                          Recorded(w.db.trust, SettledEvidence(req, w.db.nextId), m).0);
    case ChargeQuery(querier, query, subject, now) => ChargeLeavesClaims(w.db, s, querier, query, subject, now);
    case ReleaseCited(cited, settled, now) => ReleaseLeavesClaims(w.db, s, OrderedSets.Dedup(cited), settled, now);
    case Contradict(d, c, weight, now) => ContradictionLeavesClaims(w.db, m, d, c, weight, now);
    case Corroborate(o, c, weight, now) => CorroborationLeavesClaims(w.db, m, o, c, weight, now);
    case _ =>
  }

  lemma PublishLeavesClaims(t: Tables, s: Settings, req: PublishRequest, verified: bool, evidence: TrustTables)
    ensures PublishedIf(t, s, req, verified, evidence).0.claims == t.claims
  {
    GatesOutcome(t, s, req, verified);
    TxLeavesTrust(s, Drawn(GatedIf(t, s, req, verified).0), req, t.nextId);
  }

  lemma ChargeLeavesClaims(t: Tables, s: Settings, querier: Option<Agent>, query: string,
                           subject: Option<Agent>, now: Time)
    ensures Charge(t, s, querier, query, subject, now).0.claims == t.claims
  {
    ChargeOutcome(t, s, querier, query, subject, now);
    if Charge(t, s, querier, query, subject, now).1.Charged? {
      ChargedExactly(t, s, querier, query, subject, now);
    }
  }

  lemma ContradictionLeavesClaims(t: Tables, m: TrustModel, d: Id, c: Id, weight: real, now: Stamp)
    ensures Contradicted(t, m, d, c, weight, now).0.claims == t.claims
  {
    if ProperPair(t, d, c) {
      var call := ContradictionCall(t, d, weight, now);
      VerdictLeavesClaims(Forfeited(t, d), t.events[d].sourceAgent, OpenEscrowOf(t, d),
                          Recorded(Forfeited(t, d).trust, call, m));
    }
  }

  lemma VerdictLeavesClaims(t: Tables, seller: Agent, revoked: bool,
                            recorded: (TrustTables, Result<TrustUpdate, TrustError>))
    ensures AfterVerdict(t, seller, revoked, recorded).0.claims == t.claims
  {
  }

  lemma CorroborationLeavesClaims(t: Tables, m: TrustModel, o: Id, c: Id, weight: real, now: Stamp)
    ensures Corroborated(t, m, o, c, weight, now).0.claims == t.claims
  {
  }

  lemma ReleasedOneLeavesClaims(t: Tables, s: Settings, e: Id, invoiceId: Option<Id>, now: Time)
    ensures ReleasedOne(t, s, e, invoiceId, now).0.claims == t.claims
  {
  }

  lemma {:induction false} ReleaseLeavesClaims(t: Tables, s: Settings, ids: seq<Id>, invoiceId: Option<Id>, now: Time)
    ensures ReleasedEach(t, s, ids, invoiceId, now).0.claims == t.claims
    decreases |ids|
  {
    if ids != [] {
      var front, last := ids[..|ids| - 1], ids[|ids| - 1];
      ReleaseLeavesClaims(t, s, front, invoiceId, now);
      ReleasedOneLeavesClaims(ReleasedEach(t, s, front, invoiceId, now).0, s, last, invoiceId, now);
      EachSnoc(t, s, front, last, invoiceId, now);
      assert front + [last] == ids;
    }
  }
}
