/**
 Trust and identities over whole runs of the village: whatever happens in between, the
 trust tables follow their log, and every bound DID names one key of one agent.
 */
module VillageTrust {
  import opened Common
  import opened Database
  import opened Config
  import opened BetaScores
  import opened CreditsLedger
  import opened OrderedSets
  import opened Payout
  import opened RefundPool
  import opened Charging
  import opened TrustService
  import opened TrustHistory
  import opened Corroboration
  import opened Publishing
  import opened EconomyInvariants
  import opened EconomySteps
  import opened Outcomes
  import opened Economy
  import DidKey

  /** `did` names a 32-byte key. */
  predicate Readable(did: string) {
    DidKey.PublicKeyFromDid(did).Ok?
  }

  ghost predicate DidsOk(identities: map<Agent, string>) {
    forall a :: a in identities ==> Readable(identities[a])
  }

  ghost predicate TrustOk(m: TrustModel, t: Tables) {
    LogExplains(m, t.trust) && DidsOk(t.identities)
  }

  // ---- one step ----

  predicate SameVillagers(t: Tables, t': Tables) {
    t'.trust == t.trust && t'.identities == t.identities
  }

  lemma OneOnlyMoney(t: Tables, s: Settings, id: Id, invoiceId: Option<Id>, now: Time)
    ensures SameVillagers(t, ReleasedOne(t, s, id, invoiceId, now).0)
  {
  }

  /** A release touches neither trust nor identities, whatever its outcome. */
  lemma {:induction false} EachOnlyMoney(t: Tables, s: Settings, ids: seq<Id>, invoiceId: Option<Id>, now: Time)
    ensures SameVillagers(t, ReleasedEach(t, s, ids, invoiceId, now).0)
    decreases |ids|
  {
    if ids != [] {
      var front := ids[..|ids| - 1];
      EachOnlyMoney(t, s, front, invoiceId, now);
      OneOnlyMoney(ReleasedEach(t, s, front, invoiceId, now).0, s, ids[|ids| - 1], invoiceId, now);
    }
  }

  lemma ChargeOnlyMoney(t: Tables, s: Settings, querier: Option<Agent>, query: string,
                        subject: Option<Agent>, now: Time)
    ensures SameVillagers(t, Charge(t, s, querier, query, subject, now).0)
  {
    if Truthy(querier) {
      var issued := InvoiceIssued(t, s, query, subject, now);
      SettlementOnlyMoney(issued, s, t.nextId, SettlementOf(issued, s, querier.value, t.nextId, now));
    }
  }

  lemma SettlementOnlyMoney(issued: Tables, s: Settings, i: Id, settlement: (Tables, Result<Id, LedgerError>))
    requires SameVillagers(issued, settlement.0)
    ensures SameVillagers(issued, AfterSettlement(issued, s, i, settlement).0)
  {
  }

  lemma DecisionOnlyMoney(t: Tables, s: Settings, adj: Adjudication, now: Time)
    ensures SameVillagers(t, Decided(t, s, adj, now).0)
  {
  }

  lemma PublishFrame(t: Tables, s: Settings, req: PublishRequest, verified: bool, evidence: TrustTables)
    ensures var t' := PublishedIf(t, s, req, verified, evidence).0;
            && t'.identities == BoundAfter(t, req, verified)
            && (t'.trust == t.trust || t'.trust == evidence)
  {
    GatesOutcome(t, s, req, verified);
    var g := GatedIf(t, s, req, verified).0;
    TxLeavesTrust(s, Drawn(g), req, g.nextId);
  }

  lemma PublishKeepsTrust(s: Settings, m: TrustModel, t: Tables, req: PublishRequest)
    requires TrustOk(m, t)
    ensures TrustOk(m, Published(t, s, m, req).0)
  {
    var e := SettledEvidence(req, t.nextId);
    RecordKeepsExplanation(m, t.trust, e);
    var verified := VerifyPayload(req);
    PublishFrame(t, s, req, verified, Recorded(t.trust, e, m).0);
    BindingKeepsDids(t, req, verified);
  }

  lemma BindingKeepsDids(t: Tables, req: PublishRequest, verified: bool)
    requires DidsOk(t.identities) && (verified ==> req.sellerDid.Some? && Readable(req.sellerDid.value))
    ensures DidsOk(BoundAfter(t, req, verified))
  {
  }

  lemma ContradictionKeepsTrust(m: TrustModel, t: Tables, d: Id, c: Id, weight: real, now: Stamp)
    requires TrustOk(m, t)
    ensures TrustOk(m, Contradicted(t, m, d, c, weight, now).0)
  {
    if d in t.events {
      var e := TrustVerdict(t.events[d].sourceAgent, false, weight, "grounding_contradiction", d, now);
      RecordKeepsExplanation(m, Forfeited(t, d).trust, e);
    }
  }

  lemma CorroborationKeepsTrust(m: TrustModel, t: Tables, o: Id, c: Id, weight: real, now: Stamp)
    requires TrustOk(m, t)
    ensures TrustOk(m, Corroborated(t, m, o, c, weight, now).0)
  {
    if o in t.events {
      RecordKeepsExplanation(m, t.trust, TrustVerdict(t.events[o].sourceAgent, true, weight, "corroborated", o, now));
    }
  }

  lemma TrustStep(s: Settings, m: TrustModel, w: World, op: Op, after: Tables)
    requires TrustOk(m, w.db) && after == Apply(s, m, w, op).db
    ensures TrustOk(m, after)
  {
    match op
    case Publish(req) => PublishKeepsTrust(s, m, w.db, req);
    case ChargeQuery(querier, query, subject, now) => ChargeOnlyMoney(w.db, s, querier, query, subject, now);
    case ReleaseCited(cited, settled, now) => EachOnlyMoney(w.db, s, Dedup(cited), settled, now);
    case FinishAdjudication(which, now) =>
      if which < |w.waiting| {
        DecisionOnlyMoney(w.db, s, w.waiting[which], now);
      }
    case Contradict(d, c, weight, now) => ContradictionKeepsTrust(m, w.db, d, c, weight, now);
    case Corroborate(o, c, weight, now) => CorroborationKeepsTrust(m, w.db, o, c, weight, now);
    case RecordEvidence(call) => RecordKeepsExplanation(m, w.db.trust, call);
    case _ =>
  }

  lemma {:induction false} TrustOfRun(s: Settings, m: TrustModel, ops: seq<Op>)
    ensures TrustOk(m, RunOf(s, m, ops).db)
    decreases |ops|
  {
    if ops == [] {
      RunIsExplained(m, []);
    } else {
      TrustOfRun(s, m, ops[..|ops| - 1]);
      TrustStep(s, m, RunOf(s, m, ops[..|ops| - 1]), ops[|ops| - 1], RunOf(s, m, ops).db);
    }
  }

  // ---- what follows for whole runs ----

  /**
   In every run of the village each agent's register row is what its own trust events
   make of it, however publishes, verdicts and failures interleave.
   */
  lemma RegisterOfVillage(s: Settings, m: TrustModel, ops: seq<Op>, a: Agent)
    requires m.membership.excludeViolations >= 1 && m.membership.promoteMinHonesty > 0.0
    ensures RegisterFollows(m, RunOf(s, m, ops).db.trust, a)
  {
    TrustOfRun(s, m, ops);
    RegisterExplained(m, RunOf(s, m, ops).db.trust, a);
  }

  /** In every run of the village with one agent's events in time order, its scores are the batch scores. */
  lemma ScoresOfVillage(s: Settings, m: TrustModel, ops: seq<Op>, a: Agent, c: string)
    requires m.maths.Valid() && KnownCriterion(c)
    requires NonDecreasing(Own(RunOf(s, m, ops).db.trust.log, a))
    ensures var t := RunOf(s, m, ops).db.trust;
            (a, c) in t.scores ==>
              t.scores[(a, c)].score == BatchScore(Own(t.log, a), c, t.scores[(a, c)].lastUpdate, m)
  {
    TrustOfRun(s, m, ops);
    ScoresExplained(m, RunOf(s, m, ops).db.trust, a, c);
  }

  /** No two agents are ever bound to the same public key, and each binding is the key's one name. */
  lemma OneAgentPerKey(s: Settings, m: TrustModel, ops: seq<Op>, a: Agent, b: Agent)
    requires var identities := RunOf(s, m, ops).db.identities;
             a in identities && b in identities
    ensures var identities := RunOf(s, m, ops).db.identities;
            var key, other := DidKey.PublicKeyFromDid(identities[a]), DidKey.PublicKeyFromDid(identities[b]);
            && key.Ok? && other.Ok? && |key.value| == 32
            && identities[a] == DidKey.DidFromPublicKey(key.value)
            && (key == other ==> a == b)
  {
    TrustOfRun(s, m, ops);
    EveryRunIsOk(s, m, ops);
    var identities := RunOf(s, m, ops).db.identities;
    assert Readable(identities[a]) && Readable(identities[b]);
    DidKey.AcceptedDidIsCanonical(identities[a]);
    DidKey.AcceptedDidIsCanonical(identities[b]);
  }

  /** Every stored signed event carries a DID that names its seller's one key. */
  lemma SignedEventsNameTheirSeller(s: Settings, m: TrustModel, ops: seq<Op>, e: Id)
    requires var db := RunOf(s, m, ops).db; e in db.events && Signed(db.events[e])
    ensures var db := RunOf(s, m, ops).db;
            var seller := db.events[e].sourceAgent;
            && seller in db.identities && db.events[e].sellerDid == Some(db.identities[seller])
            && DidKey.PublicKeyFromDid(db.events[e].sellerDid.value).Ok?
            && forall b :: b in db.identities && db.identities[b] == db.events[e].sellerDid.value ==> b == seller
  {
    TrustOfRun(s, m, ops);
    EveryRunIsOk(s, m, ops);
    var db := RunOf(s, m, ops).db;
    assert Readable(db.identities[db.events[e].sourceAgent]);
  }

  // ---- what evidence does to a standing ----

  /**
   In a history of non-negative weights, evidence of positive weight that is recorded strictly raises or
   lowers the agent's standing on its axis, by its sign; a negative one is one more violation.
   */
  lemma EvidenceMovesStanding(m: TrustModel, t: TrustTables, call: TrustCall)
    requires m.maths.Valid() && LogExplains(m, t) && KnownCriterion(call.event.criterion)
    requires NonNegativeWeights(Own(t.log, call.event.agent)) && call.event.weight > 0.0
    ensures var e, r := call.event, Recorded(t, call, m).1;
            var before := LowerBound(m.maths, StandingAt(m, t, e.agent, e.criterion, e.ts));
            && (r.Err? <==> MixesClocks(t, call))
            && (r.Ok? ==>
                  && (if e.positive then Below(before, LowerBound(m.maths, r.value.score))
                      else Below(LowerBound(m.maths, r.value.score), before))
                  && r.value.violations == ViolationsOf(t, e.agent) + (if e.positive then 0 else 1))
  {
    var e := call.event;
    CallFailsExactly(m, t, call);
    RecordFailsExactly(t, call, m);
    StandingIsAtLeastPrior(m, t, e.agent, e.criterion, e.ts);
    EvidenceMovesLowerBound(m.maths, StandingAt(m, t, e.agent, e.criterion, e.ts), e.positive, e.weight, m.ledger);
  }

  /**
   In every run, a contradiction whose time has an offset costs its seller honesty and a
   violation, and reports whether it closed an escrow.
   */
  lemma ContradictionCostsHonesty(s: Settings, m: TrustModel, ops: seq<Op>, d: Id, c: Id, weight: real, now: Stamp)
    requires m.maths.Valid() && weight > 0.0
    requires var t := RunOf(s, m, ops).db;
             && d != c && d in t.events && c in t.events
             && NonNegativeWeights(Own(t.trust.log, t.events[d].sourceAgent))
    ensures var t := RunOf(s, m, ops).db;
            var seller := t.events[d].sourceAgent;
            var r := Contradicted(t, m, d, c, weight, now).1;
            && (r.Err? <==> !now.aware && (seller, HONESTY) in t.trust.scores)
            && (r.Ok? ==>
                  && r.value.seller == seller
                  && Below(LowerBound(m.maths, r.value.trust.score),
                           LowerBound(m.maths, StandingAt(m, t.trust, seller, HONESTY, now.at)))
                  && r.value.trust.violations == ViolationsOf(t.trust, seller) + 1
                  && (r.value.escrowRevoked <==> d in t.escrows && t.escrows[d].status == Open))
  {
    TrustOfRun(s, m, ops);
    var t := RunOf(s, m, ops).db;
    var call := ContradictionCall(t, d, weight, now);
    EvidenceMovesStanding(m, t.trust, call);
    ContradictionReports(t, m, d, c, weight, now, Recorded(t.trust, call, m).1);
  }
}
