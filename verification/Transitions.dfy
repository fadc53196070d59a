/**
 The five-state register seen from outside: which state an event leads to, in terms of
 the stored rows, of runs, and, in time order, of the aged evidence.
 */
module Transitions {
  import opened Common
  import opened BetaScores
  import opened Membership
  import opened Database
  import opened TrustService
  import opened TrustHistory

  /** What a decision looks at. */
  datatype Facts = Facts(violations: int, mass: real, lower: real, honesty: real)

  /** The bar starts at promoteMinLower and rises by the penalty with every violation. */
  function RaisedBar(p: MembershipPolicy, violations: int): real {
    p.promoteMinLower + p.recoveryPenaltyPerViolation * violations as real
  }

  /** Audited, and its lower bound reaches the raised bar. */
  predicate Worthy(f: Facts, p: MembershipPolicy) {
    f.lower >= RaisedBar(p, f.violations) && f.honesty >= p.promoteMinHonesty
  }

  /** Too little evidence, or a score neither sanctioned nor worthy. */
  predicate Undecided(f: Facts, p: MembershipPolicy) {
    || f.mass < p.promoteMinObservations
    || (f.lower >= p.penalizeBelow && f.lower >= p.warnBelow && !Worthy(f, p))
  }

  /**
   The whole decision: excluded for good at the limit; unchanged while undecided; else
   penalized, warned or a member by the lower bound.
   */
  predicate Leads(p: MembershipPolicy, before: State, f: Facts, after: State) {
    && (after == Excluded <==> before == Excluded || f.violations >= p.excludeViolations)
    && (after != Excluded && Undecided(f, p) ==> after == before)
    && (after != Excluded && !Undecided(f, p) ==>
          && (after == Penalized <==> f.lower < p.penalizeBelow)
          && (after == Warned <==> p.penalizeBelow <= f.lower < p.warnBelow)
          && (after == Member <==> f.lower >= p.penalizeBelow && f.lower >= p.warnBelow && Worthy(f, p)))
  }

  // ---- one call ----

  /** The honesty mass after the event: its own axis, or the stored row decayed to now. */
  function HonestyAfter(t: TrustTables, e: TrustEvent, m: TrustModel): real {
    Observations(if e.criterion == HONESTY then ScoreAfter(t, e, m) else StandingAt(m, t, e.agent, HONESTY, e.ts))
  }

  function StateOf(t: TrustTables, a: Agent): State {
    if a in t.members then t.members[a].state else Provisional
  }

  /** On any tables, a recorded event leads where its facts lead. */
  lemma TransitionExactly(t: TrustTables, call: TrustCall, m: TrustModel)
    requires Recorded(t, call, m).1.Ok?
    ensures var e, t' := call.event, Recorded(t, call, m).0;
            var lower := LowerBound(m.maths, ScoreAfter(t, e, m));
            && lower.Some?
            && Leads(m.membership, StateOf(t, e.agent),
                     Facts(ViolationsOf(t, e.agent) + (if e.positive then 0 else 1),
                           Observations(ScoreAfter(t, e, m)), lower.value, HonestyAfter(t, e, m)),
                     StateOf(t', e.agent))
            && Recorded(t, call, m).1.value.state == StateOf(t', e.agent)
  {
    StepLeads(m, View(t, call.event.agent), call.event);
  }

  // ---- in time order ----

  /** The facts as sums over the agent's own events, each scaled by its own age. */
  ghost function AgedFacts(m: TrustModel, all: seq<TrustEvent>, c: string, now: Time): Facts
    requires LowerBound(m.maths, BatchScore(all, c, now, m)).Some?
  {
    Facts(Negatives(all), AgedEvidence(all, c, now, m), LowerBound(m.maths, BatchScore(all, c, now, m)).value,
          AgedEvidence(all, HONESTY, now, m))
  }

  /** For events in time order, the latest one leads where the aged sums lead. */
  lemma TransitionInTimeOrder(m: TrustModel, own: seq<TrustEvent>, e: TrustEvent)
    requires m.maths.Valid() && m.membership.excludeViolations >= 1
    requires NonDecreasing(own + [e]) && Replay(m, own + [e]).Ok?
    ensures LowerBound(m.maths, BatchScore(own + [e], e.criterion, e.ts, m)).Some?
    ensures Leads(m.membership, StateAfter(m, own), AgedFacts(m, own + [e], e.criterion, e.ts),
                  StateAfter(m, own + [e]))
  {
    var all := own + [e];
    assert all[..|all| - 1] == own;
    ReplaySnoc(m, own, e);
    StoredScoreIsBatch(m, all, e.criterion);
    RegisterOfHistory(m, all);
    var v := Replay(m, own).value;
    GateInTimeOrder(m, own, e, v);
    StepLeads(m, v, e);
  }

  lemma SameBar(p: MembershipPolicy, violations: int)
    ensures RaisedBar(p, violations) == RecoveryBar(violations, p)
  {
  }

  lemma RulesLead(p: MembershipPolicy, before: State, f: Facts, after: State)
    requires after == EvaluateTransition(before, f.lower, f.mass, f.violations, Some(f.honesty), p)
    ensures Leads(p, before, f, after)
  {
    SameBar(p, f.violations);
  }

  lemma StepLeads(m: TrustModel, v: AgentView, e: TrustEvent)
    requires Step(v, e, m).Ok?
    ensures var score := DecayedUpdatedScore(v.Score(e.criterion), e, m);
            var row := Step(v, e, m).value.member.value;
            && LowerBound(m.maths, score).Some?
            && Leads(m.membership, PriorState(v.member),
                     Facts(row.violations, Observations(score), LowerBound(m.maths, score).value,
                           HonestyMass(v.honesty, e, score, m)),
                     row.state)
  {
    var score := DecayedUpdatedScore(v.Score(e.criterion), e, m);
    var row := Step(v, e, m).value.member.value;
    var f := Facts(row.violations, Observations(score), LowerBound(m.maths, score).value,
                   HonestyMass(v.honesty, e, score, m));
    RulesLead(m.membership, PriorState(v.member), f, row.state);
  }

  /** The gate weighs the aged honesty events, none included. */
  lemma GateInTimeOrder(m: TrustModel, own: seq<TrustEvent>, e: TrustEvent, v: AgentView)
    requires m.maths.Valid() && NonDecreasing(own + [e])
    requires Replay(m, own) == Ok(v) && Step(v, e, m).Ok?
    ensures HonestyMass(v.honesty, e, DecayedUpdatedScore(v.Score(e.criterion), e, m), m)
         == AgedEvidence(own + [e], HONESTY, e.ts, m)
  {
    var all := own + [e];
    assert all[..|all| - 1] == own;
    if e.criterion == HONESTY {
      ReplaySnoc(m, own, e);
      StoredScoreIsBatch(m, all, HONESTY);
    } else if v.honesty.Some? {
      GateIsAged(m, own, e, v);
    } else {
      NoHonestyInOrder(m, own, e);
    }
  }

  lemma NoHonestyInOrder(m: TrustModel, own: seq<TrustEvent>, e: TrustEvent)
    requires m.maths.Valid() && NonDecreasing(own + [e]) && e.criterion != HONESTY
    requires Replay(m, own).Ok? && Replay(m, own).value.honesty.None?
    ensures AgedEvidence(own + [e], HONESTY, e.ts, m) == 0.0
  {
    FrontInOrder(own, e);
    StoredScoreIsBatch(m, own, HONESTY);
    NoneAdded(own, e);
    NoMassWithoutEvents(own + [e], HONESTY, true, e.ts, m);
    NoMassWithoutEvents(own + [e], HONESTY, false, e.ts, m);
  }

  lemma FrontInOrder(own: seq<TrustEvent>, e: TrustEvent)
    requires NonDecreasing(own + [e])
    ensures NonDecreasing(own)
  {
    assert forall i :: 0 <= i < |own| ==> own[i] == (own + [e])[i];
  }

  lemma NoneAdded(own: seq<TrustEvent>, e: TrustEvent)
    requires e.criterion != HONESTY
    ensures LastOn(own + [e], HONESTY) == LastOn(own, HONESTY)
  {
    assert (own + [e])[..|own|] == own;
  }

  /** In every run, before and after any recorded call whose agent's events come in time order. */
  lemma TransitionOfRun(m: TrustModel, calls: seq<TrustCall>, call: TrustCall)
    requires m.maths.Valid() && m.membership.excludeViolations >= 1
    requires Recorded(Run(m, calls), call, m).1.Ok?
    requires NonDecreasing(Own(Recorded(Run(m, calls), call, m).0.log, call.event.agent))
    ensures var t, e := Run(m, calls), call.event;
            var t' := Recorded(t, call, m).0;
            var all := Own(t'.log, e.agent);
            && LowerBound(m.maths, BatchScore(all, e.criterion, e.ts, m)).Some?
            && Leads(m.membership, StateOf(t, e.agent), AgedFacts(m, all, e.criterion, e.ts), StateOf(t', e.agent))
  {
    var t, e := Run(m, calls), call.event;
    RunIsExplained(m, calls);
    RecordKeepsExplanation(m, t, call);
    RecordedIsLocal(t, call, m, e.agent);
    OwnSnoc(t.log, e, e.agent);
    var own, t' := Own(t.log, e.agent), Recorded(t, call, m).0;
    assert Replay(m, own) == Ok(View(t, e.agent)) && Replay(m, Own(t'.log, e.agent)) == Ok(View(t', e.agent));
    TransitionInTimeOrder(m, own, e);
  }

  // ---- half-lives ----

  /** Each axis has its own half-life, in days of 24 hours: after it, half the evidence is left. */
  lemma HalfLeftAfterHalfLife(m: TrustModel, row: ScoreRow, c: string, later: Time)
    requires m.maths.Valid() && KnownCriterion(c) && later >= row.lastUpdate
    requires (later - row.lastUpdate) as real
          == (if c == "honesty" then m.ledger.honestyHalfLifeDays else m.ledger.reliabilityHalfLifeDays)
             * (24 * 60 * 60 * 1_000_000) as real
    ensures Observations(DecayedTo(row, c, later, m)) == Observations(row.score) * 0.5
  {
    var h: real := m.ledger.HalfLifeFor(c);
    DaysOf(later - row.lastUpdate, h);
    DecayIsScaling(m.maths, row.score, ElapsedDays(later, row.lastUpdate), m.ledger.HalfLifeFor(c));
  }

  lemma DaysOf(micros: int, days: real)
    requires days > 0.0 && micros as real == days * MICROS_PER_DAY as real
    ensures micros as real / MICROS_PER_DAY as real == days && days / days == 1.0
  {
  }
}
