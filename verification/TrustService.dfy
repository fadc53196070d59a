/**
 app/trust/service.py and app/storage/trust.py: recording one piece of trust evidence.
 Decay to now, update asymmetrically, move the membership state, store, in one
 transaction.
 */
module TrustService {
  import opened Common
  import opened BetaScores
  import opened Membership
  import opened Database

  /** The numeric functions and policies that all calls of a run share. */
  datatype TrustModel = TrustModel(maths: Maths, ledger: LedgerPolicy, membership: MembershipPolicy)

  /**
   NaiveTimestamp: Python refuses to subtract a stored, aware time from a naive one.
   ArithmeticFailure: lower_bound raised. InvalidCriterion: the table's CHECK refused.
   */
  datatype TrustError = NaiveTimestamp | ArithmeticFailure | InvalidCriterion

  /** One call of the service: the event to record, and whether the caller's time has an offset. */
  datatype TrustCall = TrustCall(event: TrustEvent, aware: bool)

  datatype TrustUpdate = TrustUpdate(agent: Agent, criterion: string, score: BetaScore, state: State, violations: int)

  /** `max(0, (ts - last) / one day)`. */
  function ElapsedDays(ts: Time, last: Time): (d: real)
    ensures d >= 0.0
  {
    if ts <= last then 0.0 else (ts - last) as real / MICROS_PER_DAY as real
  }

  /** A stored score seen at time `ts`. */
  function DecayedTo(row: ScoreRow, criterion: string, ts: Time, m: TrustModel): BetaScore {
    Decay(m.maths, row.score, ElapsedDays(ts, row.lastUpdate), m.ledger.HalfLifeFor(criterion))
  }

  function DecayedUpdatedScore(row: Option<ScoreRow>, e: TrustEvent, m: TrustModel): BetaScore {
    var score := if row.None? then COLD_START_PRIOR else DecayedTo(row.value, e.criterion, e.ts, m);
    Update(score, e.positive, e.weight, m.ledger)
  }

  /** The evidence mass the promotion gate sees: all honesty evidence, decayed to now. */
  function HonestyMass(honesty: Option<ScoreRow>, e: TrustEvent, current: BetaScore, m: TrustModel): real {
    if e.criterion == HONESTY then Observations(current)
    else if honesty.None? then 0.0
    else Observations(DecayedTo(honesty.value, HONESTY, e.ts, m))
  }

  // ---- one agent's rows ----

  /** Everything the three tables hold about one agent, apart from the log. */
  datatype AgentView = AgentView(
    reliability: Option<ScoreRow>, honesty: Option<ScoreRow>, member: Option<MembershipRow>)
  {
    function Score(criterion: string): Option<ScoreRow> {
      if criterion == HONESTY then honesty else if criterion == RELIABILITY then reliability else None
    }
  }

  const NEWCOMER: AgentView := AgentView(None, None, None)

  function Lookup<K, V>(t: map<K, V>, k: K): Option<V> {
    if k in t then Some(t[k]) else None
  }

  function View(t: TrustTables, a: Agent): AgentView {
    AgentView(Lookup(t.scores, (a, RELIABILITY)), Lookup(t.scores, (a, HONESTY)), Lookup(t.members, a))
  }

  function PriorState(member: Option<MembershipRow>): State {
    if member.None? then Provisional else member.value.state
  }

  /** The register row after an event that moves the agent to `state`. */
  function NextRow(member: Option<MembershipRow>, e: TrustEvent, state: State): MembershipRow {
    var before := if member.None? then MembershipRow(Provisional, 0, e.ts, e.ts) else member.value;
    MembershipRow(
      state,
      before.violations + (if e.positive then 0 else 1),
      before.joinedAt,
      if state != before.state then e.ts else before.stateChangedAt)
  }

  /** One event applied to one agent's rows; an error when the call raises. */
  function Step(v: AgentView, e: TrustEvent, m: TrustModel): Result<AgentView, TrustError> {
    var score := DecayedUpdatedScore(v.Score(e.criterion), e, m);
    var lower := LowerBound(m.maths, score);
    if lower.None? then Err(ArithmeticFailure)
    else if e.criterion != HONESTY && e.criterion != RELIABILITY then Err(InvalidCriterion)
    else
      var violations := (if v.member.None? then 0 else v.member.value.violations) + (if e.positive then 0 else 1);
      var state := EvaluateTransition(
        PriorState(v.member), lower.value, Observations(score), violations,
        Some(HonestyMass(v.honesty, e, score, m)), m.membership);
      var row := Some(ScoreRow(score, e.ts));
      var member := Some(NextRow(v.member, e, state));
      Ok(if e.criterion == HONESTY then AgentView(v.reliability, row, member)
         else AgentView(row, v.honesty, member))
  }

  /** The tables after storing an agent's new rows and logging the event. */
  function Stored(t: TrustTables, e: TrustEvent, v: AgentView): TrustTables
    requires v.Score(e.criterion).Some? && v.member.Some?
  {
    TrustTables(
      t.scores[(e.agent, e.criterion) := v.Score(e.criterion).value],
      t.members[e.agent := v.member.value],
      t.log + [e])
  }

  predicate KnownCriterion(c: string) {
    c == HONESTY || c == RELIABILITY
  }

  /** An agent's score on an axis, decayed to `now`; the prior for a stranger. */
  function StandingAt(m: TrustModel, t: TrustTables, a: Agent, c: string, now: Time): BetaScore {
    var row := View(t, a).Score(c);
    if row.None? then COLD_START_PRIOR else DecayedTo(row.value, c, now, m)
  }

  function ViolationsOf(t: TrustTables, a: Agent): int {
    if a in t.members then t.members[a].violations else 0
  }

  /** Recording must age a stored row: the axis's own, or the honesty row behind the gate. */
  predicate AgesARow(v: AgentView, criterion: string) {
    v.Score(criterion).Some? || (criterion != HONESTY && v.honesty.Some?)
  }

  /** record_trust_event on the trust tables. */
  function Recorded(t: TrustTables, call: TrustCall, m: TrustModel)
    : (TrustTables, Result<TrustUpdate, TrustError>)
  {
    var e, v := call.event, View(t, call.event.agent);
    if !call.aware && AgesARow(v, e.criterion) then (t, Err(NaiveTimestamp))
    else
      match Step(v, e, m)
      case Err(error) => (t, Err(error))
      case Ok(v') =>
        (Stored(t, e, v'),
         Ok(TrustUpdate(e.agent, e.criterion, v'.Score(e.criterion).value.score,
                        v'.member.value.state, v'.member.value.violations)))
  }

  // ---- storage helpers ----

  method UpsertTrustScore(conn: Connection, agent: Agent, criterion: string, score: BetaScore, ts: Time)
    returns (r: Result<(), TrustError>)
    modifies conn
    ensures conn.saved == old(conn.saved)
    ensures r.Ok? <==> criterion == HONESTY || criterion == RELIABILITY
    ensures r.Err? ==> r.error == InvalidCriterion && conn.db == old(conn.db)
    ensures r.Ok? ==> conn.db == old(conn.db).(trust :=
              old(conn.db).trust.(scores := old(conn.db).trust.scores[(agent, criterion) := ScoreRow(score, ts)]))
  {
    if criterion != HONESTY && criterion != RELIABILITY {
      return Err(InvalidCriterion);
    }
    var t := conn.db.trust;
    conn.db := conn.db.(trust := t.(scores := t.scores[(agent, criterion) := ScoreRow(score, ts)]));
    r := Ok(());
  }

  method AppendTrustEvent(conn: Connection, e: TrustEvent)
    modifies conn
    ensures conn.saved == old(conn.saved)
    ensures conn.db == old(conn.db).(trust := old(conn.db).trust.(log := old(conn.db).trust.log + [e]))
  {
    conn.db := conn.db.(trust := conn.db.trust.(log := conn.db.trust.log + [e]));
  }

  /** ON CONFLICT keeps the joined_at of an existing row. */
  method UpsertMembership(conn: Connection, agent: Agent, row: MembershipRow)
    modifies conn
    ensures conn.saved == old(conn.saved)
    ensures var t := old(conn.db).trust;
            var joined := if agent in t.members then t.members[agent].joinedAt else row.joinedAt;
            conn.db == old(conn.db).(trust := t.(members := t.members[agent := row.(joinedAt := joined)]))
  {
    var t := conn.db.trust;
    var joined := if agent in t.members then t.members[agent].joinedAt else row.joinedAt;
    conn.db := conn.db.(trust := t.(members := t.members[agent := row.(joinedAt := joined)]));
  }

  // ---- the service ----

  /** app/trust/service.py:125-210. A raised error rolls everything back. */
  method RecordTrustEvent(conn: Connection, call: TrustCall, m: TrustModel) returns (r: Result<TrustUpdate, TrustError>)
    requires conn.saved.None?
    modifies conn
    ensures (conn.db.trust, r) == Recorded(old(conn.db.trust), call, m)
    ensures conn.db == old(conn.db).(trust := conn.db.trust) && conn.saved.None?
  {
    conn.Begin();
    var t, e := conn.db.trust, call.event;
    var member := Lookup(t.members, e.agent);
    var joinedAt := if member.None? then e.ts else member.value.joinedAt;
    var prevState := PriorState(member);
    var violations := if member.None? then 0 else member.value.violations;

    var row := View(t, e.agent).Score(e.criterion);
    if row.Some? && !call.aware {
      conn.Rollback();
      return Err(NaiveTimestamp);
    }
    var score := DecayedUpdatedScore(row, e, m);
    if !e.positive {
      violations := violations + 1;
    }
    var honesty := Lookup(t.scores, (e.agent, HONESTY));
    if e.criterion != HONESTY && honesty.Some? && !call.aware {
      conn.Rollback();
      return Err(NaiveTimestamp);
    }
    var honestyMass := HonestyMass(honesty, e, score, m);
    var lower := LowerBound(m.maths, score);
    if lower.None? {
      conn.Rollback();
      return Err(ArithmeticFailure);
    }
    var newState := EvaluateTransition(
      prevState, lower.value, Observations(score), violations, Some(honestyMass), m.membership);

    var upserted := UpsertTrustScore(conn, e.agent, e.criterion, score, e.ts);
    if upserted.Err? {
      conn.Rollback();
      return Err(upserted.error);
    }
    AppendTrustEvent(conn, e);
    var stateChangedAt := joinedAt;
    if newState != prevState {
      stateChangedAt := e.ts;
    } else if member.Some? {
      stateChangedAt := member.value.stateChangedAt;
    }
    UpsertMembership(conn, e.agent, MembershipRow(newState, violations, joinedAt, stateChangedAt));
    conn.Commit();
    r := Ok(TrustUpdate(e.agent, e.criterion, score, newState, violations));
  }

  /** The call must subtract a stored time from one without an offset. */
  predicate MixesClocks(t: TrustTables, call: TrustCall) {
    !call.aware && AgesARow(View(t, call.event.agent), call.event.criterion)
  }

  /** The score the call would store. */
  function ScoreAfter(t: TrustTables, e: TrustEvent, m: TrustModel): BetaScore {
    Update(StandingAt(m, t, e.agent, e.criterion, e.ts), e.positive, e.weight, m.ledger)
  }

  /** Recording an event of a known axis would raise. */
  predicate Unrecordable(t: TrustTables, m: TrustModel, e: TrustEvent, aware: bool) {
    MixesClocks(t, TrustCall(e, aware)) || NoLowerBound(ScoreAfter(t, e, m))
  }

  /**
   Whatever the tables and the weight, which error a call raises, exactly: first the
   clocks, then the arithmetic, then the table's criteria. Otherwise it is recorded.
   */
  lemma RecordFailsExactly(t: TrustTables, call: TrustCall, m: TrustModel)
    ensures var (t', r) := Recorded(t, call, m);
            var after := ScoreAfter(t, call.event, m);
            && (r == Err(NaiveTimestamp) <==> MixesClocks(t, call))
            && (r == Err(ArithmeticFailure) <==> !MixesClocks(t, call) && NoLowerBound(after))
            && (r == Err(InvalidCriterion) <==>
                  !MixesClocks(t, call) && !NoLowerBound(after) && !KnownCriterion(call.event.criterion))
            && (r.Ok? ==> r.value.score == after && t'.log == t.log + [call.event])
            && (r.Err? ==> t' == t)
  {
    LowerBoundExactly(m.maths, ScoreAfter(t, call.event, m));
  }

  /** A recorded event changes its own agent's rows by one step and nobody else's. */
  lemma RecordedIsLocal(t: TrustTables, call: TrustCall, m: TrustModel, a: Agent)
    ensures var (t', r) := Recorded(t, call, m);
            && (r.Err? ==> t' == t)
            && (r.Ok? ==> t'.log == t.log + [call.event])
            && (r.Ok? && a == call.event.agent ==> Step(View(t, a), call.event, m) == Ok(View(t', a)))
            && (a != call.event.agent ==> View(t', a) == View(t, a))
  {
  }
}
