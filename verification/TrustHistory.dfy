/**
 Whole runs of the trust service: any interleaving of events for many agents, failed
 calls included, at any timestamps unless said otherwise.
 */
module TrustHistory {
  import opened Common
  import opened BetaScores
  import opened Membership
  import opened Database
  import opened TrustService

  const NO_TRUST: TrustTables := TrustTables(map[], map[], [])

  /** The tables after a sequence of calls, each of which may fail. */
  function Run(m: TrustModel, calls: seq<TrustCall>): TrustTables {
    if calls == [] then NO_TRUST
    else Recorded(Run(m, calls[..|calls| - 1]), calls[|calls| - 1], m).0
  }

  /** The log rows of one agent, in order. */
  function Own(log: seq<TrustEvent>, a: Agent): (r: seq<TrustEvent>)
    ensures forall e :: e in r <==> e in log && e.agent == a
  {
    if log == [] then []
    else
      var front, last := Own(log[..|log| - 1], a), log[|log| - 1];
      if last.agent == a then front + [last] else front
  }

  /** Replaying an agent's events from cold start; an error if some event could not be recorded. */
  function Replay(m: TrustModel, own: seq<TrustEvent>): Result<AgentView, TrustError> {
    if own == [] then Ok(NEWCOMER) else Continue(m, Replay(m, own[..|own| - 1]), own[|own| - 1])
  }

  function Continue(m: TrustModel, r: Result<AgentView, TrustError>, e: TrustEvent): Result<AgentView, TrustError> {
    if r.Err? then r else Step(r.value, e, m)
  }

  lemma OwnSnoc(log: seq<TrustEvent>, e: TrustEvent, a: Agent)
    ensures Own(log + [e], a) == if e.agent == a then Own(log, a) + [e] else Own(log, a)
  {
  }

  lemma ReplaySnoc(m: TrustModel, own: seq<TrustEvent>, e: TrustEvent)
    ensures Replay(m, own + [e]) == Continue(m, Replay(m, own), e)
  {
  }

  /** The scores and register row of every agent are the replay of that agent's own log rows. */
  ghost predicate LogExplains(m: TrustModel, t: TrustTables) {
    forall a: Agent :: Replay(m, Own(t.log, a)) == Ok(View(t, a))
  }

  lemma RecordKeepsExplanation(m: TrustModel, t: TrustTables, call: TrustCall)
    requires LogExplains(m, t)
    ensures LogExplains(m, Recorded(t, call, m).0)
  {
    var (t', r) := Recorded(t, call, m);
    forall a: Agent
      ensures Replay(m, Own(t'.log, a)) == Ok(View(t', a))
    {
      assert Replay(m, Own(t.log, a)) == Ok(View(t, a));
      RecordedIsLocal(t, call, m, a);
      if r.Ok? {
        OwnSnoc(t.log, call.event, a);
        ReplaySnoc(m, Own(t.log, a), call.event);
      }
    }
  }

  lemma {:induction false} RunIsExplained(m: TrustModel, calls: seq<TrustCall>)
    ensures LogExplains(m, Run(m, calls))
    decreases |calls|
  {
    if calls != [] {
      RunIsExplained(m, calls[..|calls| - 1]);
      RecordKeepsExplanation(m, Run(m, calls[..|calls| - 1]), calls[|calls| - 1]);
    } else {
      forall a: Agent
        ensures Replay(m, Own(NO_TRUST.log, a)) == Ok(View(NO_TRUST, a))
      {
      }
    }
  }

  // ---- the register ----

  function Negatives(own: seq<TrustEvent>): nat {
    if own == [] then 0
    else Negatives(own[..|own| - 1]) + if own[|own| - 1].positive then 0 else 1
  }

  /** The state after the given events; a stranger counts as provisional. */
  function StateAfter(m: TrustModel, own: seq<TrustEvent>): State {
    match Replay(m, own)
    case Ok(v) => PriorState(v.member)
    case Err(_) => Provisional
  }

  /** The time of the last event that changed the state, else the time of the first event. */
  function LastChange(m: TrustModel, own: seq<TrustEvent>): Time
    requires own != []
  {
    var front, last := own[..|own| - 1], own[|own| - 1];
    if StateAfter(m, own) != StateAfter(m, front) then last.ts
    else if front == [] then last.ts
    else LastChange(m, front)
  }

  /**
   The register row: violations count the negatives, joined_at is the first event's time,
   state_changed_at the time of the last change, and the agent is excluded exactly when
   the negatives reach the policy's limit (four by default).
   */
  lemma {:induction false} RegisterOfHistory(m: TrustModel, own: seq<TrustEvent>)
    requires m.membership.excludeViolations >= 1
    requires own != [] && Replay(m, own).Ok?
    ensures var member := Replay(m, own).value.member;
            && member.Some?
            && member.value.violations == Negatives(own)
            && member.value.joinedAt == own[0].ts
            && member.value.stateChangedAt == LastChange(m, own)
            && (member.value.state == Excluded <==> Negatives(own) >= m.membership.excludeViolations)
    decreases |own|
  {
    var front := own[..|own| - 1];
    if front != [] {
      RegisterOfHistory(m, front);
    }
  }

  lemma {:induction false} NegativesGrow(own: seq<TrustEvent>, more: seq<TrustEvent>)
    ensures Negatives(own + more) >= Negatives(own)
    decreases |more|
  {
    if more == [] {
      assert own + more == own;
    } else {
      NegativesGrow(own, more[..|more| - 1]);
      assert (own + more)[..|own + more| - 1] == own + more[..|more| - 1];
    }
  }

  /** Exclusion is for ever: no later event brings an excluded agent back. */
  lemma ExclusionIsFinal(m: TrustModel, own: seq<TrustEvent>, more: seq<TrustEvent>)
    requires m.membership.excludeViolations >= 1
    requires Replay(m, own + more).Ok? && Replay(m, own).Ok?
    requires StateAfter(m, own) == Excluded
    ensures StateAfter(m, own + more) == Excluded
  {
    RegisterOfHistory(m, own);
    NegativesGrow(own, more);
    RegisterOfHistory(m, own + more);
  }

  // ---- promotion ----

  /** What the step that makes an agent a member has seen. */
  lemma PromotionNeedsEvidence(v: AgentView, e: TrustEvent, m: TrustModel)
    requires Step(v, e, m).Ok?
    requires PriorState(v.member) != Member && Step(v, e, m).value.member.value.state == Member
    ensures var score := DecayedUpdatedScore(v.Score(e.criterion), e, m);
            && HonestyMass(v.honesty, e, score, m) >= m.membership.promoteMinHonesty
            && Observations(score) >= m.membership.promoteMinObservations
            && LowerBound(m.maths, score).Some?
            && LowerBound(m.maths, score).value
               >= RecoveryBar(Step(v, e, m).value.member.value.violations, m.membership)
            && Step(v, e, m).value.member.value.violations < m.membership.excludeViolations
  {
  }

  /** Without a single honesty event there is no honesty row and no membership, in any run. */
  lemma {:induction false} NoHonestyNoMember(m: TrustModel, own: seq<TrustEvent>)
    requires m.membership.promoteMinHonesty > 0.0
    requires Replay(m, own).Ok? && forall e :: e in own ==> e.criterion != HONESTY
    ensures Replay(m, own).value.honesty == None && StateAfter(m, own) != Member
    decreases |own|
  {
    if own != [] {
      var front, last := own[..|own| - 1], own[|own| - 1];
      NoHonestyNoMember(m, front);
      assert last in own;
    }
  }

  // ---- scores ----

  /** The latest event on an axis fixes the row's timestamp. */
  function LastOn(own: seq<TrustEvent>, c: string): Option<Time> {
    if own == [] then None
    else if own[|own| - 1].criterion == c then Some(own[|own| - 1].ts)
    else LastOn(own[..|own| - 1], c)
  }

  /** Undecayed mass on an axis: positive weights, or negative weights times the fall multiplier. */
  function RawMass(own: seq<TrustEvent>, c: string, m: TrustModel): real {
    if own == [] then 0.0
    else RawMass(own[..|own| - 1], c, m) + (if own[|own| - 1].criterion == c then Mass(own[|own| - 1], m) else 0.0)
  }

  function Mass(e: TrustEvent, m: TrustModel): real {
    if e.positive then e.weight else e.weight * m.ledger.fallMultiplier
  }

  predicate NonNegativeWeights(own: seq<TrustEvent>) {
    forall e :: e in own ==> e.weight >= 0.0
  }

  /**
   In any timestamp order: a row exists exactly when its axis has an event, it carries
   the time of the latest one, never drops below the prior, and never holds more mass
   than all its evidence undecayed.
   */
  lemma {:induction false} ScoreBounds(m: TrustModel, own: seq<TrustEvent>, c: string)
    requires m.maths.Valid() && NonNegativeWeights(own) && KnownCriterion(c)
    requires Replay(m, own).Ok?
    ensures var row := Replay(m, own).value.Score(c);
            && (row.None? <==> LastOn(own, c).None?)
            && (row.Some? ==>
                  && LastOn(own, c) == Some(row.value.lastUpdate)
                  && AtLeastPrior(row.value.score)
                  && Observations(row.value.score) <= RawMass(own, c, m))
    ensures RawMass(own, c, m) >= 0.0
    decreases |own|
  {
    if own != [] {
      var front, last := own[..|own| - 1], own[|own| - 1];
      ScoreBounds(m, front, c);
      assert last in own;
      MassIsNonNegative(last, m);
      if last.criterion == c {
        UpdatedBounds(m, Replay(m, front).value.Score(c), last, RawMass(front, c, m));
      }
    }
  }

  lemma MassIsNonNegative(e: TrustEvent, m: TrustModel)
    requires e.weight >= 0.0
    ensures Mass(e, m) >= 0.0
  {
  }

  lemma UpdatedBounds(m: TrustModel, row: Option<ScoreRow>, e: TrustEvent, raw: real)
    requires m.maths.Valid() && e.weight >= 0.0 && raw >= 0.0
    requires row.Some? ==> AtLeastPrior(row.value.score) && Observations(row.value.score) <= raw
    ensures var s := DecayedUpdatedScore(row, e, m);
            AtLeastPrior(s) && Observations(s) <= raw + Mass(e, m)
  {
    MassIsNonNegative(e, m);
    if row.Some? {
      DecayShrinks(m.maths, row.value.score, ElapsedDays(e.ts, row.value.lastUpdate),
                   m.ledger.HalfLifeFor(e.criterion));
    }
  }

  /** Log rows carry aware times: with non-negative weights and known axes their replay never fails. */
  lemma {:induction false} NoFailures(m: TrustModel, own: seq<TrustEvent>)
    requires m.maths.Valid() && NonNegativeWeights(own)
    requires forall e :: e in own ==> KnownCriterion(e.criterion)
    ensures Replay(m, own).Ok?
    decreases |own|
  {
    if own != [] {
      var front, last := own[..|own| - 1], own[|own| - 1];
      NoFailures(m, front);
      assert last in own;
      ScoreBounds(m, front, last.criterion);
      var row := Replay(m, front).value.Score(last.criterion);
      UpdatedBounds(m, row, last, RawMass(front, last.criterion, m));
      LowerBoundPositive(m.maths, DecayedUpdatedScore(row, last, m));
    }
  }

  // ---- the batch form ----

  /** The weight an event keeps at time `now`. */
  function Ageing(c: string, ts: Time, now: Time, m: TrustModel): real {
    m.maths.halfPower(ElapsedDays(now, ts) / m.ledger.HalfLifeFor(c))
  }

  /** What one event contributes at time `now` to the mass of one sign on one axis. */
  function AgedTerm(e: TrustEvent, c: string, positive: bool, now: Time, m: TrustModel): real {
    if e.criterion == c && e.positive == positive then Mass(e, m) * Ageing(c, e.ts, now, m) else 0.0
  }

  function Term(c: string, positive: bool, now: Time, m: TrustModel): TrustEvent -> real {
    e => AgedTerm(e, c, positive, now, m)
  }

  function Sum(own: seq<TrustEvent>, term: TrustEvent -> real): real {
    if own == [] then 0.0 else Sum(own[..|own| - 1], term) + term(own[|own| - 1])
  }

  /** The mass of one sign on one axis, each event scaled by its own age at `now`. */
  function AgedMass(own: seq<TrustEvent>, c: string, positive: bool, now: Time, m: TrustModel): real {
    Sum(own, Term(c, positive, now, m))
  }

  /** The score that the events give when summed at once. */
  function BatchScore(own: seq<TrustEvent>, c: string, now: Time, m: TrustModel): BetaScore {
    BetaScore(1.0 + AgedMass(own, c, true, now, m), 3.0 + AgedMass(own, c, false, now, m))
  }

  predicate UpTo(own: seq<TrustEvent>, now: Time) {
    forall e :: e in own ==> e.ts <= now
  }

  predicate NonDecreasing(own: seq<TrustEvent>) {
    forall i, j :: 0 <= i < j < |own| ==> own[i].ts <= own[j].ts
  }

  lemma AgeingComposes(c: string, ts: Time, mid: Time, now: Time, m: TrustModel)
    requires m.maths.Valid() && ts <= mid <= now
    ensures Ageing(c, ts, now, m) == Ageing(c, ts, mid, m) * Ageing(c, mid, now, m)
    ensures Ageing(c, now, now, m) == 1.0
  {
    var h: real := m.ledger.HalfLifeFor(c);
    var x, y := ElapsedDays(mid, ts) / h, ElapsedDays(now, mid) / h;
    Quotients(ElapsedDays(mid, ts), ElapsedDays(now, mid), h);
    assert m.maths.AddsUp(x, y);
    assert ElapsedDays(now, ts) == ElapsedDays(mid, ts) + ElapsedDays(now, mid) by {
      DaysAdd(now - mid, mid - ts);
    }
    assert ElapsedDays(now, now) / h == 0.0;
  }

  lemma DaysAdd(a: int, b: int)
    ensures (a + b) as real / MICROS_PER_DAY as real
         == a as real / MICROS_PER_DAY as real + b as real / MICROS_PER_DAY as real
  {
  }

  lemma Quotients(x: real, y: real, h: real)
    requires h > 0.0 && x >= 0.0 && y >= 0.0
    ensures (x + y) / h == x / h + y / h && x / h >= 0.0 && y / h >= 0.0
  {
  }

  lemma {:induction false} SumScales(own: seq<TrustEvent>, g: TrustEvent -> real, h: TrustEvent -> real, f: real)
    requires forall e :: e in own ==> Scaled(g(e), h(e), f)
    ensures Scaled(Sum(own, g), Sum(own, h), f)
    decreases |own|
  {
    if own != [] {
      var front, e := own[..|own| - 1], own[|own| - 1];
      assert e in own;
      SumScales(front, g, h, f);
      SumAges(Sum(front, g), g(e), f, Sum(front, h), h(e));
    }
  }

  /** Waiting from `mid` to `now` scales the whole sum by one factor. */
  lemma MassAges(own: seq<TrustEvent>, c: string, positive: bool, mid: Time, now: Time, m: TrustModel)
    requires m.maths.Valid() && UpTo(own, mid) && mid <= now
    ensures AgedMass(own, c, positive, now, m) == AgedMass(own, c, positive, mid, m) * Ageing(c, mid, now, m)
  {
    var g, h, f := Term(c, positive, mid, m), Term(c, positive, now, m), Ageing(c, mid, now, m);
    forall e | e in own
      ensures Scaled(g(e), h(e), f)
    {
      TermAges(e, c, positive, mid, now, m);
    }
    SumScales(own, g, h, f);
  }

  predicate Scaled(x: real, y: real, f: real) {
    y == x * f
  }

  lemma TermAges(e: TrustEvent, c: string, positive: bool, mid: Time, now: Time, m: TrustModel)
    requires m.maths.Valid() && e.ts <= mid <= now
    ensures Scaled(Term(c, positive, mid, m)(e), Term(c, positive, now, m)(e), Ageing(c, mid, now, m))
  {
    AgeingComposes(c, e.ts, mid, now, m);
    Associate(Mass(e, m), Ageing(c, e.ts, mid, m), Ageing(c, mid, now, m));
  }

  lemma Associate(x: real, y: real, z: real)
    ensures x * (y * z) == (x * y) * z
  {
  }

  lemma SumAges(x: real, y: real, f: real, x': real, y': real)
    requires x' == x * f && y' == y * f
    ensures x' + y' == (x + y) * f
  {
  }

  lemma {:induction false} NoMassWithoutEvents(own: seq<TrustEvent>, c: string, positive: bool,
                                               now: Time, m: TrustModel)
    requires LastOn(own, c).None?
    ensures AgedMass(own, c, positive, now, m) == 0.0
    decreases |own|
  {
    if own != [] {
      NoMassWithoutEvents(own[..|own| - 1], c, positive, now, m);
    }
  }

  /**
   For non-decreasing timestamps the stored score, computed by decay then update at each
   event, is the batch score at its own timestamp.
   */
  lemma {:induction false} StoredScoreIsBatch(m: TrustModel, own: seq<TrustEvent>, c: string)
    requires m.maths.Valid() && KnownCriterion(c) && NonDecreasing(own) && Replay(m, own).Ok?
    ensures var row := Replay(m, own).value.Score(c);
            && (row.None? <==> LastOn(own, c).None?)
            && (row.Some? ==> LastOn(own, c) == Some(row.value.lastUpdate)
                              && row.value.score == BatchScore(own, c, row.value.lastUpdate, m))
    decreases |own|
  {
    if own != [] {
      var front, e := own[..|own| - 1], own[|own| - 1];
      StoredScoreIsBatch(m, front, c);
      if e.criterion == c {
        var row := Replay(m, front).value.Score(c);
        LastIsUpTo(own, c);
        if row.Some? {
          AgedScore(m, front, c, row.value, e.ts);
        } else {
          NoMassWithoutEvents(front, c, true, e.ts, m);
          NoMassWithoutEvents(front, c, false, e.ts, m);
        }
        UpdateAddsTerm(m, own, c);
      }
    }
  }

  /** Updating the batch score of the earlier events gives the batch score at the new event. */
  lemma UpdateAddsTerm(m: TrustModel, own: seq<TrustEvent>, c: string)
    requires m.maths.Valid() && own != [] && own[|own| - 1].criterion == c
    ensures var e := own[|own| - 1];
            Update(BatchScore(own[..|own| - 1], c, e.ts, m), e.positive, e.weight, m.ledger)
            == BatchScore(own, c, e.ts, m)
  {
  }

  lemma {:induction false} LastIsUpTo(own: seq<TrustEvent>, c: string)
    requires own != [] && NonDecreasing(own)
    ensures var front := own[..|own| - 1];
            LastOn(front, c).Some? ==> LastOn(front, c).value <= own[|own| - 1].ts
    ensures UpTo(own[..|own| - 1], own[|own| - 1].ts)
    decreases |own|
  {
    var front := own[..|own| - 1];
    if front != [] {
      LastIsUpTo(front, c);
    }
  }

  /** Events before the latest one on the axis may have any other criterion's later times. */
  lemma {:induction false} MassAgesOnAxis(own: seq<TrustEvent>, c: string, positive: bool, now: Time, m: TrustModel)
    requires m.maths.Valid() && NonDecreasing(own) && LastOn(own, c).Some? && LastOn(own, c).value <= now
    ensures var last := LastOn(own, c).value;
            AgedMass(own, c, positive, now, m) == AgedMass(own, c, positive, last, m) * Ageing(c, last, now, m)
    decreases |own|
  {
    var front, e := own[..|own| - 1], own[|own| - 1];
    if e.criterion == c {
      MassAges(own, c, positive, e.ts, now, m);
    } else {
      MassAgesOnAxis(front, c, positive, now, m);
    }
  }

  /** A stored batch score decayed to `now` is the batch score at `now`. */
  lemma AgedScore(m: TrustModel, own: seq<TrustEvent>, c: string, row: ScoreRow, now: Time)
    requires m.maths.Valid() && NonDecreasing(own)
    requires LastOn(own, c) == Some(row.lastUpdate) && row.lastUpdate <= now
    requires row.score == BatchScore(own, c, row.lastUpdate, m)
    ensures DecayedTo(row, c, now, m) == BatchScore(own, c, now, m)
  {
    MassAgesOnAxis(own, c, true, now, m);
    MassAgesOnAxis(own, c, false, now, m);
    DecayIsScaling(m.maths, row.score, ElapsedDays(now, row.lastUpdate), m.ledger.HalfLifeFor(c));
    var f := Ageing(c, row.lastUpdate, now, m);
    SameProduct(row.score.alpha - 1.0, AgedMass(own, c, true, row.lastUpdate, m), f);
    SameProduct(row.score.beta - 3.0, AgedMass(own, c, false, row.lastUpdate, m), f);
  }

  lemma SameProduct(x: real, y: real, f: real)
    requires x == y
    ensures x * f == y * f
  {
  }

  // ---- stale honesty ----

  function PowerOfTwo(k: nat): real {
    if k == 0 then 1.0 else 2.0 * PowerOfTwo(k - 1)
  }

  lemma {:induction false} HalfPowerOfNat(f: Maths, k: nat)
    requires f.Valid()
    ensures f.halfPower(k as real) * PowerOfTwo(k) == 1.0
    decreases k
  {
    if k > 0 {
      HalfPowerOfNat(f, k - 1);
      assert f.AddsUp((k - 1) as real, 1.0);
      var a, b := f.halfPower((k - 1) as real), PowerOfTwo(k - 1);
      assert (a * 0.5) * (2.0 * b) == a * b;
    }
  }

  /** A mass below 2^(k-1) is worth less than one half after k half-lives. */
  lemma FadedMass(f: Maths, mass: real, halfLives: real, k: nat, faded: real)
    requires f.Valid() && k >= 1 && halfLives >= k as real
    requires 0.0 <= mass < PowerOfTwo(k - 1) && faded == f.halfPower(halfLives)
    ensures mass * faded < 0.5
  {
    HalfPowerOfNat(f, k);
    LaterIsSmaller(f, k as real, halfLives);
    var a, p := f.halfPower(k as real), PowerOfTwo(k - 1);
    FadedProduct(mass, a, faded, p);
  }

  lemma LaterIsSmaller(f: Maths, x: real, y: real)
    requires f.Valid() && 0.0 <= x <= y
    ensures f.halfPower(y) <= f.halfPower(x)
  {
    Composes(f, x, y - x);
    NoLarger(f.halfPower(x), f.halfPower(y - x), f.halfPower(y));
  }

  lemma Composes(f: Maths, x: real, z: real)
    requires f.Valid() && x >= 0.0 && z >= 0.0
    ensures f.halfPower(x + z) == f.halfPower(x) * f.halfPower(z)
    ensures 0.0 < f.halfPower(x) <= 1.0 && 0.0 < f.halfPower(z) <= 1.0
  {
    assert f.AddsUp(x, z);
  }

  lemma NoLarger(a: real, b: real, c: real)
    requires 0.0 < a && 0.0 < b <= 1.0 && c == a * b
    ensures c <= a
  {
  }

  lemma FadedProduct(mass: real, a: real, faded: real, p: real)
    requires 0.0 <= mass < p && a > 0.0 && faded <= a && a * (2.0 * p) == 1.0
    ensures mass * faded < 0.5
  {
    calc {
      mass * faded;
      <= { ScaledBy(mass, faded, a); }
      mass * a;
      < { Less(mass, p, a); }
      p * a;
      == { Half(a, p); }
      0.5;
    }
  }

  lemma Half(a: real, p: real)
    requires a * (2.0 * p) == 1.0
    ensures p * a == 0.5
  {
  }

  lemma ScaledBy(x: real, y: real, z: real)
    requires x >= 0.0 && y <= z
    ensures x * y <= x * z
  {
  }

  /**
   Old audits do not promote: when the stored honesty row is k half-lives old and all
   honesty evidence together, undecayed, is below 2^(k-1), a reliability event cannot
   make the agent a member.
   */
  lemma StaleHonestyCannotPromote(m: TrustModel, own: seq<TrustEvent>, e: TrustEvent, k: nat)
    requires m.maths.Valid() && NonNegativeWeights(own) && k >= 1
    requires m.membership.promoteMinHonesty >= 0.5
    requires Replay(m, own + [e]).Ok? && Replay(m, own).Ok? && e.criterion == RELIABILITY
    requires Replay(m, own).value.honesty.Some?
    requires ElapsedDays(e.ts, Replay(m, own).value.honesty.value.lastUpdate)
             >= k as real * m.ledger.honestyHalfLifeDays
    requires RawMass(own, HONESTY, m) < PowerOfTwo(k - 1)
    requires StateAfter(m, own) != Member
    ensures StateAfter(m, own + [e]) != Member
  {
    ReplaySnoc(m, own, e);
    ScoreBounds(m, own, HONESTY);
    var v := Replay(m, own).value;
    FadedRow(m, v.honesty.value, e.ts, k, RawMass(own, HONESTY, m));
    if Step(v, e, m).value.member.value.state == Member {
      PromotionNeedsEvidence(v, e, m);
    }
  }

  lemma FadedRow(m: TrustModel, row: ScoreRow, ts: Time, k: nat, raw: real)
    requires m.maths.Valid() && k >= 1 && raw < PowerOfTwo(k - 1)
    requires AtLeastPrior(row.score) && Observations(row.score) <= raw
    requires ElapsedDays(ts, row.lastUpdate) >= k as real * m.ledger.honestyHalfLifeDays
    ensures Observations(DecayedTo(row, HONESTY, ts, m)) < 0.5
  {
    var h: real, days := m.ledger.honestyHalfLifeDays, ElapsedDays(ts, row.lastUpdate);
    HalfLivesElapsed(days, h, k);
    var mass, faded := Observations(row.score), m.maths.halfPower(days / h);
    FadedMass(m.maths, mass, days / h, k, faded);
    DecayIsScaling(m.maths, row.score, days, m.ledger.honestyHalfLifeDays);
    assert Observations(DecayedTo(row, HONESTY, ts, m)) == mass * faded;
  }

  lemma HalfLivesElapsed(days: real, h: real, k: nat)
    requires h > 0.0 && days >= k as real * h
    ensures days / h >= k as real
  {
  }

  // ---- back to the tables of a run ----

  /** An agent with a log row has a register row that follows its own events alone. */
  lemma RegisterExplained(m: TrustModel, t: TrustTables, a: Agent)
    requires LogExplains(m, t) && m.membership.excludeViolations >= 1 && m.membership.promoteMinHonesty > 0.0
    ensures RegisterFollows(m, t, a)
  {
    var own := Own(t.log, a);
    assert Replay(m, own) == Ok(View(t, a));
    if own != [] {
      RegisterOfHistory(m, own);
      if forall e :: e in own ==> e.criterion != HONESTY {
        NoHonestyNoMember(m, own);
      }
    }
  }

  /**
   The register row of `a` counts its negatives, keeps its first and last-change times,
   is excluded exactly from the limit on, and no member without honesty events.
   */
  ghost predicate RegisterFollows(m: TrustModel, t: TrustTables, a: Agent) {
    var own := Own(t.log, a);
    && (a in t.members <==> own != [])
    && (own != [] ==>
          && t.members[a].violations == Negatives(own)
          && t.members[a].joinedAt == own[0].ts
          && t.members[a].stateChangedAt == LastChange(m, own)
          && (t.members[a].state == Excluded <==> Negatives(own) >= m.membership.excludeViolations)
          && ((forall e :: e in own ==> e.criterion != HONESTY) ==> t.members[a].state != Member))
  }

  /** In every run, whatever agents and failed calls are interleaved, each register row follows its own log. */
  lemma RegisterOfRun(m: TrustModel, calls: seq<TrustCall>, a: Agent)
    requires m.membership.excludeViolations >= 1 && m.membership.promoteMinHonesty > 0.0
    ensures RegisterFollows(m, Run(m, calls), a)
  {
    RunIsExplained(m, calls);
    RegisterExplained(m, Run(m, calls), a);
  }

  lemma ScoresExplained(m: TrustModel, t: TrustTables, a: Agent, c: string)
    requires LogExplains(m, t) && m.maths.Valid() && KnownCriterion(c) && NonDecreasing(Own(t.log, a))
    ensures (a, c) in t.scores ==>
              t.scores[(a, c)].score == BatchScore(Own(t.log, a), c, t.scores[(a, c)].lastUpdate, m)
  {
    assert Replay(m, Own(t.log, a)) == Ok(View(t, a));
    StoredScoreIsBatch(m, Own(t.log, a), c);
  }

  /** In every run with one agent's events in time order, its stored scores are the batch scores. */
  lemma ScoresOfRun(m: TrustModel, calls: seq<TrustCall>, a: Agent, c: string)
    requires m.maths.Valid() && KnownCriterion(c)
    requires NonDecreasing(Own(Run(m, calls).log, a))
    ensures var t := Run(m, calls);
            (a, c) in t.scores ==>
              t.scores[(a, c)].score == BatchScore(Own(t.log, a), c, t.scores[(a, c)].lastUpdate, m)
  {
    RunIsExplained(m, calls);
    ScoresExplained(m, Run(m, calls), a, c);
  }

  // ---- which calls fail ----

  lemma StandingIsAtLeastPrior(m: TrustModel, t: TrustTables, a: Agent, c: string, now: Time)
    requires m.maths.Valid() && LogExplains(m, t) && KnownCriterion(c) && NonNegativeWeights(Own(t.log, a))
    ensures AtLeastPrior(StandingAt(m, t, a, c, now))
  {
    var own := Own(t.log, a);
    assert Replay(m, own) == Ok(View(t, a));
    ScoreBounds(m, own, c);
    var row := View(t, a).Score(c);
    if row.Some? {
      DecayShrinks(m.maths, row.value.score, ElapsedDays(now, row.value.lastUpdate), m.ledger.HalfLifeFor(c));
    }
  }

  /**
   In a history of non-negative weights, a call on a known axis with a non-negative weight
   fails exactly when its time has no offset and a stored row must be aged.
   */
  lemma CallFailsExactly(m: TrustModel, t: TrustTables, call: TrustCall)
    requires m.maths.Valid() && LogExplains(m, t) && KnownCriterion(call.event.criterion)
    requires NonNegativeWeights(Own(t.log, call.event.agent)) && call.event.weight >= 0.0
    ensures Recorded(t, call, m).1.Err? <==> MixesClocks(t, call)
  {
    var e := call.event;
    RecordFailsExactly(t, call, m);
    StandingIsAtLeastPrior(m, t, e.agent, e.criterion, e.ts);
    MassIsNonNegative(e, m);
  }

  // ---- promotion in time order ----

  /** All evidence on an axis, of both signs, each event scaled by its own age. */
  function AgedEvidence(own: seq<TrustEvent>, c: string, now: Time, m: TrustModel): real {
    AgedMass(own, c, true, now, m) + AgedMass(own, c, false, now, m)
  }

  /**
   In time order, the event that makes an agent a member finds enough aged honesty
   evidence, enough aged evidence on its own axis, and a batch score whose lower bound
   reaches the bar raised by every negative so far.
   */
  lemma PromotionInTimeOrder(m: TrustModel, own: seq<TrustEvent>, e: TrustEvent)
    requires m.maths.Valid() && NonDecreasing(own + [e])
    requires m.membership.excludeViolations >= 1 && m.membership.promoteMinHonesty > 0.0
    requires Replay(m, own + [e]).Ok? && StateAfter(m, own) != Member && StateAfter(m, own + [e]) == Member
    ensures var all, policy := own + [e], m.membership;
            var lower := LowerBound(m.maths, BatchScore(all, e.criterion, e.ts, m));
            && AgedEvidence(all, HONESTY, e.ts, m) >= policy.promoteMinHonesty
            && AgedEvidence(all, e.criterion, e.ts, m) >= policy.promoteMinObservations
            && lower.Some? && lower.value >= RecoveryBar(Negatives(all), policy)
  {
    ReplaySnoc(m, own, e);
    var v := Replay(m, own).value;
    PromotionNeedsEvidence(v, e, m);
    RegisterOfHistory(m, own + [e]);
    StoredScoreIsBatch(m, own + [e], e.criterion);
    assert (own + [e])[..|own|] == own;
    if e.criterion != HONESTY {
      GateIsAged(m, own, e, v);
    }
  }

  /** On another axis the gate weighs the aged honesty events. */
  lemma GateIsAged(m: TrustModel, own: seq<TrustEvent>, e: TrustEvent, v: AgentView)
    requires m.maths.Valid() && NonDecreasing(own + [e]) && e.criterion != HONESTY
    requires Replay(m, own) == Ok(v) && v.honesty.Some?
    ensures Observations(DecayedTo(v.honesty.value, HONESTY, e.ts, m)) == AgedEvidence(own + [e], HONESTY, e.ts, m)
  {
    var all := own + [e];
    assert all[..|all| - 1] == own;
    LastIsUpTo(all, HONESTY);
    assert forall i, j :: 0 <= i < j < |own| ==> own[i] == all[i] && own[j] == all[j];
    StoredScoreIsBatch(m, own, HONESTY);
    AgedScore(m, own, HONESTY, v.honesty.value, e.ts);
  }

  /** The same for the tables of every run in which the promoted agent's events come in time order. */
  lemma PromotionOfRun(m: TrustModel, calls: seq<TrustCall>, call: TrustCall)
    requires m.maths.Valid() && m.membership.excludeViolations >= 1 && m.membership.promoteMinHonesty > 0.0
    requires var t, a := Run(m, calls), call.event.agent;
             var t' := Recorded(t, call, m).0;
             && NonDecreasing(Own(t'.log, a))
             && PriorState(Lookup(t.members, a)) != Member && PriorState(Lookup(t'.members, a)) == Member
    ensures var t', e := Recorded(Run(m, calls), call, m).0, call.event;
            var all := Own(t'.log, e.agent);
            var lower := LowerBound(m.maths, BatchScore(all, e.criterion, e.ts, m));
            && AgedEvidence(all, HONESTY, e.ts, m) >= m.membership.promoteMinHonesty
            && AgedEvidence(all, e.criterion, e.ts, m) >= m.membership.promoteMinObservations
            && lower.Some? && lower.value >= RecoveryBar(Negatives(all), m.membership)
  {
    var t, e := Run(m, calls), call.event;
    RunIsExplained(m, calls);
    RecordKeepsExplanation(m, t, call);
    RecordedIsLocal(t, call, m, e.agent);
    OwnSnoc(t.log, e, e.agent);
    var own, t' := Own(t.log, e.agent), Recorded(t, call, m).0;
    assert Replay(m, own) == Ok(View(t, e.agent)) && Replay(m, Own(t'.log, e.agent)) == Ok(View(t', e.agent));
    PromotionInTimeOrder(m, own, e);
  }
}
