/**
 app/trust/corroboration.py: executing verdicts about stored events. A contradiction
 forfeits the open escrow and costs honesty; an independent confirmation adds some.
 */
module Corroboration {
  import opened Common
  import opened BetaScores
  import opened Database
  import opened TrustService

  const CORROBORATION_WEIGHT: real := 0.5

  datatype CorroborationError =
    | SameEvent | UnknownEvent(eventId: Id) | SelfCorroboration | TrustFailed(cause: TrustError)

  datatype ContradictionResult = ContradictionResult(seller: Agent, escrowRevoked: bool, trust: TrustUpdate)

  function TrustVerdict(seller: Agent, positive: bool, weight: real, cause: string, eventId: Id, now: Stamp)
    : TrustCall
  {
    TrustCall(TrustEvent(now.at, seller, HONESTY, positive, weight, cause, Some(eventId)), now.aware)
  }

  predicate OpenEscrowOf(t: Tables, e: Id) {
    e in t.escrows && t.escrows[e].status == Open
  }

  /** The escrow of a disputed event, if still open, is closed unpaid. */
  function Forfeited(t: Tables, eventId: Id): Tables {
    if eventId in t.escrows && t.escrows[eventId].status == Open
    then t.(escrows := t.escrows[eventId := t.escrows[eventId].(status := Expired)])
    else t
  }

  /**
   record_contradiction. Forfeiture and trust event are separate commits: when the trust
   event cannot be recorded the forfeiture stays.
   */
  function Contradicted(t: Tables, m: TrustModel, disputed: Id, contradicting: Id, weight: real, now: Stamp)
    : (Tables, Result<ContradictionResult, CorroborationError>)
  {
    if disputed == contradicting then (t, Err(SameEvent))
    else if disputed !in t.events then (t, Err(UnknownEvent(disputed)))
    else if contradicting !in t.events then (t, Err(UnknownEvent(contradicting)))
    else
      var seller := t.events[disputed].sourceAgent;
      AfterVerdict(Forfeited(t, disputed), seller, OpenEscrowOf(t, disputed),
                   Recorded(Forfeited(t, disputed).trust,
                            TrustVerdict(seller, false, weight, "grounding_contradiction", disputed, now), m))
  }

  /** The forfeiture stays whatever the trust service answers. */
  function AfterVerdict(t: Tables, seller: Agent, revoked: bool,
                        recorded: (TrustTables, Result<TrustUpdate, TrustError>))
    : (Tables, Result<ContradictionResult, CorroborationError>)
  {
    match recorded.1
    case Err(e) => (t, Err(TrustFailed(e)))
    case Ok(u) => (t.(trust := recorded.0), Ok(ContradictionResult(seller, revoked, u)))
  }

  method RecordContradiction(conn: Connection, m: TrustModel, disputed: Id, contradicting: Id, weight: real, now: Stamp)
    returns (r: Result<ContradictionResult, CorroborationError>)
    requires conn.saved.None?
    modifies conn
    ensures (conn.db, r) == Contradicted(old(conn.db), m, disputed, contradicting, weight, now)
    ensures conn.saved.None?
  {
    if disputed == contradicting {
      return Err(SameEvent);
    }
    if disputed !in conn.db.events {
      return Err(UnknownEvent(disputed));
    }
    var seller := conn.db.events[disputed].sourceAgent;
    if contradicting !in conn.db.events {
      return Err(UnknownEvent(contradicting));
    }
    var revoked := disputed in conn.db.escrows && conn.db.escrows[disputed].status == Open;
    if revoked {
      conn.db := conn.db.(escrows :=
        conn.db.escrows[disputed := conn.db.escrows[disputed].(status := Expired)]);
      assert conn.db.escrows[disputed] != old(conn.db).escrows[disputed];
    }
    var u := RecordTrustEvent(
      conn, TrustVerdict(seller, false, weight, "grounding_contradiction", disputed, now), m);
    if u.Err? {
      return Err(TrustFailed(u.error));
    }
    r := Ok(ContradictionResult(seller, revoked, u.value));
  }

  // ---- what a failed contradiction leaves ----

  /** The trust call a contradiction of `d` makes. */
  function ContradictionCall(t: Tables, d: Id, weight: real, now: Stamp): TrustCall
    requires d in t.events
  {
    TrustVerdict(t.events[d].sourceAgent, false, weight, "grounding_contradiction", d, now)
  }

  lemma ContradictionReports(t: Tables, m: TrustModel, d: Id, c: Id, weight: real, now: Stamp,
                             r: Result<TrustUpdate, TrustError>)
    requires d != c && d in t.events && c in t.events
    requires r == Recorded(t.trust, ContradictionCall(t, d, weight, now), m).1
    ensures Contradicted(t, m, d, c, weight, now).1
         == if r.Err? then Err(TrustFailed(r.error))
            else Ok(ContradictionResult(t.events[d].sourceAgent, OpenEscrowOf(t, d), r.value))
    ensures r.Err? ==> Contradicted(t, m, d, c, weight, now).0 == Forfeited(t, d)
    ensures Forfeited(t, d) == t <==> !OpenEscrowOf(t, d)
  {
    assert Forfeited(t, d).trust == t.trust;
    if OpenEscrowOf(t, d) {
      assert Forfeited(t, d).escrows[d] != t.escrows[d];
    }
  }

  /** The two distinct events exist. */
  predicate ProperPair(t: Tables, d: Id, c: Id) {
    d != c && d in t.events && c in t.events
  }

  /**
   Whatever the tables: a call on a proper pair fails exactly when the clocks mix or the
   new score has no lower bound. A failed call changes something exactly when the pair is
   proper and its escrow open: the forfeiture is then already committed.
   */
  lemma FailedContradiction(t: Tables, m: TrustModel, d: Id, c: Id, weight: real, now: Stamp)
    ensures var (t', r) := Contradicted(t, m, d, c, weight, now);
            && (r.Err? <==> !ProperPair(t, d, c) || TrustRefuses(t, m, d, weight, now))
            && (r == Err(SameEvent) <==> d == c)
            && (r == Err(UnknownEvent(d)) <==> d != c && d !in t.events)
            && (r == Err(UnknownEvent(c)) <==> d != c && d in t.events && c !in t.events)
            && (r.Err? ==> t' == (if ProperPair(t, d, c) then Forfeited(t, d) else t))
            && (r.Err? ==> (t' != t <==> ProperPair(t, d, c) && OpenEscrowOf(t, d)))
  {
    if ProperPair(t, d, c) {
      var call := ContradictionCall(t, d, weight, now);
      RecordFailsExactly(t.trust, call, m);
      ContradictionReports(t, m, d, c, weight, now, Recorded(t.trust, call, m).1);
    }
  }

  predicate TrustRefuses(t: Tables, m: TrustModel, d: Id, weight: real, now: Stamp)
    requires d in t.events
  {
    var seller := t.events[d].sourceAgent;
    Unrecordable(t.trust, m, TrustEvent(now.at, seller, "honesty", false, weight, "grounding_contradiction", Some(d)),
                 now.aware)
  }

  /**
   The same condition in numbers, for a seller at or above the prior: no offset although
   an honesty row is stored, or a negative weight that takes the negative mass below zero
   by no more than the positive mass plus one.
   */
  lemma TrustRefusesExactly(t: Tables, m: TrustModel, d: Id, weight: real, now: Stamp)
    requires d in t.events
    requires AtLeastPrior(StandingAt(m, t.trust, t.events[d].sourceAgent, HONESTY, now.at))
    ensures var seller := t.events[d].sourceAgent;
            var before := StandingAt(m, t.trust, seller, HONESTY, now.at);
            TrustRefuses(t, m, d, weight, now) <==>
              || (!now.aware && (seller, HONESTY) in t.trust.scores)
              || -(before.alpha + 1.0) <= before.beta + weight * m.ledger.fallMultiplier < 0.0
  {
    var before := StandingAt(m, t.trust, t.events[d].sourceAgent, HONESTY, now.at);
    EvidenceRaisesExactly(before, false, weight, m.ledger);
  }

  /** record_corroboration: only a different seller can confirm. */
  function Corroborated(t: Tables, m: TrustModel, original: Id, corroborating: Id, weight: real, now: Stamp)
    : (Tables, Result<TrustUpdate, CorroborationError>)
  {
    if original == corroborating then (t, Err(SameEvent))
    else if original !in t.events then (t, Err(UnknownEvent(original)))
    else if corroborating !in t.events then (t, Err(UnknownEvent(corroborating)))
    else if t.events[original].sourceAgent == t.events[corroborating].sourceAgent then (t, Err(SelfCorroboration))
    else
      var (trust, r) := Recorded(
        t.trust, TrustVerdict(t.events[original].sourceAgent, true, weight, "corroborated", original, now), m);
      match r
      case Err(e) => (t, Err(TrustFailed(e)))
      case Ok(u) => (t.(trust := trust), Ok(u))
  }

  method RecordCorroboration(conn: Connection, m: TrustModel, original: Id, corroborating: Id, weight: real, now: Stamp)
    returns (r: Result<TrustUpdate, CorroborationError>)
    requires conn.saved.None?
    modifies conn
    ensures (conn.db, r) == Corroborated(old(conn.db), m, original, corroborating, weight, now)
    ensures conn.saved.None?
  {
    if original == corroborating {
      return Err(SameEvent);
    }
    if original !in conn.db.events {
      return Err(UnknownEvent(original));
    }
    if corroborating !in conn.db.events {
      return Err(UnknownEvent(corroborating));
    }
    var seller := conn.db.events[original].sourceAgent;
    if seller == conn.db.events[corroborating].sourceAgent {
      return Err(SelfCorroboration);
    }
    var u := RecordTrustEvent(conn, TrustVerdict(seller, true, weight, "corroborated", original, now), m);
    if u.Err? {
      return Err(TrustFailed(u.error));
    }
    r := Ok(u.value);
  }

  // ---- what verdicts record ----

  /**
   A confirmation counts exactly when it comes from another seller's event and can be
   recorded: as positive honesty evidence for the seller of the original.
   */
  lemma CorroborationOutcome(t: Tables, m: TrustModel, o: Id, c: Id, weight: real, now: Stamp)
    ensures var (t', r) := Corroborated(t, m, o, c, weight, now);
            && t' == t.(trust := t'.trust) && (r.Err? ==> t' == t)
            && (r == Err(SameEvent) <==> o == c)
            && (r == Err(UnknownEvent(o)) <==> o != c && o !in t.events)
            && (r == Err(UnknownEvent(c)) <==> o != c && o in t.events && c !in t.events)
            && (r == Err(SelfCorroboration) <==>
                  ProperPair(t, o, c) && t.events[o].sourceAgent == t.events[c].sourceAgent)
            && (ProperPair(t, o, c) && t.events[o].sourceAgent != t.events[c].sourceAgent ==>
                  var seller := t.events[o].sourceAgent;
                  var e := TrustEvent(now.at, seller, "honesty", true, weight, "corroborated", Some(o));
                  && (r.Ok? <==> !Unrecordable(t.trust, m, e, now.aware))
                  && (r.Ok? ==> t'.trust.log == t.trust.log + [e]))
  {
    if o in t.events {
      var e := TrustEvent(now.at, t.events[o].sourceAgent, "honesty", true, weight, "corroborated", Some(o));
      RecordFailsExactly(t.trust, TrustCall(e, now.aware), m);
    }
  }

  /** A contradiction that is recorded closes the open escrow and costs the disputed seller honesty. */
  lemma ContradictionOutcome(t: Tables, m: TrustModel, d: Id, c: Id, weight: real, now: Stamp)
    requires ProperPair(t, d, c)
    ensures var (t', r) := Contradicted(t, m, d, c, weight, now);
            var e := TrustEvent(now.at, t.events[d].sourceAgent, "honesty", false, weight,
                                "grounding_contradiction", Some(d));
            && t' == t.(escrows := t'.escrows, trust := t'.trust)
            && t'.escrows == (if OpenEscrowOf(t, d) then t.escrows[d := t.escrows[d].(status := Expired)]
                              else t.escrows)
            && (r.Ok? <==> !Unrecordable(t.trust, m, e, now.aware))
            && (r.Ok? ==> && t'.trust.log == t.trust.log + [e] && r.value.seller == e.agent
                          && (r.value.escrowRevoked <==> OpenEscrowOf(t, d)))
  {
    var call := ContradictionCall(t, d, weight, now);
    RecordFailsExactly(t.trust, call, m);
    VerdictIsRecorded(t, m, d, c, weight, now, Recorded(t.trust, call, m));
  }

  lemma VerdictIsRecorded(t: Tables, m: TrustModel, d: Id, c: Id, weight: real, now: Stamp,
                          recorded: (TrustTables, Result<TrustUpdate, TrustError>))
    requires ProperPair(t, d, c) && recorded == Recorded(t.trust, ContradictionCall(t, d, weight, now), m)
    ensures Contradicted(t, m, d, c, weight, now)
         == AfterVerdict(Forfeited(t, d), t.events[d].sourceAgent, OpenEscrowOf(t, d), recorded)
  {
    assert Forfeited(t, d).trust == t.trust;
  }
}
