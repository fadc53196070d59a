/**
 app/api/publish.py, `execute_publish`, with app/storage/identities.py: gates, identity
 binding on first signed publish, then payment and rows in one transaction, then best
 effort trust evidence.
 */
module Publishing {
  import opened Common
  import opened BetaScores
  import opened Database
  import opened Config
  import opened CreditsLedger
  import opened Payout
  import opened TrustService
  import DidKey

  /**
   A validated request. The opaque functions are represented by their results:
   `payloadHash` by sha256 of the canonical payload, `signatureVerifies` by the ed25519
   check, `nearDuplicate` by the Jaccard scan of recent payloads.
   */
  datatype PublishRequest = PublishRequest(
    kind: string, sourceAgent: Agent, observed: Option<Agent>, sourceType: SourceType, ts: Stamp,
    payloadHash: string, sellerDid: Option<string>, signature: Option<string>,
    signatureVerifies: bool, nearDuplicate: bool)

  datatype PublishError =
    | BlockedKind | InvalidSignature | MissingSignature | DidMismatch | JaccardDuplicate
    | ExactHashDuplicate | OldmanInsufficientFunds | OtherDatabaseError

  const BLOCKLISTED_KINDS: set<string> := {"heartbeat", "ping", "noop"}

  // ---- identities ----

  /** verify_payload: the DID must decode to a key and the signature must verify under it. */
  predicate VerifyPayload(req: PublishRequest) {
    req.sellerDid.Some? && DidKey.PublicKeyFromDid(req.sellerDid.value).Ok? && req.signatureVerifies
  }

  predicate DidTaken(t: Tables, agent: Agent, did: string) {
    exists a :: a in t.identities && a != agent && t.identities[a] == did
  }

  /** upsert_agent_identity; `did` is UNIQUE across agents. */
  method UpsertAgentIdentity(conn: Connection, agent: Agent, did: string) returns (r: Result<(), PublishError>)
    modifies conn
    ensures conn.saved == old(conn.saved)
    ensures if DidTaken(old(conn.db), agent, did) then r == Err(OtherDatabaseError) && conn.db == old(conn.db)
            else r == Ok(()) && conn.db == old(conn.db).(identities := old(conn.db).identities[agent := did])
  {
    if DidTaken(conn.db, agent, did) {
      return Err(OtherDatabaseError);
    }
    conn.db := conn.db.(identities := conn.db.identities[agent := did]);
    r := Ok(());
  }

  /** app/api/publish.py:199-241: the gates before the transaction; a first valid signature binds the DID. */
  function Gated(t: Tables, s: Settings, req: PublishRequest): (Tables, Result<(), PublishError>) {
    GatedIf(t, s, req, VerifyPayload(req))
  }

  /** The gates, given the outcome of signature verification. */
  function GatedIf(t: Tables, s: Settings, req: PublishRequest, verified: bool)
    : (Tables, Result<(), PublishError>)
  {
    if req.kind in BLOCKLISTED_KINDS then (t, Err(BlockedKind))
    else if Truthy(req.sellerDid) || Truthy(req.signature) then
      if !Truthy(req.sellerDid) || !Truthy(req.signature) || !verified then (t, Err(InvalidSignature))
      else
        var did := req.sellerDid.value;
        if req.sourceAgent !in t.identities then
          if DidTaken(t, req.sourceAgent, did) then (t, Err(OtherDatabaseError))
          else
            (t.(identities := t.identities[req.sourceAgent := did]),
             if req.nearDuplicate then Err(JaccardDuplicate) else Ok(()))
        else if t.identities[req.sourceAgent] != did then (t, Err(DidMismatch))
        else (t, if req.nearDuplicate then Err(JaccardDuplicate) else Ok(()))
    else if s.requireSignedPublish then (t, Err(MissingSignature))
    else (t, if req.nearDuplicate then Err(JaccardDuplicate) else Ok(()))
  }

  method PassGates(conn: Connection, s: Settings, req: PublishRequest) returns (r: Result<(), PublishError>)
    modifies conn
    ensures (conn.db, r) == Gated(old(conn.db), s, req) && conn.saved == old(conn.saved)
  {
    if req.kind in BLOCKLISTED_KINDS {
      return Err(BlockedKind);
    }
    if Truthy(req.sellerDid) || Truthy(req.signature) {
      if !Truthy(req.sellerDid) || !Truthy(req.signature) || !VerifyPayload(req) {
        return Err(InvalidSignature);
      }
      if req.sourceAgent !in conn.db.identities {
        var bound := UpsertAgentIdentity(conn, req.sourceAgent, req.sellerDid.value);
        if bound.Err? {
          return Err(bound.error);
        }
      } else if conn.db.identities[req.sourceAgent] != req.sellerDid.value {
        return Err(DidMismatch);
      }
    } else if s.requireSignedPublish {
      return Err(MissingSignature);
    }
    if req.nearDuplicate {
      return Err(JaccardDuplicate);
    }
    r := Ok(());
  }

  // ---- payment ----

  predicate PaymentsOn(s: Settings) {
    s.paymentEnabled && !s.paymentKillSwitch
  }

  function RewardMove(s: Settings, eventId: Id, seller: Agent): Move {
    Move(Some(TREASURY), Some(seller), s.publishReward, PublishReward, Some(eventId), None)
  }

  /** An empty treasury is a publish error; anything else is re-raised as it is. */
  function PaymentError(e: LedgerError): PublishError {
    if e == InsufficientFunds then OldmanInsufficientFunds else OtherDatabaseError
  }

  /** What a paid publish moves at once: the listing fee, or the whole reward. */
  function PaymentMove(s: Settings, req: PublishRequest, eventId: Id): Move {
    if s.royaltyEnabled
    then ListingMove(eventId, req.sourceAgent, Payout.ListingFee(s.publishReward, s.listingFeeRatio))
    else RewardMove(s, eventId, req.sourceAgent)
  }

  /** The escrow it opens, if any. */
  function EscrowOpened(s: Settings, req: PublishRequest): Option<Escrow> {
    var fee := Payout.ListingFee(s.publishReward, s.listingFeeRatio);
    if s.royaltyEnabled && s.publishReward > fee
    then Some(OpenEscrow(s, req.sourceAgent, s.publishReward - fee, req.ts.at)) else None
  }

  function WithEscrow(escrows: map<Id, Escrow>, e: Id, x: Option<Escrow>): map<Id, Escrow> {
    if x.Some? then escrows[e := x.value] else escrows
  }

  /**
   app/api/publish.py:253-282: no payment, or one treasury transfer for the event and perhaps an
   escrow; `Pay` shows that a split payment and a whole reward both come to this.
   */
  function PaidFor(t: Tables, s: Settings, req: PublishRequest, eventId: Id)
    : (Tables, Result<Option<Id>, PublishError>)
  {
    if !PaymentsOn(s) then (t, Ok(None))
    else
      var (t1, r) := Moved(t, PaymentMove(s, req, eventId), s.startingGrant);
      match r
      case Err(e) => (t1, Err(PaymentError(e)))
      case Ok(tx) =>
        var x := EscrowOpened(s, req);
        if x.Some? && eventId in t1.escrows then (t1, Err(OtherDatabaseError))
        else (t1.(escrows := WithEscrow(t1.escrows, eventId, x)), Ok(Some(tx)))
  }

  method Pay(conn: Connection, s: Settings, req: PublishRequest, eventId: Id)
    returns (r: Result<Option<Id>, PublishError>)
    modifies conn
    ensures (conn.db, r) == PaidFor(old(conn.db), s, req, eventId) && conn.saved == old(conn.saved)
  {
    if !PaymentsOn(s) {
      return Ok(None);
    }
    if s.royaltyEnabled {
      var payout := SplitPublishPayment(conn, s, eventId, req.sourceAgent, req.ts.at);
      if payout.Err? {
        return Err(PaymentError(payout.error));
      }
      r := Ok(Some(payout.value.listingFeeTx));
    } else {
      var tx := Transfer(conn, RewardMove(s, eventId, req.sourceAgent), s.startingGrant);
      if tx.Err? {
        return Err(PaymentError(tx.error));
      }
      r := Ok(Some(tx.value));
    }
  }

  // ---- rows ----

  predicate HashStored(t: Tables, hash: string) {
    exists e :: e in t.events && t.events[e].payloadHash == hash
  }

  function EventOf(req: PublishRequest, creditsTx: Option<Id>): Event {
    Event(req.ts.at, req.kind, req.sourceAgent, req.sourceType, req.payloadHash, creditsTx, req.sellerDid)
  }

  function EpisodeOf(req: PublishRequest, eventId: Id): Episode {
    Episode(eventId, req.sourceAgent, req.observed, req.kind, req.ts.at, req.sourceType)
  }

  /** touch_semantic: insert, or count one more corroboration. */
  function Touched(entities: map<Agent, Entity>, a: Agent, sourceType: SourceType, ts: Time): map<Agent, Entity> {
    if a in entities
    then entities[a := entities[a].(corroborations := entities[a].corroborations + 1, lastUpdated := ts)]
    else entities[a := Entity(sourceType, 1, ts, ts)]
  }

  function EntitiesTouched(entities: map<Agent, Entity>, req: PublishRequest): map<Agent, Entity> {
    var one := Touched(entities, req.sourceAgent, req.sourceType, req.ts.at);
    if Truthy(req.observed) then Touched(one, req.observed.value, req.sourceType, req.ts.at) else one
  }

  /** Everything a successful publish stores besides the payment. */
  function RowsAdded(t: Tables, req: PublishRequest, eventId: Id, creditsTx: Option<Id>): Tables {
    t.(events := t.events[eventId := EventOf(req, creditsTx)],
       episodes := t.episodes + [EpisodeOf(req, eventId)],
       entities := EntitiesTouched(t.entities, req))
  }

  /** app/api/publish.py:250-329: the publish transaction, given the fresh event id. */
  function PublishTx(t: Tables, s: Settings, req: PublishRequest, eventId: Id)
    : (Tables, Result<Option<Id>, PublishError>)
  {
    var (t1, r) := PaidFor(t, s, req, eventId);
    if r.Err? then (t, r)
    else if eventId in t1.events then (t, Err(OtherDatabaseError))
    else if HashStored(t1, req.payloadHash) then (t, Err(ExactHashDuplicate))
    else (RowsAdded(t1, req, eventId, r.value), r)
  }

  /** Neither trust nor bindings nor claims are touched inside the publish transaction. */
  lemma TxLeavesTrust(s: Settings, t: Tables, req: PublishRequest, e: Id)
    ensures PublishTx(t, s, req, e).0.trust == t.trust
    ensures PublishTx(t, s, req, e).0.identities == t.identities
    ensures PublishTx(t, s, req, e).0.claims == t.claims
  {
  }

  method RunPublishTx(conn: Connection, s: Settings, req: PublishRequest, eventId: Id)
    returns (r: Result<Option<Id>, PublishError>)
    requires conn.saved.None?
    modifies conn
    ensures (conn.db, r) == PublishTx(old(conn.db), s, req, eventId) && conn.saved.None?
  {
    conn.Begin();
    r := Pay(conn, s, req, eventId);
    if r.Err? {
      conn.Rollback();
      return;
    }
    if eventId in conn.db.events {
      conn.Rollback();
      return Err(OtherDatabaseError);
    }
    if HashStored(conn.db, req.payloadHash) {
      conn.Rollback();
      return Err(ExactHashDuplicate);
    }
    conn.db := conn.db.(events := conn.db.events[eventId := EventOf(req, r.value)]);
    conn.db := conn.db.(episodes := conn.db.episodes + [EpisodeOf(req, eventId)]);
    conn.db := conn.db.(entities := Touched(conn.db.entities, req.sourceAgent, req.sourceType, req.ts.at));
    if Truthy(req.observed) {
      conn.db := conn.db.(entities := Touched(conn.db.entities, req.observed.value, req.sourceType, req.ts.at));
    }
    conn.Commit();
  }

  // ---- the whole call ----

  function SettledEvidence(req: PublishRequest, eventId: Id): TrustCall {
    var e := TrustEvent(req.ts.at, req.sourceAgent, RELIABILITY, true, 1.0, "publish_settled", Some(eventId));
    TrustCall(e, req.ts.aware)
  }

  function Published(t: Tables, s: Settings, m: TrustModel, req: PublishRequest): (Tables, Result<Id, PublishError>) {
    PublishedIf(t, s, req, VerifyPayload(req), Recorded(t.trust, SettledEvidence(req, t.nextId), m).0)
  }

  /** The call, given the outcome of signature verification and of recording the evidence. */
  function PublishedIf(t: Tables, s: Settings, req: PublishRequest, verified: bool, evidence: TrustTables)
    : (Tables, Result<Id, PublishError>)
  {
    var (gated, passed) := GatedIf(t, s, req, verified);
    if passed.Err? then (gated, Err(passed.error)) else Accepted(gated, s, req, evidence)
  }

  /** A publish that passed the gates: draw the event id, pay and store, record evidence. */
  function Accepted(t: Tables, s: Settings, req: PublishRequest, evidence: TrustTables)
    : (Tables, Result<Id, PublishError>)
  {
    Concluded(PublishTx(Drawn(t), s, req, t.nextId), t.nextId, evidence)
  }

  /** Only a settled purchase becomes reliability evidence; recording it may fail silently. */
  function Concluded(tx: (Tables, Result<Option<Id>, PublishError>), eventId: Id, evidence: TrustTables)
    : (Tables, Result<Id, PublishError>)
  {
    if tx.1.Err? then (tx.0, Err(tx.1.error))
    else (if tx.1.value.Some? then tx.0.(trust := evidence) else tx.0, Ok(eventId))
  }

  method StoreAndRecord(conn: Connection, s: Settings, m: TrustModel, req: PublishRequest)
    returns (r: Result<Id, PublishError>)
    requires conn.saved.None?
    modifies conn
    ensures conn.saved.None?
    ensures var t := old(conn.db);
            (conn.db, r) == Accepted(t, s, req, Recorded(t.trust, SettledEvidence(req, t.nextId), m).0)
  {
    var eventId := conn.db.nextId;
    conn.db := Drawn(conn.db);
    TxLeavesTrust(s, conn.db, req, eventId);
    var creditsTx := RunPublishTx(conn, s, req, eventId);
    if creditsTx.Err? {
      return Err(creditsTx.error);
    }
    if creditsTx.value.Some? {
      var trust := RecordTrustEvent(conn, SettledEvidence(req, eventId), m);
    }
    r := Ok(eventId);
  }

  method ExecutePublish(conn: Connection, s: Settings, m: TrustModel, req: PublishRequest)
    returns (r: Result<Id, PublishError>)
    requires conn.saved.None?
    modifies conn
    ensures (conn.db, r) == Published(old(conn.db), s, m, req) && conn.saved.None?
  {
    var passed := PassGates(conn, s, req);
    if passed.Err? {
      return Err(passed.error);
    }
    assert conn.db == old(conn.db).(identities := conn.db.identities);
    r := StoreAndRecord(conn, s, m, req);
  }
}
