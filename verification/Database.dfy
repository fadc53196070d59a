/**
 The tables behind one DuckDB connection, and its transactions. Rows are values, tables
 are maps by primary key or append-only sequences. A transaction id is the position of
 its row in the log; other fresh ids are drawn from a counter.
 */
module Database {
  import opened Common
  import opened BetaScores
  import opened Membership

  type Agent = string
  type Id = nat
  /** Microseconds since some origin. */
  type Time = int

  /** A caller's datetime: its instant (a naive one read as UTC), and whether it has an offset. */
  datatype Stamp = Stamp(at: Time, aware: bool)

  const MICROS_PER_SECOND: int := 1_000_000
  const MICROS_PER_DAY: int := 86_400_000_000

  // ---- credits ----

  datatype Reason =
    | PublishReward | QueryPrice | StartingGrant | AdminAdjust
    | ListingFee | Royalty | PoolFee | RefundPayout

  datatype TxOutcome = Applied | RejectedInsufficientFunds

  datatype Tx = Tx(
    txId: Id, from: Option<Agent>, to: Option<Agent>, amount: int, reason: Reason,
    eventId: Option<Id>, invoiceId: Option<Id>, outcome: TxOutcome)

  /** credits_balances and credits_transactions. */
  datatype Ledger = Ledger(balances: map<Agent, int>, txs: seq<Tx>)

  datatype EscrowStatus = Open | Paid | Expired

  datatype Escrow = Escrow(
    seller: Agent, amount: int, createdTs: Time, expiresTs: Time,
    status: EscrowStatus, paidTx: Option<Id>, paidTs: Option<Time>)

  datatype InvoiceStatus = Pending | Settled | Lapsed | Invalidated

  datatype Invoice = Invoice(
    query: string, subject: Option<Agent>, expiry: Time, status: InvoiceStatus,
    creditsTx: Option<Id>, settledAt: Option<Time>)

  datatype ClaimStatus = Filed | Approved | Denied

  datatype Claim = Claim(
    invoiceId: Id, claimant: Agent, status: ClaimStatus, decidedTs: Option<Time>, payoutTx: Option<Id>)

  // ---- history ----

  datatype SourceType = SelfReport | ThirdParty | Mutual

  datatype Event = Event(
    ts: Time, kind: string, sourceAgent: Agent, sourceType: SourceType,
    payloadHash: string, creditsTx: Option<Id>, sellerDid: Option<string>)

  datatype Episode = Episode(
    eventId: Id, observer: Agent, observed: Option<Agent>, kind: string, ts: Time, sourceType: SourceType)

  datatype Entity = Entity(
    sourceType: SourceType, corroborations: int, firstSeen: Time, lastUpdated: Time)

  // ---- trust ----

  datatype ScoreRow = ScoreRow(score: BetaScore, lastUpdate: Time)

  datatype MembershipRow = MembershipRow(
    state: State, violations: int, joinedAt: Time, stateChangedAt: Time)

  datatype TrustEvent = TrustEvent(
    ts: Time, agent: Agent, criterion: string, positive: bool, weight: real,
    cause: string, causeRef: Option<Id>)

  /** trust_ledger, village_registry and trust_events. */
  datatype TrustTables = TrustTables(
    scores: map<(Agent, string), ScoreRow>, members: map<Agent, MembershipRow>, log: seq<TrustEvent>)

  datatype Tables = Tables(
    ledger: Ledger,
    escrows: map<Id, Escrow>,
    invoices: map<Id, Invoice>,
    claims: map<Id, Claim>,
    events: map<Id, Event>,
    episodes: seq<Episode>,
    entities: map<Agent, Entity>,
    identities: map<Agent, string>,
    trust: TrustTables,
    nextId: Id)

  const EMPTY_TABLES: Tables :=
    Tables(Ledger(map[], []), map[], map[], map[], map[], [], map[], map[],
           TrustTables(map[], map[], []), 0)

  /** The shared single-writer connection. BEGIN inside an open transaction is an error. */
  class Connection {
    var db: Tables
    var saved: Option<Tables>

    constructor ()
      ensures db == EMPTY_TABLES && saved == None
    {
      db := EMPTY_TABLES;
      saved := None;
    }

    method Begin()
      requires saved.None?
      modifies this
      ensures db == old(db) && saved == Some(old(db))
    {
      saved := Some(db);
    }

    method Commit()
      requires saved.Some?
      modifies this
      ensures db == old(db) && saved == None
    {
      saved := None;
    }

    method Rollback()
      requires saved.Some?
      modifies this
      ensures db == old(saved).value && saved == None
    {
      db := saved.value;
      saved := None;
    }
  }

  /** `uuid4`: the next fresh id, `t.nextId`, is used up. */
  function Drawn(t: Tables): Tables {
    t.(nextId := t.nextId + 1)
  }

  /** What a transaction leaves: its tables when it succeeded, the old ones otherwise. */
  function Atomic<R, E>(before: Tables, outcome: (Tables, Result<R, E>)): (Tables, Result<R, E>) {
    if outcome.1.Ok? then outcome else (before, outcome.1)
  }
}
