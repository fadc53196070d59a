/**
 app/credits/ledger.py: the off-chain credits ledger. Balances are a materialised view
 of the transaction log; first touch mints a starting grant.
 */
module CreditsLedger {
  import opened Common
  import opened Database
  import opened TxLog

  datatype LedgerError = InvalidAgent | InsufficientFunds | ConstraintViolation

  datatype Move = Move(
    from: Option<Agent>, to: Option<Agent>, amount: int, reason: Reason,
    eventId: Option<Id>, invoiceId: Option<Id>)

  /** get_balance: 0 without a row. */
  function BalanceOf(l: Ledger, a: Agent): int {
    if a in l.balances then l.balances[a] else 0
  }

  /** The argument checks of app/credits/ledger.py:144-155. */
  predicate WellFormed(mv: Move) {
    && mv.amount > 0
    && (mv.reason == PublishReward || mv.reason == QueryPrice ==> Truthy(mv.from) && Truthy(mv.to))
    && (mv.from.None? ==> mv.reason == StartingGrant || mv.reason == AdminAdjust)
    && mv.from != Some("") && mv.to != Some("")
  }

  function Logged(l: Ledger, mv: Move, outcome: TxOutcome): Ledger {
    l.(txs := l.txs + [Tx(|l.txs|, mv.from, mv.to, mv.amount, mv.reason, mv.eventId, mv.invoiceId, outcome)])
  }

  /** `b` with `delta` added to the row of `a`, where there is such a row. */
  function Credited(b: map<Agent, int>, a: Option<Agent>, delta: int): map<Agent, int> {
    if a.Some? && a.value in b then b[a.value := b[a.value] + delta] else b
  }

  function Grant(a: Agent, startingGrant: int): Move {
    Move(None, Some(a), startingGrant, StartingGrant, None, None)
  }

  /**
   _ensure_balance. A grant below 1 violates a table constraint: a negative balance
   at once, an amount of 0 when the grant is logged.
   */
  function Ensured(l: Ledger, a: Option<Agent>, startingGrant: int): (Ledger, Result<int, LedgerError>) {
    if a.None? then (l, Ok(0))
    else if a.value in l.balances then (l, Ok(l.balances[a.value]))
    else if startingGrant < 0 then (l, Err(ConstraintViolation))
    else
      var inserted := l.(balances := l.balances[a.value := startingGrant]);
      if startingGrant == 0 then (inserted, Err(ConstraintViolation))
      else (Logged(inserted, Grant(a.value, startingGrant), Applied), Ok(startingGrant))
  }

  /** transfer: what it leaves inside the caller's transaction, and its result. */
  function Transferred(l: Ledger, mv: Move, startingGrant: int): (Ledger, Result<Id, LedgerError>) {
    if !WellFormed(mv) then (l, Err(InvalidAgent))
    else
      var (l1, r1) := Ensured(l, mv.from, startingGrant);
      if r1.Err? then (l1, Err(r1.error))
      else
        var (l2, r2) := Ensured(l1, mv.to, startingGrant);
        if r2.Err? then (l2, Err(r2.error))
        else if mv.from.Some? && r1.value < mv.amount
        then (Logged(l2, mv, RejectedInsufficientFunds), Err(InsufficientFunds))
        else (Posted(l2, mv), Ok(|l2.txs|))
  }

  /** An applied move: money taken, money given, row logged. */
  function Posted(l: Ledger, mv: Move): Ledger {
    Logged(l.(balances := Credited(Credited(l.balances, mv.from, -mv.amount), mv.to, mv.amount)), mv, Applied)
  }

  // ---- the methods ----

  method EnsureBalance(conn: Connection, a: Agent, startingGrant: int) returns (r: Result<int, LedgerError>)
    modifies conn
    ensures (conn.db.ledger, r) == Ensured(old(conn.db.ledger), Some(a), startingGrant)
    ensures conn.db == old(conn.db).(ledger := conn.db.ledger) && conn.saved == old(conn.saved)
  {
    var l := conn.db.ledger;
    if a in l.balances {
      return Ok(l.balances[a]);
    }
    if startingGrant < 0 {
      return Err(ConstraintViolation);
    }
    l := l.(balances := l.balances[a := startingGrant]);
    conn.db := conn.db.(ledger := l);
    if startingGrant == 0 {
      return Err(ConstraintViolation);
    }
    conn.db := conn.db.(ledger := Logged(l, Grant(a, startingGrant), Applied));
    r := Ok(startingGrant);
  }

  /** A transfer seen from the whole database: only the ledger tables change. */
  function Moved(t: Tables, mv: Move, startingGrant: int): (Tables, Result<Id, LedgerError>) {
    var (l, r) := Transferred(t.ledger, mv, startingGrant);
    (t.(ledger := l), r)
  }

  method Transfer(conn: Connection, mv: Move, startingGrant: int) returns (r: Result<Id, LedgerError>)
    modifies conn
    ensures (conn.db, r) == Moved(old(conn.db), mv, startingGrant)
    ensures conn.saved == old(conn.saved)
  {
    if !WellFormed(mv) {
      return Err(InvalidAgent);
    }
    var fromBalance: Option<int> := None;
    if mv.from.Some? {
      var ensured := EnsureBalance(conn, mv.from.value, startingGrant);
      if ensured.Err? {
        return Err(ensured.error);
      }
      fromBalance := Some(ensured.value);
    }
    if mv.to.Some? {
      var ensured := EnsureBalance(conn, mv.to.value, startingGrant);
      if ensured.Err? {
        return Err(ensured.error);
      }
    }
    if fromBalance.Some? && fromBalance.value < mv.amount {
      conn.db := conn.db.(ledger := Logged(conn.db.ledger, mv, RejectedInsufficientFunds));
      return Err(InsufficientFunds);
    }
    var balances := conn.db.ledger.balances;
    if mv.from.Some? {
      balances := balances[mv.from.value := balances[mv.from.value] - mv.amount];
    }
    if mv.to.Some? {
      balances := balances[mv.to.value := balances[mv.to.value] + mv.amount];
    }
    r := Ok(|conn.db.ledger.txs|);
    conn.db := conn.db.(ledger := Logged(conn.db.ledger.(balances := balances), mv, Applied));
  }

  // ---- what every transfer keeps ----

  /** Applied credits in minus applied credits out. */
  function Net(txs: seq<Tx>, a: Agent): int {
    Total(txs, IntoAgent(a)) - Total(txs, OutOfAgent(a))
  }

  ghost predicate Agrees(l: Ledger) {
    forall a: Agent :: BalanceOf(l, a) == Net(l.txs, a)
  }

  predicate NonNegative(l: Ledger) {
    forall a :: a in l.balances ==> l.balances[a] >= 0
  }

  predicate Numbered(l: Ledger) {
    forall i :: 0 <= i < |l.txs| ==> l.txs[i].txId == i && l.txs[i].amount > 0
  }

  /** The invariant of the two credits tables. */
  ghost predicate Sound(l: Ledger) {
    Agrees(l) && NonNegative(l) && Numbered(l)
  }

  lemma LoggedNet(l: Ledger, mv: Move, outcome: TxOutcome, a: Agent)
    ensures Net(Logged(l, mv, outcome).txs, a)
         == Net(l.txs, a) + (if outcome == Applied && mv.to == Some(a) then mv.amount else 0)
                          - (if outcome == Applied && mv.from == Some(a) then mv.amount else 0)
  {
  }

  lemma EnsuredKeepsSound(l: Ledger, a: Option<Agent>, startingGrant: int)
    requires Sound(l)
    ensures Sound(Ensured(l, a, startingGrant).0)
  {
    var l' := Ensured(l, a, startingGrant).0;
    forall b: Agent
      ensures BalanceOf(l', b) == Net(l'.txs, b)
    {
      assert BalanceOf(l, b) == Net(l.txs, b);
      if a.Some? && a.value !in l.balances && startingGrant > 0 {
        LoggedNet(l, Grant(a.value, startingGrant), Applied, b);
      }
    }
  }

  lemma PostedKeepsSound(l: Ledger, mv: Move)
    requires Sound(l) && mv.amount > 0
    requires mv.from.Some? ==> BalanceOf(l, mv.from.value) >= mv.amount
    requires mv.to.Some? ==> mv.to.value in l.balances
    ensures Sound(Posted(l, mv))
  {
    var l' := Posted(l, mv);
    forall b: Agent
      ensures BalanceOf(l', b) == Net(l'.txs, b)
    {
      assert BalanceOf(l, b) == Net(l.txs, b);
      LoggedNet(l, mv, Applied, b);
    }
  }

  lemma RejectedKeepsSound(l: Ledger, mv: Move)
    requires Sound(l) && mv.amount > 0
    ensures Sound(Logged(l, mv, RejectedInsufficientFunds))
  {
    var l' := Logged(l, mv, RejectedInsufficientFunds);
    forall b: Agent
      ensures BalanceOf(l', b) == Net(l'.txs, b)
    {
      assert BalanceOf(l, b) == Net(l.txs, b);
      LoggedNet(l, mv, RejectedInsufficientFunds, b);
    }
  }

  /**
   Whatever the arguments and whether it succeeds or raises, a transfer leaves every
   balance equal to applied credits in minus out, and none negative.
   */
  lemma TransferKeepsSound(l: Ledger, mv: Move, startingGrant: int)
    requires Sound(l)
    ensures Sound(Transferred(l, mv, startingGrant).0)
  {
    if WellFormed(mv) {
      EnsuredKeepsSound(l, mv.from, startingGrant);
      var (l1, r1) := Ensured(l, mv.from, startingGrant);
      if r1.Ok? {
        EnsuredKeepsSound(l1, mv.to, startingGrant);
        var (l2, r2) := Ensured(l1, mv.to, startingGrant);
        if r2.Ok? {
          if mv.from.Some? && r1.value < mv.amount {
            RejectedKeepsSound(l2, mv);
          } else {
            PostedKeepsSound(l2, mv);
          }
        }
      }
    }
  }

  // ---- what a successful transfer adds to the log ----

  function MoveTx(id: Id, mv: Move): Tx {
    Tx(id, mv.from, mv.to, mv.amount, mv.reason, mv.eventId, mv.invoiceId, Applied)
  }

  /** Rows that a starting grant never is. */
  predicate GrantFree(key: Key) {
    !key.IntoAgent? && !key.Minted? && !key.OutOfAgent?
  }

  /** The ledger after both parties' first-touch grants. */
  function Opened(l: Ledger, mv: Move, startingGrant: int): Ledger {
    Ensured(Ensured(l, mv.from, startingGrant).0, mv.to, startingGrant).0
  }

  lemma OkTransfer(l: Ledger, mv: Move, startingGrant: int)
    requires Transferred(l, mv, startingGrant).1.Ok?
    ensures WellFormed(mv)
    ensures Transferred(l, mv, startingGrant).0 == Posted(Opened(l, mv, startingGrant), mv)
    ensures Transferred(l, mv, startingGrant).1.value == |Opened(l, mv, startingGrant).txs|
    ensures var o := Opened(l, mv, startingGrant);
            && (mv.to.Some? ==> mv.to.value in o.balances)
            && (mv.from.Some? ==> mv.from.value in o.balances)
            && l.balances.Keys <= o.balances.Keys
  {
  }

  lemma EnsuredSelect(l: Ledger, a: Option<Agent>, startingGrant: int, key: Key)
    requires GrantFree(key)
    ensures Select(Ensured(l, a, startingGrant).0.txs, key) == Select(l.txs, key)
    ensures Total(Ensured(l, a, startingGrant).0.txs, key) == Total(l.txs, key)
  {
  }

  /** Apart from grants, a successful transfer adds exactly its own row, under the id it returns. */
  lemma TransferSelect(l: Ledger, mv: Move, startingGrant: int, key: Key)
    requires Transferred(l, mv, startingGrant).1.Ok? && GrantFree(key)
    ensures var (l', r) := Transferred(l, mv, startingGrant);
            var tx := MoveTx(r.value, mv);
            && tx in l'.txs
            && Select(l'.txs, key) == Select(l.txs, key) + (if Matches(tx, key) then [tx] else [])
            && Total(l'.txs, key) == Total(l.txs, key) + (if Matches(tx, key) then mv.amount else 0)
  {
    OkTransfer(l, mv, startingGrant);
    var o := Opened(l, mv, startingGrant);
    EnsuredSelect(l, mv.from, startingGrant, key);
    EnsuredSelect(Ensured(l, mv.from, startingGrant).0, mv.to, startingGrant, key);
    Appended(o.txs, MoveTx(|o.txs|, mv), key);
    assert Posted(o, mv).txs[|o.txs|] == MoveTx(|o.txs|, mv);
  }

  // ---- when a transfer succeeds ----

  /** What `a` could pay: its balance, or the grant its first touch would mint. */
  function Spendable(l: Ledger, a: Agent, startingGrant: int): int {
    if a in l.balances then l.balances[a] else startingGrant
  }

  predicate HaveRows(l: Ledger, mv: Move) {
    (mv.from.Some? ==> mv.from.value in l.balances) && (mv.to.Some? ==> mv.to.value in l.balances)
  }

  /**
   A transfer succeeds exactly when its arguments pass, its parties have rows or can be
   granted some, and the sender can pay; then every balance is known in closed form.
   A refused one changes no balance that was there.
   */
  lemma TransferOutcome(l: Ledger, mv: Move, startingGrant: int)
    ensures var (l', r) := Transferred(l, mv, startingGrant);
            var pays := mv.from.Some? ==> Spendable(l, mv.from.value, startingGrant) >= mv.amount;
            var rows := HaveRows(l, mv) || startingGrant >= 1;
            && (r.Ok? <==> WellFormed(mv) && rows && pays)
            && (r == Err(InvalidAgent) <==> !WellFormed(mv))
            && (r == Err(ConstraintViolation) <==> WellFormed(mv) && !rows)
            && (r.Ok? ==> forall a :: a in l'.balances ==>
                  && (a in l.balances || mv.from == Some(a) || mv.to == Some(a))
                  && l'.balances[a] == Spendable(l, a, startingGrant)
                       + (if mv.to == Some(a) then mv.amount else 0) - (if mv.from == Some(a) then mv.amount else 0))
            && (r.Err? ==> forall a :: a in l.balances ==> a in l'.balances && l'.balances[a] == l.balances[a])
  {
  }

  /**
   The arguments a transfer refuses: no amount, an empty name, a missing sender except for
   grants and adjustments, a missing recipient of a reward or a query price.
   */
  lemma RefusedArguments(l: Ledger, mv: Move, startingGrant: int)
    ensures Transferred(l, mv, startingGrant).1 == Err(InvalidAgent) <==>
              || mv.amount <= 0 || mv.from == Some("") || mv.to == Some("")
              || (mv.from == None && mv.reason !in {StartingGrant, AdminAdjust})
              || (mv.to == None && mv.reason in {PublishReward, QueryPrice})
  {
  }

  /** A sender without funds leaves a visible rejection, for the caller to commit or roll back. */
  lemma RejectionIsLogged(l: Ledger, mv: Move, startingGrant: int)
    requires Transferred(l, mv, startingGrant).1 == Err(InsufficientFunds)
    ensures var txs := Transferred(l, mv, startingGrant).0.txs;
            && l.txs <= txs && |l.txs| < |txs|
            && txs[|txs| - 1] == MoveTx(|txs| - 1, mv).(outcome := RejectedInsufficientFunds)
            && forall k :: |l.txs| <= k < |txs| - 1 ==>
                 txs[k].reason == StartingGrant && txs[k].amount == startingGrant && txs[k].outcome == Applied
  {
  }

  /** Between two agents with rows a transfer is decided by the sender's balance alone. */
  lemma TransferBetweenRows(l: Ledger, mv: Move, startingGrant: int)
    requires WellFormed(mv) && mv.from.Some? && mv.to.Some?
    requires mv.from.value in l.balances && mv.to.value in l.balances
    ensures Transferred(l, mv, startingGrant)
         == if BalanceOf(l, mv.from.value) < mv.amount
            then (Logged(l, mv, RejectedInsufficientFunds), Err(InsufficientFunds))
            else (Posted(l, mv), Ok(|l.txs|))
  {
  }

  lemma PostedBalance(l: Ledger, mv: Move, a: Agent)
    requires mv.from.Some? && mv.to.Some?
    requires mv.from.value in l.balances && mv.to.value in l.balances
    ensures Posted(l, mv).balances.Keys == l.balances.Keys
    ensures BalanceOf(Posted(l, mv), a)
         == BalanceOf(l, a) + (if mv.to == Some(a) then mv.amount else 0)
                            - (if mv.from == Some(a) then mv.amount else 0)
  {
  }
}
