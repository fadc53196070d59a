/**
 app/credits/audit.py: the read-only money audit. Total balances against total minted
 credits, and paid escrows against their royalty transactions.
 */
module CreditsAuditing {
  import opened Common
  import opened Database
  import opened TxLog
  import opened CreditsLedger

  datatype Issue = Mismatch(totalBalance: int, totalMinted: int) | OrphanEscrow(eventId: Id)

  datatype CreditsAudit = CreditsAudit(
    totalBalance: int, totalMinted: int, openLiability: int, balanced: bool, issues: seq<Issue>)

  /** SUM(balance) over the rows of `agents`. */
  ghost function SumBalances(l: Ledger, agents: set<Agent>): int {
    if agents == {} then 0
    else
      var a :| a in agents;
      BalanceOf(l, a) + SumBalances(l, agents - {a})
  }

  lemma {:induction false} SumBalancesWithout(l: Ledger, agents: set<Agent>, a: Agent)
    requires a in agents
    ensures SumBalances(l, agents) == BalanceOf(l, a) + SumBalances(l, agents - {a})
    decreases |agents|
  {
    var b :| b in agents && SumBalances(l, agents) == BalanceOf(l, b) + SumBalances(l, agents - {b});
    if a != b {
      SumBalancesWithout(l, agents - {b}, a);
      SumBalancesWithout(l, agents - {a}, b);
      assert agents - {a} - {b} == agents - {b} - {a};
    }
  }

  /** SUM(amount) over the escrows of `ids`. */
  ghost function SumAmounts(escrows: map<Id, Escrow>, ids: set<Id>): int
    requires ids <= escrows.Keys
  {
    if ids == {} then 0
    else
      var e :| e in ids;
      escrows[e].amount + SumAmounts(escrows, ids - {e})
  }

  lemma {:induction false} SumAmountsWithout(escrows: map<Id, Escrow>, ids: set<Id>, e: Id)
    requires e in ids && ids <= escrows.Keys
    ensures SumAmounts(escrows, ids) == escrows[e].amount + SumAmounts(escrows, ids - {e})
    decreases |ids|
  {
    var f :| f in ids && SumAmounts(escrows, ids) == escrows[f].amount + SumAmounts(escrows, ids - {f});
    if e != f {
      SumAmountsWithout(escrows, ids - {f}, e);
      SumAmountsWithout(escrows, ids - {e}, f);
      assert ids - {e} - {f} == ids - {f} - {e};
    }
  }

  /** The open escrows among `ids`: neither paid nor expired ones are a liability. */
  ghost function OpenAmong(escrows: map<Id, Escrow>, ids: set<Id>): set<Id>
    requires ids <= escrows.Keys
  {
    set e | e in ids && escrows[e].status == Open
  }

  /** The join of app/credits/audit.py:60-65 finds a royalty row with the recorded id. */
  predicate HasRoyaltyRow(l: Ledger, paidTx: Option<Id>) {
    exists i :: 0 <= i < |l.txs| && Some(l.txs[i].txId) == paidTx && l.txs[i].reason == Royalty
  }

  predicate Orphan(db: Tables, e: Id) {
    e in db.escrows && db.escrows[e].status == Paid && !HasRoyaltyRow(db.ledger, db.escrows[e].paidTx)
  }

  method AuditCredits(conn: Connection) returns (r: CreditsAudit)
    ensures r.totalBalance == SumBalances(conn.db.ledger, conn.db.ledger.balances.Keys)
    ensures r.totalMinted == Total(conn.db.ledger.txs, Minted)
    ensures r.openLiability == SumAmounts(conn.db.escrows, OpenAmong(conn.db.escrows, conn.db.escrows.Keys))
    ensures r.balanced <==> r.totalBalance == r.totalMinted
    ensures forall x :: x in r.issues <==>
              || (!r.balanced && x == Mismatch(r.totalBalance, r.totalMinted))
              || (x.OrphanEscrow? && x.eventId in conn.db.escrows && conn.db.escrows[x.eventId].status == Paid
                  && forall tx :: tx in conn.db.ledger.txs && tx.reason == Royalty ==>
                       Some(tx.txId) != conn.db.escrows[x.eventId].paidTx)
  {
    var db := conn.db;
    var totalBalance := 0;
    var rest := db.ledger.balances.Keys;
    while rest != {}
      invariant rest <= db.ledger.balances.Keys
      invariant totalBalance + SumBalances(db.ledger, rest)
             == SumBalances(db.ledger, db.ledger.balances.Keys)
    {
      var a :| a in rest;
      SumBalancesWithout(db.ledger, rest, a);
      totalBalance := totalBalance + db.ledger.balances[a];
      rest := rest - {a};
    }
    var totalMinted := Total(db.ledger.txs, Minted);
    var balanced := totalBalance == totalMinted;
    var issues := if balanced then [] else [Mismatch(totalBalance, totalMinted)];
    var liability, orphans := AuditEscrows(db);
    r := CreditsAudit(totalBalance, totalMinted, liability, balanced, issues + orphans);
  }

  method AuditEscrows(db: Tables) returns (liability: int, orphans: seq<Issue>)
    ensures liability == SumAmounts(db.escrows, OpenAmong(db.escrows, db.escrows.Keys))
    ensures forall x :: x in orphans <==> x.OrphanEscrow? && Orphan(db, x.eventId)
  {
    liability := 0;
    orphans := [];
    var rest := db.escrows.Keys;
    while rest != {}
      invariant rest <= db.escrows.Keys
      invariant liability + SumAmounts(db.escrows, OpenAmong(db.escrows, rest))
             == SumAmounts(db.escrows, OpenAmong(db.escrows, db.escrows.Keys))
      invariant forall x :: x in orphans <==> x.OrphanEscrow? && x.eventId !in rest && Orphan(db, x.eventId)
    {
      var e :| e in rest;
      if db.escrows[e].status == Open {
        SumAmountsWithout(db.escrows, OpenAmong(db.escrows, rest), e);
        assert OpenAmong(db.escrows, rest) - {e} == OpenAmong(db.escrows, rest - {e});
        liability := liability + db.escrows[e].amount;
      } else {
        assert OpenAmong(db.escrows, rest) == OpenAmong(db.escrows, rest - {e});
      }
      if Orphan(db, e) {
        orphans := orphans + [OrphanEscrow(e)];
      }
      rest := rest - {e};
    }
  }

  // ---- when the audit balances ----

  ghost function SumNet(txs: seq<Tx>, agents: set<Agent>): int {
    if agents == {} then 0
    else
      var a :| a in agents;
      Net(txs, a) + SumNet(txs, agents - {a})
  }

  lemma {:induction false} SumNetWithout(txs: seq<Tx>, agents: set<Agent>, a: Agent)
    requires a in agents
    ensures SumNet(txs, agents) == Net(txs, a) + SumNet(txs, agents - {a})
    decreases |agents|
  {
    var b :| b in agents && SumNet(txs, agents) == Net(txs, b) + SumNet(txs, agents - {b});
    if a != b {
      SumNetWithout(txs, agents - {b}, a);
      SumNetWithout(txs, agents - {a}, b);
      assert agents - {a} - {b} == agents - {b} - {a};
    }
  }

  lemma {:induction false} SumNetAppended(txs: seq<Tx>, tx: Tx, agents: set<Agent>)
    ensures SumNet(txs + [tx], agents)
         == SumNet(txs, agents)
          + (if tx.outcome == Applied && tx.to.Some? && tx.to.value in agents then tx.amount else 0)
          - (if tx.outcome == Applied && tx.from.Some? && tx.from.value in agents then tx.amount else 0)
    decreases |agents|
  {
    if agents != {} {
      var a :| a in agents;
      SumNetWithout(txs, agents, a);
      SumNetWithout(txs + [tx], agents, a);
      SumNetAppended(txs, tx, agents - {a});
      Appended(txs, tx, IntoAgent(a));
      Appended(txs, tx, OutOfAgent(a));
    }
  }

  /** Every applied row moves credits between the given agents, or mints, or burns. */
  predicate Within(txs: seq<Tx>, agents: set<Agent>) {
    forall i :: 0 <= i < |txs| && txs[i].outcome == Applied ==>
      && (txs[i].from.Some? ==> txs[i].from.value in agents)
      && (txs[i].to.Some? ==> txs[i].to.value in agents)
  }

  lemma {:induction false} SumNetIsMintedLessBurned(txs: seq<Tx>, agents: set<Agent>)
    requires Within(txs, agents)
    ensures SumNet(txs, agents) == Total(txs, Minted) - Total(txs, Burned)
    decreases |txs|
  {
    if txs == [] {
      SumNetOfNothing(agents);
    } else {
      var front, last := txs[..|txs| - 1], txs[|txs| - 1];
      assert txs == front + [last];
      SumNetIsMintedLessBurned(front, agents);
      SumNetAppended(front, last, agents);
      Appended(front, last, Minted);
      Appended(front, last, Burned);
    }
  }

  lemma {:induction false} SumNetOfNothing(agents: set<Agent>)
    ensures SumNet([], agents) == 0
    decreases |agents|
  {
    if agents != {} {
      var a :| a in agents;
      SumNetWithout([], agents, a);
      SumNetOfNothing(agents - {a});
    }
  }

  lemma {:induction false} SumBalancesIsSumNet(l: Ledger, agents: set<Agent>)
    requires Agrees(l)
    ensures SumBalances(l, agents) == SumNet(l.txs, agents)
    decreases |agents|
  {
    if agents != {} {
      var a :| a in agents;
      assert BalanceOf(l, a) == Net(l.txs, a);
      SumBalancesWithout(l, agents, a);
      SumNetWithout(l.txs, agents, a);
      SumBalancesIsSumNet(l, agents - {a});
    }
  }

  /** Nobody without a row has ever been touched by an applied transaction. */
  ghost predicate Rowed(l: Ledger) {
    Within(l.txs, l.balances.Keys)
  }

  /**
   The audit balances exactly when no applied row burns credits, that is, when every
   transfer named a recipient; `transfer` itself does not insist on one.
   */
  lemma BalancedExactlyWithoutBurns(l: Ledger)
    requires Sound(l) && Rowed(l)
    ensures SumBalances(l, l.balances.Keys) == Total(l.txs, Minted) - Total(l.txs, Burned)
    ensures SumBalances(l, l.balances.Keys) == Total(l.txs, Minted) <==> Select(l.txs, Burned) == []
  {
    SumBalancesIsSumNet(l, l.balances.Keys);
    SumNetIsMintedLessBurned(l.txs, l.balances.Keys);
    BurnsAddUp(l.txs);
  }

  lemma {:induction false} BurnsAddUp(txs: seq<Tx>)
    requires forall i :: 0 <= i < |txs| ==> txs[i].amount > 0
    ensures Total(txs, Burned) >= 0
    ensures Total(txs, Burned) == 0 <==> Select(txs, Burned) == []
    decreases |txs|
  {
    if txs != [] {
      BurnsAddUp(txs[..|txs| - 1]);
    }
  }

  lemma WithinLogged(l: Ledger, mv: Move, outcome: TxOutcome)
    requires Rowed(l)
    requires outcome == Applied ==>
               (mv.from.Some? ==> mv.from.value in l.balances) && (mv.to.Some? ==> mv.to.value in l.balances)
    ensures Within(Logged(l, mv, outcome).txs, l.balances.Keys)
  {
  }

  lemma TransferKeepsRowed(l: Ledger, mv: Move, startingGrant: int)
    requires Rowed(l)
    ensures Rowed(Transferred(l, mv, startingGrant).0)
  {
    if WellFormed(mv) {
      EnsuredKeepsRowed(l, mv.from, startingGrant);
      var (l1, r1) := Ensured(l, mv.from, startingGrant);
      if r1.Ok? {
        EnsuredKeepsRowed(l1, mv.to, startingGrant);
        var (l2, r2) := Ensured(l1, mv.to, startingGrant);
        if r2.Ok? {
          if mv.from.Some? && r1.value < mv.amount {
            WithinLogged(l2, mv, RejectedInsufficientFunds);
          } else {
            WithinLogged(l2, mv, Applied);
            assert Posted(l2, mv).balances.Keys == l2.balances.Keys;
          }
        }
      }
    }
  }

  lemma EnsuredKeepsRowed(l: Ledger, a: Option<Agent>, startingGrant: int)
    requires Rowed(l)
    ensures Rowed(Ensured(l, a, startingGrant).0)
    ensures Ensured(l, a, startingGrant).0.balances.Keys >= l.balances.Keys
    ensures Ensured(l, a, startingGrant).1.Ok? && a.Some? ==> a.value in Ensured(l, a, startingGrant).0.balances
  {
  }

  /**
   A successful transfer from a burn-free ledger keeps the audit balanced exactly when
   the recipient is given.
   */
  lemma TransferBalancesIffRecipient(l: Ledger, mv: Move, startingGrant: int)
    requires Sound(l) && Rowed(l) && Select(l.txs, Burned) == []
    requires Transferred(l, mv, startingGrant).1.Ok?
    ensures var l' := Transferred(l, mv, startingGrant).0;
            SumBalances(l', l'.balances.Keys) == Total(l'.txs, Minted) <==> mv.to.Some?
  {
    TransferKeepsSound(l, mv, startingGrant);
    TransferKeepsRowed(l, mv, startingGrant);
    var l' := Transferred(l, mv, startingGrant).0;
    TransferSelect(l, mv, startingGrant, Burned);
    BalancedExactlyWithoutBurns(l');
  }

  /** Such a transfer exists, on the empty ledger: an agent's first grant, then one credit to nobody. */
  lemma BurnExample(mv: Move, startingGrant: int)
    requires mv == Move(Some("alice"), None, 1, Reason.ListingFee, None, None) && startingGrant >= 1
    ensures var (l, r) := Transferred(Ledger(map[], []), mv, startingGrant);
            r.Ok? && SumBalances(l, l.balances.Keys) == Total(l.txs, Minted) - 1
  {
    var empty := Ledger(map[], []);
    TransferKeepsSound(empty, mv, startingGrant);
    TransferKeepsRowed(empty, mv, startingGrant);
    TransferSelect(empty, mv, startingGrant, Burned);
    BalancedExactlyWithoutBurns(Transferred(empty, mv, startingGrant).0);
  }
}
