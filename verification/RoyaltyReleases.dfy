/**
 What a royalty release does as a whole: when it succeeds, what it pays, and that only
 the set of cited events matters.
 */
module RoyaltyReleases {
  import opened Common
  import opened OrderedSets
  import opened Database
  import opened Config
  import opened CreditsLedger
  import opened Payout

  /** What citing `e` at time `now` makes payable: its amount while open and in time, else 0. */
  function Due(t: Tables, now: Time, e: Id): int {
    if e in t.escrows && t.escrows[e].status == Open && now <= t.escrows[e].expiresTs
    then t.escrows[e].amount else 0
  }

  /** The part of it that goes to `a`. */
  function DueTo(t: Tables, now: Time, e: Id, a: Agent): int {
    if e in t.escrows && t.escrows[e].seller == a then Due(t, now, e) else 0
  }

  ghost function TotalDue(t: Tables, now: Time, ids: set<Id>): int {
    if ids == {} then 0
    else
      var e :| e in ids;
      Due(t, now, e) + TotalDue(t, now, ids - {e})
  }

  ghost function TotalDueTo(t: Tables, now: Time, ids: set<Id>, a: Agent): int {
    if ids == {} then 0
    else
      var e :| e in ids;
      DueTo(t, now, e, a) + TotalDueTo(t, now, ids - {e}, a)
  }

  lemma {:induction false} TotalDueWithout(t: Tables, now: Time, ids: set<Id>, e: Id)
    requires e in ids
    ensures TotalDue(t, now, ids) == Due(t, now, e) + TotalDue(t, now, ids - {e})
    decreases |ids|
  {
    var f :| f in ids && TotalDue(t, now, ids) == Due(t, now, f) + TotalDue(t, now, ids - {f});
    if e != f {
      TotalDueWithout(t, now, ids - {f}, e);
      TotalDueWithout(t, now, ids - {e}, f);
      assert ids - {e} - {f} == ids - {f} - {e};
    }
  }

  lemma {:induction false} TotalDueToWithout(t: Tables, now: Time, ids: set<Id>, a: Agent, e: Id)
    requires e in ids
    ensures TotalDueTo(t, now, ids, a) == DueTo(t, now, e, a) + TotalDueTo(t, now, ids - {e}, a)
    decreases |ids|
  {
    var f :| f in ids && TotalDueTo(t, now, ids, a) == DueTo(t, now, f, a) + TotalDueTo(t, now, ids - {f}, a);
    if e != f {
      TotalDueToWithout(t, now, ids - {f}, a, e);
      TotalDueToWithout(t, now, ids - {e}, a, f);
      assert ids - {e} - {f} == ids - {f} - {e};
    }
  }

  lemma TotalsSnoc(t: Tables, now: Time, ids: seq<Id>, e: Id, a: Agent)
    requires e !in ids
    ensures TotalDue(t, now, Elements(ids + [e])) == TotalDue(t, now, Elements(ids)) + Due(t, now, e)
    ensures TotalDueTo(t, now, Elements(ids + [e]), a)
         == TotalDueTo(t, now, Elements(ids), a) + DueTo(t, now, e, a)
  {
    assert Elements(ids + [e]) - {e} == Elements(ids);
    assert e in Elements(ids + [e]);
    TotalDueWithout(t, now, Elements(ids + [e]), e);
    TotalDueToWithout(t, now, Elements(ids + [e]), a, e);
  }

  /** Whoever has an escrow was paid a listing fee first, so both parties have rows. */
  ghost predicate Funded(t: Tables) {
    && NonNegative(t.ledger)
    && forall e :: e in t.escrows ==>
         && t.escrows[e].amount > 0 && t.escrows[e].seller != ""
         && t.escrows[e].seller in t.ledger.balances && TREASURY in t.ledger.balances
  }

  /** The row of an escrow after a successful release, given whether it was cited. */
  predicate EscrowAfter(x: Escrow, x': Escrow, cited: bool, now: Time) {
    if !cited || x.status != Open then x' == x
    else if now > x.expiresTs then x' == x.(status := Expired)
    else x'.paidTx.Some? && x' == x.(status := Paid, paidTx := x'.paidTx, paidTs := Some(now))
  }

  predicate EscrowsAfter(t: Tables, t': Tables, ids: seq<Id>, now: Time) {
    && t'.escrows.Keys == t.escrows.Keys
    && forall e :: e in t.escrows ==> EscrowAfter(t.escrows[e], t'.escrows[e], e in ids, now)
  }

  ghost predicate BalancesAfter(t: Tables, t': Tables, ids: set<Id>, now: Time) {
    forall a: Agent ::
      BalanceOf(t'.ledger, a)
      == BalanceOf(t.ledger, a) + TotalDueTo(t, now, ids, a) - if a == TREASURY then TotalDue(t, now, ids) else 0
  }

  predicate OnlyMoney(t: Tables, t': Tables) {
    t' == t.(ledger := t'.ledger, escrows := t'.escrows)
  }

  /** The whole effect of releasing `ids`, as seen from the tables before and after. */
  ghost predicate After(t: Tables, t': Tables, ids: seq<Id>, now: Time) {
    && Funded(t') && OnlyMoney(t, t') && t'.ledger.balances.Keys == t.ledger.balances.Keys
    && EscrowsAfter(t, t', ids, now)
    && BalancesAfter(t, t', Elements(ids), now)
  }

  lemma NothingDue(t: Tables, t': Tables, id: Id, now: Time)
    requires Funded(t) && OnlyMoney(t, t') && t'.ledger == t.ledger
    requires EscrowsAfter(t, t', [id], now) && Due(t, now, id) == 0
    ensures After(t, t', [id], now)
  {
  }

  lemma SingleDue(t: Tables, now: Time, id: Id, a: Agent)
    ensures TotalDue(t, now, Elements([id])) == Due(t, now, id)
    ensures TotalDueTo(t, now, Elements([id]), a) == DueTo(t, now, id, a)
  {
    var none: seq<Id> := [];
    TotalsSnoc(t, now, none, id, a);
    assert none + [id] == [id] && Elements(none) == {};
  }

  lemma PaidOne(t: Tables, t': Tables, id: Id, invoiceId: Option<Id>, now: Time)
    requires Funded(t) && id in t.escrows && t.escrows[id].status == Open && now <= t.escrows[id].expiresTs
    requires BalanceOf(t.ledger, TREASURY) >= t.escrows[id].amount
    requires OnlyMoney(t, t') && EscrowsAfter(t, t', [id], now)
    requires t'.ledger == Posted(t.ledger, RoyaltyMove(id, t.escrows[id], invoiceId))
    ensures After(t, t', [id], now)
  {
    var mv := RoyaltyMove(id, t.escrows[id], invoiceId);
    forall a: Agent
      ensures BalanceOf(t'.ledger, a) == BalanceOf(t.ledger, a) + TotalDueTo(t, now, Elements([id]), a)
            - if a == TREASURY then TotalDue(t, now, Elements([id])) else 0
    {
      SingleDue(t, now, id, a);
      PostedBalance(t.ledger, mv, a);
    }
    PostedBalance(t.ledger, mv, TREASURY);
  }

  lemma OneRelease(t: Tables, s: Settings, id: Id, invoiceId: Option<Id>, now: Time)
    requires Funded(t)
    ensures OneReleased(t, id, now, ReleasedOne(t, s, id, invoiceId, now))
  {
    if id in t.escrows && t.escrows[id].status == Open && now <= t.escrows[id].expiresTs {
      OnePayment(t, s, id, invoiceId, now, Moved(t, RoyaltyMove(id, t.escrows[id], invoiceId), s.startingGrant));
    } else {
      NothingDue(t, ReleasedOne(t, s, id, invoiceId, now).0, id, now);
    }
  }

  /** The verdict and effect of one iteration. */
  ghost predicate OneReleased(t: Tables, id: Id, now: Time, out: (Tables, Result<seq<Release>, LedgerError>)) {
    && (out.1.Ok? <==> BalanceOf(t.ledger, TREASURY) >= Due(t, now, id) || Due(t, now, id) == 0)
    && (out.1.Err? ==> out.1.error == InsufficientFunds)
    && (out.1.Ok? ==> After(t, out.0, [id], now))
  }

  lemma OnePayment(t: Tables, s: Settings, id: Id, invoiceId: Option<Id>, now: Time,
                   moved: (Tables, Result<Id, LedgerError>))
    requires Funded(t) && id in t.escrows && t.escrows[id].status == Open && now <= t.escrows[id].expiresTs
    requires moved == Moved(t, RoyaltyMove(id, t.escrows[id], invoiceId), s.startingGrant)
    ensures moved.1.Ok? <==> BalanceOf(t.ledger, TREASURY) >= Due(t, now, id)
    ensures moved.1.Err? ==> moved.1.error == InsufficientFunds
    ensures moved.1.Ok? ==>
              var row := t.escrows[id].(status := Paid, paidTx := Some(moved.1.value), paidTs := Some(now));
              After(t, moved.0.(escrows := t.escrows[id := row]), [id], now)
  {
    TransferBetweenRows(t.ledger, RoyaltyMove(id, t.escrows[id], invoiceId), s.startingGrant);
    if moved.1.Ok? {
      var row := t.escrows[id].(status := Paid, paidTx := Some(moved.1.value), paidTs := Some(now));
      PaidOne(t, moved.0.(escrows := t.escrows[id := row]), id, invoiceId, now);
    }
  }

  /** Releasing one more citation after a release is releasing them together. */
  lemma AfterSnoc(t: Tables, t1: Tables, t2: Tables, front: seq<Id>, id: Id, now: Time)
    requires Funded(t) && id !in front
    requires After(t, t1, front, now) && After(t1, t2, [id], now)
    ensures After(t, t2, front + [id], now)
  {
    var ids := front + [id];
    assert Due(t1, now, id) == Due(t, now, id);
    forall a: Agent
      ensures BalanceOf(t2.ledger, a) == BalanceOf(t.ledger, a) + TotalDueTo(t, now, Elements(ids), a)
            - if a == TREASURY then TotalDue(t, now, Elements(ids)) else 0
    {
      TotalsSnoc(t, now, front, id, a);
      SingleDue(t1, now, id, a);
      assert DueTo(t1, now, id, a) == DueTo(t, now, id, a);
      assert BalanceOf(t1.ledger, a) == BalanceOf(t.ledger, a) + TotalDueTo(t, now, Elements(front), a)
           - if a == TREASURY then TotalDue(t, now, Elements(front)) else 0;
    }
    EscrowsSnoc(t, t1, t2, front, id, now);
  }

  lemma EscrowsSnoc(t: Tables, t1: Tables, t2: Tables, front: seq<Id>, id: Id, now: Time)
    requires id !in front
    requires EscrowsAfter(t, t1, front, now) && EscrowsAfter(t1, t2, [id], now)
    ensures EscrowsAfter(t, t2, front + [id], now)
  {
  }

  lemma {:induction false} EachRelease(t: Tables, s: Settings, ids: seq<Id>, invoiceId: Option<Id>, now: Time)
    requires Funded(t) && Distinct(ids)
    ensures var (t', r) := ReleasedEach(t, s, ids, invoiceId, now);
            && (BalanceOf(t.ledger, TREASURY) >= TotalDue(t, now, Elements(ids)) ==> r.Ok?)
            && (r.Err? ==> r.error == InsufficientFunds)
            && (r.Ok? ==> After(t, t', ids, now))
    decreases |ids|
  {
    if ids == [] {
      assert Elements(ids) == {};
    } else {
      var front, id := ids[..|ids| - 1], ids[|ids| - 1];
      assert ids == front + [id];
      EachRelease(t, s, front, invoiceId, now);
      var (t1, r1) := ReleasedEach(t, s, front, invoiceId, now);
      TotalsSnoc(t, now, front, id, TREASURY);
      DueIsNonNegative(t, now, Elements(front));
      DueIsNonNegative(t, now, Elements(ids));
      if r1.Ok? {
        OneRelease(t1, s, id, invoiceId, now);
        assert Due(t1, now, id) == Due(t, now, id);
        assert BalanceOf(t1.ledger, TREASURY) == BalanceOf(t.ledger, TREASURY)
             + TotalDueTo(t, now, Elements(front), TREASURY) - TotalDue(t, now, Elements(front));
        var (t2, r2) := ReleasedOne(t1, s, id, invoiceId, now);
        if r2.Ok? {
          AfterSnoc(t, t1, t2, front, id, now);
        }
      }
    }
  }

  lemma {:induction false} DueIsNonNegative(t: Tables, now: Time, ids: set<Id>)
    requires Funded(t)
    ensures TotalDue(t, now, ids) >= 0 && forall a :: 0 <= TotalDueTo(t, now, ids, a)
    decreases |ids|
  {
    if ids != {} {
      var e :| e in ids;
      TotalDueWithout(t, now, ids, e);
      DueIsNonNegative(t, now, ids - {e});
      forall a
        ensures 0 <= TotalDueTo(t, now, ids, a)
      {
        TotalDueToWithout(t, now, ids, a, e);
      }
    }
  }

  // ---- the release as a whole ----

  /** No cited escrow that is still open belongs to the treasury itself. */
  predicate NoSelfSale(t: Tables, cited: seq<Id>) {
    forall e :: e in cited && e in t.escrows && t.escrows[e].status == Open ==> t.escrows[e].seller != TREASURY
  }

  /**
   All or nothing, for every list of citations: an error leaves the tables as they were;
   a treasury that covers the sum of what is due always suffices; a success needs at
   least what is due to sellers other than the treasury.
   */
  lemma ReleaseIsAllOrNothing(t: Tables, s: Settings, cited: seq<Id>, invoiceId: Option<Id>, now: Time)
    requires Funded(t)
    ensures var (t', r) := Released(t, s, cited, invoiceId, now);
            var ids := Elements(cited);
            && (r.Err? ==> t' == t && r.error == InsufficientFunds)
            && (r.Ok? ==> After(t, t', Dedup(cited), now))
            && (BalanceOf(t.ledger, TREASURY) >= TotalDue(t, now, ids) ==> r.Ok?)
            && (r.Ok? ==> BalanceOf(t.ledger, TREASURY)
                          >= TotalDue(t, now, ids) - TotalDueTo(t, now, ids, TREASURY))
  {
    FreshIsDistinct(cited, {});
    assert Elements(Dedup(cited)) == Elements(cited);
    EachRelease(t, s, Dedup(cited), invoiceId, now);
    var (t', r) := Released(t, s, cited, invoiceId, now);
    if r.Ok? {
      assert BalanceOf(t'.ledger, TREASURY) >= 0;
      assert BalanceOf(t'.ledger, TREASURY) == BalanceOf(t.ledger, TREASURY)
           + TotalDueTo(t, now, Elements(cited), TREASURY) - TotalDue(t, now, Elements(cited));
    }
  }

  /** At its turn each citation finds enough left after what earlier ones paid to others. */
  ghost predicate CoveredInOrder(t: Tables, now: Time, ids: seq<Id>) {
    forall k :: 0 <= k < |ids| ==> CoveredAt(t, now, ids[..k], ids[k])
  }

  ghost predicate CoveredAt(t: Tables, now: Time, earlier: seq<Id>, id: Id) {
    Due(t, now, id) == 0
    || BalanceOf(t.ledger, TREASURY) - TotalDue(t, now, Elements(earlier))
       + TotalDueTo(t, now, Elements(earlier), TREASURY) >= Due(t, now, id)
  }

  lemma CoveredSnoc(t: Tables, now: Time, front: seq<Id>, id: Id)
    ensures CoveredInOrder(t, now, front + [id])
       <==> CoveredInOrder(t, now, front) && CoveredAt(t, now, front, id)
  {
    var ids := front + [id];
    assert ids[..|front|] == front && ids[|front|] == id;
    assert forall k :: 0 <= k < |front| ==> ids[..k] == front[..k] && ids[k] == front[k];
    if CoveredInOrder(t, now, ids) {
      forall k | 0 <= k < |front|
        ensures CoveredAt(t, now, front[..k], front[k])
      {
        assert CoveredAt(t, now, ids[..k], ids[k]);
      }
      assert CoveredAt(t, now, ids[..|front|], ids[|front|]);
    }
  }

  lemma {:induction false} EachIsCovered(t: Tables, s: Settings, ids: seq<Id>, invoiceId: Option<Id>, now: Time)
    requires Funded(t) && Distinct(ids)
    ensures ReleasedEach(t, s, ids, invoiceId, now).1.Ok? <==> CoveredInOrder(t, now, ids)
    decreases |ids|
  {
    if ids != [] {
      var front, id := ids[..|ids| - 1], ids[|ids| - 1];
      assert ids == front + [id];
      EachIsCovered(t, s, front, invoiceId, now);
      EachRelease(t, s, front, invoiceId, now);
      CoveredSnoc(t, now, front, id);
      var (t1, r1) := ReleasedEach(t, s, front, invoiceId, now);
      if r1.Ok? {
        OneRelease(t1, s, id, invoiceId, now);
        assert Due(t1, now, id) == Due(t, now, id);
        assert BalanceOf(t1.ledger, TREASURY) == BalanceOf(t.ledger, TREASURY)
             + TotalDueTo(t, now, Elements(front), TREASURY) - TotalDue(t, now, Elements(front));
      }
    }
  }

  /** The exact condition of success for every list of citations, self-sales included. */
  lemma SucceedsExactlyInOrder(t: Tables, s: Settings, cited: seq<Id>, invoiceId: Option<Id>, now: Time)
    requires Funded(t)
    ensures Released(t, s, cited, invoiceId, now).1.Ok? <==> CoveredInOrder(t, now, Dedup(cited))
  {
    FreshIsDistinct(cited, {});
    EachIsCovered(t, s, Dedup(cited), invoiceId, now);
  }

  lemma {:induction false} NothingDueToTreasury(t: Tables, now: Time, cited: seq<Id>, ids: set<Id>)
    requires NoSelfSale(t, cited) && ids <= Elements(cited)
    ensures TotalDueTo(t, now, ids, TREASURY) == 0
    decreases |ids|
  {
    if ids != {} {
      var e :| e in ids;
      assert e in cited;
      TotalDueToWithout(t, now, ids, TREASURY, e);
      NothingDueToTreasury(t, now, cited, ids - {e});
    }
  }

  /** When no seller is the treasury, success is exactly "the treasury covers the sum". */
  lemma SucceedsExactlyWhenCovered(t: Tables, s: Settings, cited: seq<Id>, invoiceId: Option<Id>, now: Time)
    requires Funded(t) && NoSelfSale(t, cited)
    ensures Released(t, s, cited, invoiceId, now).1.Ok?
       <==> BalanceOf(t.ledger, TREASURY) >= TotalDue(t, now, Elements(cited))
  {
    ReleaseIsAllOrNothing(t, s, cited, invoiceId, now);
    NothingDueToTreasury(t, now, cited, Elements(cited));
  }

  /** Citing released events again, at any time and for any invoice, changes nothing. */
  lemma ReleaseAgainIsNoOp(t: Tables, s: Settings, cited: seq<Id>, invoiceId: Option<Id>, now: Time,
                           again: seq<Id>, laterInvoice: Option<Id>, later: Time)
    requires Funded(t) && Elements(again) <= Elements(cited)
    requires Released(t, s, cited, invoiceId, now).1.Ok?
    ensures var t' := Released(t, s, cited, invoiceId, now).0;
            Released(t', s, again, laterInvoice, later) == (t', Ok([]))
  {
    ReleaseIsAllOrNothing(t, s, cited, invoiceId, now);
    var t' := Released(t, s, cited, invoiceId, now).0;
    forall e | e in Dedup(again)
      ensures !(e in t'.escrows && t'.escrows[e].status == Open)
    {
      assert e in Elements(again);
      assert e in Dedup(cited);
      if e in t'.escrows {
        assert EscrowAfter(t.escrows[e], t'.escrows[e], e in Dedup(cited), now);
      }
    }
    NothingOpen(t', s, Dedup(again), laterInvoice, later);
  }

  lemma {:induction false} NothingOpen(t: Tables, s: Settings, ids: seq<Id>, invoiceId: Option<Id>, now: Time)
    requires forall e :: e in ids ==> !(e in t.escrows && t.escrows[e].status == Open)
    ensures ReleasedEach(t, s, ids, invoiceId, now) == (t, Ok([]))
    decreases |ids|
  {
    if ids != [] {
      var front, last := ids[..|ids| - 1], ids[|ids| - 1];
      NothingOpen(t, s, front, invoiceId, now);
      assert last in ids;
      var none: seq<Release> := [];
      assert ReleasedOne(t, s, last, invoiceId, now) == (t, Ok(none));
      assert none + none == none;
    }
  }

  // ---- the report returned ----

  /** One line per cited escrow that was open, in citation order. */
  function Report(t: Tables, ids: seq<Id>, now: Time): seq<Release> {
    if ids == [] then []
    else
      var front, e := Report(t, ids[..|ids| - 1], now), ids[|ids| - 1];
      if e !in t.escrows || t.escrows[e].status != Open then front
      else
        front + [Release(e, t.escrows[e].seller, t.escrows[e].amount,
                         if now > t.escrows[e].expiresTs then Expired else Paid)]
  }

  lemma {:induction false} ReleaseReports(t: Tables, s: Settings, ids: seq<Id>, invoiceId: Option<Id>, now: Time)
    requires Funded(t) && Distinct(ids) && ReleasedEach(t, s, ids, invoiceId, now).1.Ok?
    ensures ReleasedEach(t, s, ids, invoiceId, now).1.value == Report(t, ids, now)
    decreases |ids|
  {
    if ids != [] {
      var front, id := ids[..|ids| - 1], ids[|ids| - 1];
      ReleaseReports(t, s, front, invoiceId, now);
      EachRelease(t, s, front, invoiceId, now);
      var (t1, r1) := ReleasedEach(t, s, front, invoiceId, now);
      assert id !in front;
      if id in t.escrows {
        assert EscrowAfter(t.escrows[id], t1.escrows[id], id in front, now);
      }
    }
  }

  // ---- when the order of citations decides ----

  /** What the treasury owes to others among `ids`. */
  ghost function DueToOthers(t: Tables, now: Time, ids: set<Id>): int {
    TotalDue(t, now, ids) - TotalDueTo(t, now, ids, TREASURY)
  }

  /** The largest amount the treasury owes itself among `ids`, 0 if none. */
  ghost function LargestOwn(t: Tables, now: Time, ids: set<Id>): int {
    if ids == {} then 0
    else
      var e :| e in ids;
      Max(DueTo(t, now, e, TREASURY), LargestOwn(t, now, ids - {e}))
  }

  lemma {:induction false} LargestOwnIsReached(t: Tables, now: Time, ids: set<Id>)
    requires Funded(t)
    ensures IsLargestOwn(t, now, ids, LargestOwn(t, now, ids))
    decreases |ids|
  {
    if ids != {} {
      var e :| e in ids && LargestOwn(t, now, ids)
                           == Max(DueTo(t, now, e, TREASURY), LargestOwn(t, now, ids - {e}));
      LargestOwnIsReached(t, now, ids - {e});
      LargestOfMore(t, now, ids, e, LargestOwn(t, now, ids - {e}));
    }
  }

  ghost predicate IsLargestOwn(t: Tables, now: Time, ids: set<Id>, most: int) {
    && most >= 0
    && (forall e :: e in ids ==> DueTo(t, now, e, TREASURY) <= most)
    && (most == 0 || exists e :: e in ids && DueTo(t, now, e, TREASURY) == most)
  }

  lemma LargestOfMore(t: Tables, now: Time, ids: set<Id>, e: Id, most: int)
    requires e in ids && IsLargestOwn(t, now, ids - {e}, most)
    ensures IsLargestOwn(t, now, ids, Max(DueTo(t, now, e, TREASURY), most))
  {
    forall f | f in ids
      ensures DueTo(t, now, f, TREASURY) <= Max(DueTo(t, now, e, TREASURY), most)
    {
      assert f == e || f in ids - {e};
    }
    if most > DueTo(t, now, e, TREASURY) && most > 0 {
      var f :| f in ids - {e} && DueTo(t, now, f, TREASURY) == most;
      assert f in ids;
    }
  }

  lemma {:induction false} FewerOweLess(t: Tables, now: Time, some: set<Id>, ids: set<Id>)
    requires Funded(t) && some <= ids
    ensures 0 <= DueToOthers(t, now, some) <= DueToOthers(t, now, ids)
    decreases |ids|
  {
    if ids != {} {
      var e :| e in ids;
      TotalDueWithout(t, now, ids, e);
      TotalDueToWithout(t, now, ids, TREASURY, e);
      if e in some {
        TotalDueWithout(t, now, some, e);
        TotalDueToWithout(t, now, some, TREASURY, e);
        FewerOweLess(t, now, some - {e}, ids - {e});
      } else {
        FewerOweLess(t, now, some, ids - {e});
      }
    }
  }

  lemma OneMoreToOthers(t: Tables, now: Time, ids: set<Id>, e: Id)
    requires e !in ids
    ensures DueToOthers(t, now, ids + {e}) == DueToOthers(t, now, ids) + Due(t, now, e) - DueTo(t, now, e, TREASURY)
  {
    assert ids + {e} - {e} == ids;
    TotalDueWithout(t, now, ids + {e}, e);
    TotalDueToWithout(t, now, ids + {e}, TREASURY, e);
  }

  lemma {:induction false} OwnOweNothing(t: Tables, now: Time, ids: set<Id>)
    requires forall e :: e in ids ==> Due(t, now, e) == DueTo(t, now, e, TREASURY)
    ensures DueToOthers(t, now, ids) == 0
    decreases |ids|
  {
    if ids != {} {
      var e :| e in ids;
      TotalDueWithout(t, now, ids, e);
      TotalDueToWithout(t, now, ids, TREASURY, e);
      OwnOweNothing(t, now, ids - {e});
    }
  }

  /** Enough for all others, and at each of its own turns enough for that one: covered. */
  lemma CoveredByParts(t: Tables, now: Time, ids: seq<Id>)
    requires Funded(t) && Distinct(ids)
    requires BalanceOf(t.ledger, TREASURY) >= DueToOthers(t, now, Elements(ids))
    requires forall k :: 0 <= k < |ids| ==> OwnCoveredAt(t, now, ids[..k], ids[k])
    ensures CoveredInOrder(t, now, ids)
  {
    forall k | 0 <= k < |ids|
      ensures CoveredAt(t, now, ids[..k], ids[k])
    {
      var earlier, id := Elements(ids[..k]), ids[k];
      assert OwnCoveredAt(t, now, ids[..k], id);
      assert id !in earlier;
      OneMoreToOthers(t, now, earlier, id);
      FewerOweLess(t, now, earlier + {id}, Elements(ids));
    }
  }

  ghost predicate OwnCoveredAt(t: Tables, now: Time, earlier: seq<Id>, id: Id) {
    var own := DueTo(t, now, id, TREASURY);
    own == 0 || BalanceOf(t.ledger, TREASURY) >= DueToOthers(t, now, Elements(earlier)) + own
  }

  lemma {:induction false} InSomeOrder(ids: set<Id>) returns (order: seq<Id>)
    ensures Distinct(order) && Elements(order) == ids
    decreases |ids|
  {
    if ids == {} {
      order := [];
    } else {
      var e :| e in ids;
      var rest := InSomeOrder(ids - {e});
      order := rest + [e];
      assert Elements(order) == Elements(rest) + {e};
    }
  }

  lemma JoinedOrder(a: seq<Id>, b: seq<Id>)
    requires Distinct(a) && Distinct(b) && Elements(a) !! Elements(b)
    ensures Distinct(a + b) && Elements(a + b) == Elements(a) + Elements(b)
  {
    forall i, j | 0 <= i < j < |a + b|
      ensures (a + b)[i] != (a + b)[j]
    {
      assert (a + b)[i] in Elements(a) || (a + b)[i] in Elements(b);
      assert j >= |a| ==> (a + b)[j] in Elements(b);
    }
  }

  /** Whatever the order: the treasury covers what it owes others, and then still its largest own due. */
  ghost predicate EveryOrderSucceeds(t: Tables, now: Time, ids: set<Id>) {
    BalanceOf(t.ledger, TREASURY) >= DueToOthers(t, now, ids) + LargestOwn(t, now, ids)
  }

  /** In the best order: the treasury covers what it owes others, and each of its own dues before. */
  ghost predicate SomeOrderSucceeds(t: Tables, now: Time, ids: set<Id>) {
    BalanceOf(t.ledger, TREASURY) >= Max(DueToOthers(t, now, ids), LargestOwn(t, now, ids))
  }

  lemma AnyOrderIsCovered(t: Tables, now: Time, order: seq<Id>)
    requires Funded(t) && Distinct(order) && EveryOrderSucceeds(t, now, Elements(order))
    ensures CoveredInOrder(t, now, order)
  {
    LargestOwnIsReached(t, now, Elements(order));
    forall k | 0 <= k < |order|
      ensures OwnCoveredAt(t, now, order[..k], order[k])
    {
      assert order[k] in Elements(order);
      FewerOweLess(t, now, Elements(order[..k]), Elements(order));
    }
    CoveredByParts(t, now, order);
  }

  lemma CoveredNeeds(t: Tables, s: Settings, order: seq<Id>, now: Time)
    requires Funded(t) && Distinct(order) && CoveredInOrder(t, now, order)
    ensures SomeOrderSucceeds(t, now, Elements(order))
  {
    LargestOwnIsReached(t, now, Elements(order));
    DedupOfDistinct(order);
    SucceedsExactlyInOrder(t, s, order, None, now);
    ReleaseIsAllOrNothing(t, s, order, None, now);
    LargestOwnCovered(t, order, now);
  }

  /** The treasury's largest own due is covered at its turn, so it is covered at all. */
  lemma LargestOwnCovered(t: Tables, order: seq<Id>, now: Time)
    requires Funded(t) && CoveredInOrder(t, now, order)
    ensures LargestOwn(t, now, Elements(order)) > 0 ==>
              BalanceOf(t.ledger, TREASURY) >= LargestOwn(t, now, Elements(order))
  {
    LargestOwnIsReached(t, now, Elements(order));
    if LargestOwn(t, now, Elements(order)) > 0 {
      var e :| e in Elements(order) && DueTo(t, now, e, TREASURY) == LargestOwn(t, now, Elements(order));
      var k :| 0 <= k < |order| && order[k] == e;
      assert CoveredAt(t, now, order[..k], order[k]);
      FewerOweLess(t, now, Elements(order[..k]), Elements(order));
    }
  }

  /** The treasury's own escrows first, the others after: the best order. */
  lemma BestOrder(t: Tables, now: Time, ids: set<Id>) returns (order: seq<Id>)
    requires Funded(t) && SomeOrderSucceeds(t, now, ids)
    ensures Distinct(order) && Elements(order) == ids && CoveredInOrder(t, now, order)
  {
    var own := set e | e in ids && Due(t, now, e) == DueTo(t, now, e, TREASURY);
    var first := InSomeOrder(own);
    var others := InSomeOrder(ids - own);
    JoinedOrder(first, others);
    order := first + others;
    assert Elements(order) == ids;
    LargestOwnIsReached(t, now, ids);
    forall k | 0 <= k < |order|
      ensures OwnCoveredAt(t, now, order[..k], order[k])
    {
      assert order[k] in Elements(order);
      if k < |first| {
        assert order[..k] == first[..k];
        assert forall e :: e in Elements(first[..k]) ==> e in own;
        OwnOweNothing(t, now, Elements(first[..k]));
      } else {
        assert order[k] in Elements(others);
      }
    }
    CoveredByParts(t, now, order);
  }

  /** The largest own escrow last, after everything else was paid: the worst order. */
  lemma WorstOrder(t: Tables, s: Settings, ids: set<Id>, now: Time) returns (order: seq<Id>)
    requires Funded(t) && !EveryOrderSucceeds(t, now, ids)
    ensures Distinct(order) && Elements(order) == ids && !CoveredInOrder(t, now, order)
  {
    LargestOwnIsReached(t, now, ids);
    if LargestOwn(t, now, ids) == 0 {
      order := InSomeOrder(ids);
      if CoveredInOrder(t, now, order) {
        CoveredNeeds(t, s, order, now);
      }
    } else {
      var last :| last in ids && DueTo(t, now, last, TREASURY) == LargestOwn(t, now, ids);
      var rest := InSomeOrder(ids - {last});
      order := rest + [last];
      assert Elements(order) == ids - {last} + {last} == ids;
      OneMoreToOthers(t, now, ids - {last}, last);
      assert order[..|rest|] == rest && order[|rest|] == last;
      assert !CoveredAt(t, now, order[..|rest|], order[|rest|]);
    }
  }

  ghost predicate Succeeds(t: Tables, s: Settings, cited: seq<Id>, now: Time) {
    Released(t, s, cited, None, now).1.Ok?
  }

  /** Two orders of the same events disagree. */
  ghost predicate OrderDecides(t: Tables, s: Settings, ids: set<Id>, now: Time) {
    exists one: seq<Id>, two: seq<Id> ::
      Elements(one) == ids && Elements(two) == ids && Succeeds(t, s, one, now) && !Succeeds(t, s, two, now)
  }

  /** Any list of citations succeeds if every order does, and only if some order does. */
  lemma VerdictBounds(t: Tables, s: Settings, cited: seq<Id>, invoiceId: Option<Id>, now: Time)
    requires Funded(t)
    ensures EveryOrderSucceeds(t, now, Elements(cited)) ==> Released(t, s, cited, invoiceId, now).1.Ok?
    ensures Released(t, s, cited, invoiceId, now).1.Ok? ==> SomeOrderSucceeds(t, now, Elements(cited))
    ensures Released(t, s, cited, invoiceId, now).1.Ok? == Succeeds(t, s, cited, now)
  {
    FreshIsDistinct(cited, {});
    assert Elements(Dedup(cited)) == Elements(cited);
    SucceedsExactlyInOrder(t, s, cited, invoiceId, now);
    SucceedsExactlyInOrder(t, s, cited, None, now);
    if EveryOrderSucceeds(t, now, Elements(cited)) {
      AnyOrderIsCovered(t, now, Dedup(cited));
    }
    if CoveredInOrder(t, now, Dedup(cited)) {
      CoveredNeeds(t, s, Dedup(cited), now);
    }
  }

  /**
   For every set of cited events: the order of citations decides exactly when the treasury
   covers both what it owes others and its largest own due, but not the two together.
   */
  lemma SelfSaleOrderMatters(t: Tables, s: Settings, ids: set<Id>, now: Time)
    requires Funded(t)
    ensures OrderDecides(t, s, ids, now) <==> SomeOrderSucceeds(t, now, ids) && !EveryOrderSucceeds(t, now, ids)
  {
    if SomeOrderSucceeds(t, now, ids) && !EveryOrderSucceeds(t, now, ids) {
      var best := BestOrder(t, now, ids);
      var worst := WorstOrder(t, s, ids, now);
      VerdictOf(t, s, best, now);
      VerdictOf(t, s, worst, now);
    }
    if OrderDecides(t, s, ids, now) {
      var one: seq<Id>, two: seq<Id> :|
        Elements(one) == ids && Elements(two) == ids && Succeeds(t, s, one, now) && !Succeeds(t, s, two, now);
      VerdictBounds(t, s, one, None, now);
      VerdictBounds(t, s, two, None, now);
    }
  }

  lemma VerdictOf(t: Tables, s: Settings, order: seq<Id>, now: Time)
    requires Funded(t) && Distinct(order)
    ensures Succeeds(t, s, order, now) <==> CoveredInOrder(t, now, order)
  {
    DedupOfDistinct(order);
    SucceedsExactlyInOrder(t, s, order, None, now);
  }

  /**
   Order and repeats of the citations do not matter, exactly when the order does not
   decide: same verdict, same money, same escrows.
   */
  lemma OnlyTheSetMatters(t: Tables, s: Settings, one: seq<Id>, two: seq<Id>, i: Option<Id>, j: Option<Id>, now: Time)
    requires Funded(t) && Elements(one) == Elements(two)
    requires EveryOrderSucceeds(t, now, Elements(one)) || !SomeOrderSucceeds(t, now, Elements(one))
    ensures SameRelease(t, s, one, two, i, j, now)
  {
    VerdictBounds(t, s, one, i, now);
    VerdictBounds(t, s, two, j, now);
    AgreeWhenVerdictsDo(t, s, one, two, i, j, now);
  }

  ghost predicate SameRelease(t: Tables, s: Settings, one: seq<Id>, two: seq<Id>,
                              i: Option<Id>, j: Option<Id>, now: Time)
  {
    var (t1, r1) := Released(t, s, one, i, now);
    var (t2, r2) := Released(t, s, two, j, now);
    && (r1.Ok? <==> r2.Ok?)
    && (forall a :: BalanceOf(t1.ledger, a) == BalanceOf(t2.ledger, a))
    && t1.escrows.Keys == t2.escrows.Keys
    && (forall e :: e in t1.escrows ==> t1.escrows[e].(paidTx := None) == t2.escrows[e].(paidTx := None))
    && OnlyMoney(t1, t2)
  }

  /** Two lists of the same events with the same verdict leave the same money and escrows. */
  lemma AgreeWhenVerdictsDo(t: Tables, s: Settings, one: seq<Id>, two: seq<Id>, i: Option<Id>, j: Option<Id>, now: Time)
    requires Funded(t) && Elements(one) == Elements(two)
    requires Released(t, s, one, i, now).1.Ok? == Released(t, s, two, j, now).1.Ok?
    ensures SameRelease(t, s, one, two, i, j, now)
  {
    ReleaseIsAllOrNothing(t, s, one, i, now);
    ReleaseIsAllOrNothing(t, s, two, j, now);
    var (t1, r1) := Released(t, s, one, i, now);
    var (t2, r2) := Released(t, s, two, j, now);
    if r1.Ok? {
      assert Elements(Dedup(one)) == Elements(one) && Elements(Dedup(two)) == Elements(two);
      forall e | e in t1.escrows
        ensures t1.escrows[e].(paidTx := None) == t2.escrows[e].(paidTx := None)
      {
        assert e in one <==> e in Elements(one);
        assert e in two <==> e in Elements(two);
        assert EscrowAfter(t.escrows[e], t1.escrows[e], e in Dedup(one), now);
        assert EscrowAfter(t.escrows[e], t2.escrows[e], e in Dedup(two), now);
      }
    }
  }
}
