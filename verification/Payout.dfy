/**
 app/trust/payout.py: splitting a publish payment into a listing fee and an escrow, and
 releasing escrows as royalties when a paid query cites the event.
 */
module Payout {
  import opened Common
  import opened OrderedSets
  import opened Database
  import opened Config
  import opened TxLog
  import opened CreditsLedger

  // ---- the split ----

  /** Python's `round` on an exact real: halves go to the even neighbour. */
  function RoundHalfEven(x: real): int {
    var f := x.Floor;
    var d := x - f as real;
    if d < 0.5 then f
    else if d > 0.5 then f + 1
    else if f % 2 == 0 then f else f + 1
  }

  function Min(a: int, b: int): int { if a <= b then a else b }

  function Max(a: int, b: int): int { if a >= b then a else b }

  function ListingFee(reward: int, ratio: real): int {
    Min(reward, Max(1, RoundHalfEven(reward as real * ratio)))
  }

  /** `n` is an integer nearest to `x`, the even one when two are. */
  predicate NearestEven(n: int, x: real) {
    && -0.5 <= n as real - x <= 0.5
    && (n as real - x == 0.5 || n as real - x == -0.5 ==> n % 2 == 0)
  }

  /** Between one credit and the whole reward, the share rounded half to even. */
  predicate IsClampedShare(fee: int, share: real, reward: int) {
    && (share <= 1.0 ==> fee == 1)
    && (share >= reward as real ==> fee == reward)
    && (1.0 <= share <= reward as real ==> NearestEven(fee, share))
  }

  predicate IsListingFee(fee: int, reward: int, ratio: real) {
    IsClampedShare(fee, reward as real * ratio, reward)
  }

  lemma RoundsToNearest(x: real)
    ensures NearestEven(RoundHalfEven(x), x)
  {
  }

  lemma NearestIsUnique(m: int, n: int, x: real)
    requires NearestEven(m, x) && NearestEven(n, x)
    ensures m == n
  {
  }

  lemma ClampedShare(n: int, share: real, reward: int)
    requires reward >= 1 && NearestEven(n, share)
    ensures 1 <= Min(reward, Max(1, n)) <= reward && IsClampedShare(Min(reward, Max(1, n)), share, reward)
  {
  }

  lemma ClampedShareIsUnique(m: int, n: int, share: real, reward: int)
    requires reward >= 1 && IsClampedShare(m, share, reward) && IsClampedShare(n, share, reward)
    ensures m == n
  {
    if 1.0 <= share <= reward as real {
      NearestIsUnique(m, n, share);
    }
  }

  /** Whatever the ratio, the fee is that one number, at least one credit and never more than the reward. */
  lemma ListingFeeExactly(reward: int, ratio: real)
    requires reward >= 1
    ensures 1 <= ListingFee(reward, ratio) <= reward
    ensures forall fee :: IsListingFee(fee, reward, ratio) <==> fee == ListingFee(reward, ratio)
  {
    var share := reward as real * ratio;
    var fee := ListingFee(reward, ratio);
    RoundsToNearest(share);
    ClampedShare(RoundHalfEven(share), share, reward);
    forall other | IsListingFee(other, reward, ratio)
      ensures other == fee
    {
      ClampedShareIsUnique(other, fee, share, reward);
    }
  }

  datatype PublishPayout = PublishPayout(listingFeeTx: Id, listingFee: int, escrowed: int)

  function ListingMove(eventId: Id, seller: Agent, fee: int): Move {
    Move(Some(TREASURY), Some(seller), fee, Reason.ListingFee, Some(eventId), None)
  }

  function OpenEscrow(s: Settings, seller: Agent, amount: int, now: Time): Escrow {
    Escrow(seller, amount, now, now + s.escrowHorizonDays * MICROS_PER_DAY, Open, None, None)
  }

  /** split_publish_payment, inside the caller's transaction. */
  function Split(t: Tables, s: Settings, eventId: Id, seller: Agent, now: Time)
    : (Tables, Result<PublishPayout, LedgerError>)
  {
    var fee := ListingFee(s.publishReward, s.listingFeeRatio);
    var (t1, r) := Moved(t, ListingMove(eventId, seller, fee), s.startingGrant);
    match r
    case Err(e) => (t1, Err(e))
    case Ok(tx) =>
      var escrowed := s.publishReward - fee;
      if escrowed <= 0 then (t1, Ok(PublishPayout(tx, fee, escrowed)))
      else if eventId in t1.escrows then (t1, Err(ConstraintViolation))
      else
        (t1.(escrows := t1.escrows[eventId := OpenEscrow(s, seller, escrowed, now)]),
         Ok(PublishPayout(tx, fee, escrowed)))
  }

  method SplitPublishPayment(conn: Connection, s: Settings, eventId: Id, seller: Agent, now: Time)
    returns (r: Result<PublishPayout, LedgerError>)
    modifies conn
    ensures (conn.db, r) == Split(old(conn.db), s, eventId, seller, now)
    ensures r.Ok? ==> && IsListingFee(r.value.listingFee, s.publishReward, s.listingFeeRatio)
                      && r.value.escrowed == s.publishReward - r.value.listingFee
    ensures conn.saved == old(conn.saved)
  {
    ListingFeeExactly(s.publishReward, s.listingFeeRatio);
    var reward := s.publishReward;
    var fee := ListingFee(reward, s.listingFeeRatio);
    var tx := Transfer(conn, ListingMove(eventId, seller, fee), s.startingGrant);
    if tx.Err? {
      return Err(tx.error);
    }
    var escrowed := reward - fee;
    if escrowed > 0 {
      if eventId in conn.db.escrows {
        return Err(ConstraintViolation);
      }
      conn.db := conn.db.(escrows := conn.db.escrows[eventId := OpenEscrow(s, seller, escrowed, now)]);
    }
    r := Ok(PublishPayout(tx.value, fee, escrowed));
  }

  // ---- the release ----

  datatype Release = Release(eventId: Id, seller: Agent, amount: int, status: EscrowStatus)

  function RoyaltyMove(eventId: Id, e: Escrow, invoiceId: Option<Id>): Move {
    Move(Some(TREASURY), Some(e.seller), e.amount, Royalty, Some(eventId), invoiceId)
  }

  /** One iteration of the loop: skip, expire, or pay. */
  function ReleasedOne(t: Tables, s: Settings, eventId: Id, invoiceId: Option<Id>, now: Time)
    : (Tables, Result<seq<Release>, LedgerError>)
  {
    if eventId !in t.escrows || t.escrows[eventId].status != Open then (t, Ok([]))
    else
      var e := t.escrows[eventId];
      if now > e.expiresTs then
        (t.(escrows := t.escrows[eventId := e.(status := Expired)]),
         Ok([Release(eventId, e.seller, e.amount, Expired)]))
      else
        var (t1, r) := Moved(t, RoyaltyMove(eventId, e, invoiceId), s.startingGrant);
        match r
        case Err(error) => (t1, Err(error))
        case Ok(tx) =>
          (t1.(escrows := t.escrows[eventId := e.(status := Paid, paidTx := Some(tx), paidTs := Some(now))]),
           Ok([Release(eventId, e.seller, e.amount, Paid)]))
  }

  function ReleasedEach(t: Tables, s: Settings, ids: seq<Id>, invoiceId: Option<Id>, now: Time)
    : (Tables, Result<seq<Release>, LedgerError>)
  {
    if ids == [] then (t, Ok([]))
    else
      var (t1, r1) := ReleasedEach(t, s, ids[..|ids| - 1], invoiceId, now);
      if r1.Err? then (t1, r1)
      else
        var (t2, r2) := ReleasedOne(t1, s, ids[|ids| - 1], invoiceId, now);
        if r2.Err? then (t2, r2) else (t2, Ok(r1.value + r2.value))
  }

  /** release_royalties_for_citations. */
  function Released(t: Tables, s: Settings, cited: seq<Id>, invoiceId: Option<Id>, now: Time)
    : (Tables, Result<seq<Release>, LedgerError>)
  {
    Atomic(t, ReleasedEach(t, s, Dedup(cited), invoiceId, now))
  }

  /** app/trust/payout.py:103-161: one transaction over all citations, rolled back as a whole on any error. */
  method ReleaseRoyalties(conn: Connection, s: Settings, cited: seq<Id>, invoiceId: Option<Id>, now: Time)
    returns (r: Result<seq<Release>, LedgerError>)
    requires conn.saved.None?
    modifies conn
    ensures (conn.db, r) == Released(old(conn.db), s, cited, invoiceId, now)
    ensures conn.saved.None?
  {
    if cited == [] {
      return Ok([]);
    }
    conn.Begin();
    var ids := Dedup(cited);
    r := ReleaseLoop(conn, s, ids, invoiceId, now);
    if r.Ok? {
      conn.Commit();
    } else {
      conn.Rollback();
    }
  }

  method ReleaseLoop(conn: Connection, s: Settings, ids: seq<Id>, invoiceId: Option<Id>, now: Time)
    returns (r: Result<seq<Release>, LedgerError>)
    modifies conn
    ensures (conn.db, r) == ReleasedEach(old(conn.db), s, ids, invoiceId, now)
    ensures conn.saved == old(conn.saved)
  {
    var results: seq<Release> := [];
    for i := 0 to |ids|
      invariant (conn.db, Ok(results)) == ReleasedEach(old(conn.db), s, ids[..i], invoiceId, now)
      invariant conn.saved == old(conn.saved)
    {
      var eventId := ids[i];
      EachSnoc(old(conn.db), s, ids[..i], eventId, invoiceId, now);
      EachPrefix(old(conn.db), s, ids[..i + 1], ids[i + 1..], invoiceId, now);
      assert ids[..i + 1] == ids[..i] + [eventId] && ids == ids[..i + 1] + ids[i + 1..];
      if eventId !in conn.db.escrows || conn.db.escrows[eventId].status != Open {
        assert results + [] == results;
        continue;
      }
      var e := conn.db.escrows[eventId];
      if now > e.expiresTs {
        conn.db := conn.db.(escrows := conn.db.escrows[eventId := e.(status := Expired)]);
        results := results + [Release(eventId, e.seller, e.amount, Expired)];
        continue;
      }
      var tx := Transfer(conn, RoyaltyMove(eventId, e, invoiceId), s.startingGrant);
      if tx.Err? {
        return Err(tx.error);
      }
      conn.db := conn.db.(escrows :=
        conn.db.escrows[eventId := e.(status := Paid, paidTx := Some(tx.value), paidTs := Some(now))]);
      results := results + [Release(eventId, e.seller, e.amount, Paid)];
    }
    assert ids[..|ids|] == ids;
    r := Ok(results);
  }

  lemma EachSnoc(t: Tables, s: Settings, ids: seq<Id>, id: Id, invoiceId: Option<Id>, now: Time)
    ensures ReleasedEach(t, s, ids + [id], invoiceId, now)
         == var (t1, r1) := ReleasedEach(t, s, ids, invoiceId, now);
            if r1.Err? then (t1, r1)
            else
              var (t2, r2) := ReleasedOne(t1, s, id, invoiceId, now);
              if r2.Err? then (t2, r2) else (t2, Ok(r1.value + r2.value))
  {
  }

  /** The first error ends the loop. */
  lemma {:induction false} EachPrefix(t: Tables, s: Settings, ids: seq<Id>, more: seq<Id>,
                                      invoiceId: Option<Id>, now: Time)
    ensures ReleasedEach(t, s, ids, invoiceId, now).1.Err? ==>
              ReleasedEach(t, s, ids + more, invoiceId, now) == ReleasedEach(t, s, ids, invoiceId, now)
    decreases |more|
  {
    if more == [] {
      assert ids + more == ids;
    } else {
      var front, last := more[..|more| - 1], more[|more| - 1];
      EachPrefix(t, s, ids, front, invoiceId, now);
      EachSnoc(t, s, ids + front, last, invoiceId, now);
      assert ids + more == (ids + front) + [last];
    }
  }
}
