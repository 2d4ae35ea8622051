/** Buying, paying and failing to pay: what a failed purchase puts back, what a payment does to every
    balance, and which bids a payment leaves without their money. */
module Payments {
  import opened Schema
  import opened WalletMoves
  import opened Transactions
  import opened MarketInvariant
  import opened DatabaseInvariant
  import opened Service
  import opened Runs
  import opened Finalize
  import opened Outcomes

  // ---------------------------------------------------------------- a purchase that is not paid

  /** The database before the buy-now, but for the end time, the payload and one cancelled order. */
  function Restored(db: Db, aid: AuctionId, user: UserId, price: int, now: Millis): Db
    requires aid in db.market.auctions
  {
    var m, row := db.market, db.market.auctions[aid];
    db.(market := m.(
      auctions := m.auctions[aid := row.(endTime := now + REOPEN_MS, postCloseFinalizePayload := None)],
      orders := m.orders[m.nextOrder := Order(aid, user, price, CANCELLED)],
      nextOrder := m.nextOrder + 1))
  }

  lemma BoughtShape(db: Db, aid: AuctionId, user: UserId, price: int, now: Millis)
    requires DbInv(db) && BuyNow(db, aid, user, price, now).result.Ok?
    ensures IsOpen(db.market, aid)
    ensures var m, m1, o := db.market, BuyNow(db, aid, user, price, now).db.market, db.market.nextOrder;
      && BuyNow(db, aid, user, price, now).db.wallet == db.wallet
      && m1.bids == m.bids && m1.nextOrder == o + 1 && m1.nextAuction == m.nextAuction && m1.uniqueOrder == m.uniqueOrder
      && m1.orders == m.orders[o := Order(aid, user, price, PENDING)]
      && m1.auctions == m.auctions[aid := ClosedRow(m.auctions[aid], Some(user), price, now)]
      && Reopens(m1, BoughtOrder(m, aid, user, price))
  {
  }

  lemma ReopenTakesTop(m: Market, o: OrderRef, now: Millis)
    requires Reopens(m, o) && IsAuctionWinner(m.bids, o)
    ensures var t := LiveBids(m.bids, o.auctionId)[0];
      Live(m.bids, o.auctionId, t) && !Live(ReopenedMarket(m, o, now).bids, o.auctionId, t)
  {
    assert LiveBids(m.bids, o.auctionId)[0] in LiveBids(m.bids, o.auctionId);
  }

  lemma ReopenTakesNothing(m: Market, o: OrderRef, now: Millis)
    requires Reopens(m, o) && !IsAuctionWinner(m.bids, o)
    ensures var m', row := ReopenedMarket(m, o, now), m.auctions[o.auctionId];
      && m'.bids == m.bids
      && m'.auctions[o.auctionId] == ReopenedRow(row, BaselinePrice(m.bids, o, row.startPrice), now)
      && m' == m.(auctions := m.auctions[o.auctionId := m'.auctions[o.auctionId]],
                  orders := m.orders[o.id := m.orders[o.id].(status := CANCELLED)])
  {
  }

  /** A reopening commits or is refused by a CHECK; only a bid of the buyer that leads with the price moves
      money. */
  lemma ReopenShape(db: Db, o: OrderRef, now: Millis)
    requires Reopens(db.market, o)
    ensures var t := ReopenAuction(db, o, now);
      if ReopenRowOk(db.market, o, now) then
        && t.result == Ok(true) && t.db.market == ReopenedMarket(db.market, o, now)
        && (!IsAuctionWinner(db.market.bids, o) ==> t.db.wallet == db.wallet)
      else t == Tx(db, Err(ConstraintViolation))
  {
  }

  /** The price shown is the best live price, or the start price: what `Prices.OpenPriceIsBest` proves of every
      open auction on which no bot's hold failed. */
  predicate ShowsBest(m: Market, aid: AuctionId)
    requires aid in m.auctions
  {
    m.auctions[aid].currentPrice == BestPrice(m.bids, aid, m.auctions[aid].startPrice)
  }

  /** A buy-now whose payment fails or times out restores everything exactly when the buyer did not already
      lead with the buy-now price (that bid would be disqualified and refunded along with the order) and the
      auction showed its best live price, which is what the reopening writes.  It is refused exactly if a live bid
      is above the buy-now price. */
  lemma BuyNowUndone(db: Db, aid: AuctionId, user: UserId, price: int, now: Millis, later: Millis)
    requires DbInv(db) && BuyNow(db, aid, user, price, now).result.Ok?
    ensures var o := BoughtOrder(db.market, aid, user, price);
      var reopened := ReopenAuction(BuyNow(db, aid, user, price, now).db, o, later);
      && (reopened.db == Restored(db, aid, user, price, later) <==>
            !IsAuctionWinner(db.market.bids, o) && ShowsBest(db.market, aid))
      && (reopened.result == Ok(true) <==> !AboveBuyNow(db.market, aid))
  {
    hide DbInv, BuyNow, ReopenAuction, Restored, IsAuctionWinner, ShowsBest, AboveBuyNow, ReopenRowOk;
    BoughtShape(db, aid, user, price, now);
    if IsAuctionWinner(db.market.bids, BoughtOrder(db.market, aid, user, price)) {
      NotUndone(db, aid, user, price, now, later);
    } else {
      UndoneIff(db, aid, user, price, now, later);
    }
    BoughtReopens(db, aid, user, price, now, later);
    ReopenShape(BuyNow(db, aid, user, price, now).db, BoughtOrder(db.market, aid, user, price), later);
  }

  lemma NotUndone(db: Db, aid: AuctionId, user: UserId, price: int, now: Millis, later: Millis)
    requires DbInv(db) && BuyNow(db, aid, user, price, now).result.Ok?
    requires IsAuctionWinner(db.market.bids, BoughtOrder(db.market, aid, user, price))
    ensures ReopenAuction(BuyNow(db, aid, user, price, now).db, BoughtOrder(db.market, aid, user, price), later).db
      != Restored(db, aid, user, price, later)
  {
    hide DbInv, BuyNow, ReopenAuction, RowOk, BaselinePrice, ReopenedMarket;
    BoughtShape(db, aid, user, price, now);
    var db1, o := BuyNow(db, aid, user, price, now).db, BoughtOrder(db.market, aid, user, price);
    ReopenShape(db1, o, later);
    ReopenTakesTop(db1.market, o, later);
  }

  lemma UndoneIff(db: Db, aid: AuctionId, user: UserId, price: int, now: Millis, later: Millis)
    requires DbInv(db) && BuyNow(db, aid, user, price, now).result.Ok?
    requires !IsAuctionWinner(db.market.bids, BoughtOrder(db.market, aid, user, price))
    ensures var reopened :=
        ReopenAuction(BuyNow(db, aid, user, price, now).db, BoughtOrder(db.market, aid, user, price), later).db;
      reopened == Restored(db, aid, user, price, later) <==> ShowsBest(db.market, aid)
  {
    hide BuyNow, ReopenAuction, RowOk, BaselinePrice, ReopenedMarket, ShowsBest, IsAuctionWinner, WalletInv;
    BoughtShape(db, aid, user, price, now);
    var db1, o := BuyNow(db, aid, user, price, now).db, BoughtOrder(db.market, aid, user, price);
    ReopenShape(db1, o, later);
    ReopenTakesNothing(db1.market, o, later);
    assert AuctionInv(db.market, |db.wallet.balance|, aid);
    RestoredRow(db.market, |db.wallet.balance|, o, user, price, now, later);
    var m' := ReopenedMarket(db1.market, o, later);
    var row, row' := db.market.auctions[aid], m'.auctions[aid];
    assert m'.auctions == db.market.auctions[aid := row'];
  }

  /** The row that a reopening writes over a buy-now of somebody who does not lead with its price. */
  lemma RestoredRow(m: Market, users: nat, o: OrderRef, user: UserId, price: int, now: Millis, later: Millis)
    requires o.auctionId in m.auctions && AuctionInv(m, users, o.auctionId) && m.auctions[o.auctionId].status == OPEN
    requires !IsAuctionWinner(m.bids, o)
    ensures var row := m.auctions[o.auctionId];
      var row' := ReopenedRow(ClosedRow(row, Some(user), price, now), BaselinePrice(m.bids, o, row.startPrice), later);
      && (row' == row.(endTime := later + REOPEN_MS, postCloseFinalizePayload := None) <==>
            ShowsBest(m, o.auctionId))
      && (ShowsBest(m, o.auctionId) ==> RowOk(row'))
  {
    assert Coupled(m, o.auctionId);
  }

  /** The auction as it was: row (but for end time and payload) and every bid. */
  ghost predicate AuctionBack(m1: Market, m2: Market, aid: AuctionId) {
    && aid in m1.auctions && aid in m2.auctions
    && SameButPayload(m2.auctions[aid].(endTime := m1.auctions[aid].endTime), m1.auctions[aid])
    && |m1.bids| <= |m2.bids|
    && (forall i :: 0 <= i < |m1.bids| && m1.bids[i].auctionId == aid ==> m2.bids[i] == m1.bids[i])
    && (forall i :: |m1.bids| <= i < |m2.bids| ==> m2.bids[i].auctionId != aid)
  }

  /** The same with any run of the service between the buy-now and the failed payment: as long as the order
      is still pending, the reopening gives the auction back and moves no money, under the same condition. */
  lemma BuyNowUndoneLater(s: Sys, aid: AuctionId, user: UserId, price: int, now: Millis, acts: seq<Action>, later: Millis)
    requires Inv(s) && BuyNow(s.db, aid, user, price, now).result.Ok?
    requires Pending(Exec(Apply(s, Buy(aid, user, price, now)), acts).db.market, s.db.market.nextOrder)
    ensures var o, s2 := BoughtOrder(s.db.market, aid, user, price), Exec(Apply(s, Buy(aid, user, price, now)), acts);
      var reopened := ReopenAuction(s2.db, o, later);
      AuctionBack(s.db.market, reopened.db.market, aid) && reopened.db.wallet == s2.db.wallet <==>
        !IsAuctionWinner(s.db.market.bids, o) && ShowsBest(s.db.market, aid)
  {
    var s1 := Apply(s, Buy(aid, user, price, now));
    ApplyGood(s, Buy(aid, user, price, now));
    RunInv(s1, acts);
    UndoneLater(s.db, aid, user, price, now, Exec(s1, acts).db, later);
  }

  lemma UndoneLater(db: Db, aid: AuctionId, user: UserId, price: int, now: Millis, db2: Db, later: Millis)
    requires DbInv(db) && BuyNow(db, aid, user, price, now).result.Ok?
    requires DbInv(db2) && |db2.wallet.balance| == |db.wallet.balance|
    requires Evolves(BuyNow(db, aid, user, price, now).db.market, db2.market)
    requires Pending(db2.market, db.market.nextOrder)
    ensures var o := BoughtOrder(db.market, aid, user, price);
      var reopened := ReopenAuction(db2, o, later);
      AuctionBack(db.market, reopened.db.market, aid) && reopened.db.wallet == db2.wallet <==>
        !IsAuctionWinner(db.market.bids, o) && ShowsBest(db.market, aid)
  {
    hide Settled, Coupled, BaselinePrice, RowOk, LiveBids, ShowsBest;
    var m, m1, o := db.market, BuyNow(db, aid, user, price, now).db.market, BoughtOrder(db.market, aid, user, price);
    BoughtShape(db, aid, user, price, now);
    assert Untouched(m1, db2.market, aid) by { assert Stands(m1, db2.market, o.id); }
    DecisionFrozen(m1, db2.market, o);
    assert AuctionInv(m, |db.wallet.balance|, aid);
    ReopenShape(db2, o, later);
    BackAgain(m, m1, |db.wallet.balance|, db2.market, o, user, price, now, later);
  }

  lemma BackAgain(m: Market, m1: Market, users: nat, m2: Market, o: OrderRef, user: UserId, price: int,
                  now: Millis, later: Millis)
    requires o.auctionId in m.auctions && AuctionInv(m, users, o.auctionId) && m.auctions[o.auctionId].status == OPEN
    requires m1.bids == m.bids && o.auctionId in m1.auctions
    requires m1.auctions[o.auctionId] == ClosedRow(m.auctions[o.auctionId], Some(user), price, now)
    requires Untouched(m1, m2, o.auctionId) && Reopens(m2, o)
    requires IsAuctionWinner(m2.bids, o) == IsAuctionWinner(m.bids, o)
    ensures AuctionBack(m, ReopenedMarket(m2, o, later), o.auctionId) <==>
      !IsAuctionWinner(m.bids, o) && ShowsBest(m, o.auctionId)
    ensures !IsAuctionWinner(m.bids, o) && ShowsBest(m, o.auctionId) ==> ReopenRowOk(m2, o, later)
  {
    UntouchedViews(m1, m2, o.auctionId);
    if IsAuctionWinner(m.bids, o) {
      ReopenTakesTop(m2, o, later);
    } else {
      ReopenTakesNothing(m2, o, later);
      RestoredRow(m, users, o, user, price, now, later);
      HeadIsMember(LiveBids(m.bids, o.auctionId));
    }
  }

  // ---------------------------------------------------------------- a payment without a hold

  /** What `user` has in live bids on the auction, over the first `n` rows of the bid table. */
  function LivePrices(bids: seq<Bid>, aid: AuctionId, user: UserId, n: nat): int
    requires n <= |bids|
  {
    if n == 0 then 0
    else LivePrices(bids, aid, user, n - 1) +
         if Live(bids, aid, n - 1) && bids[n - 1].userId == user then bids[n - 1].bidPrice else 0
  }

  function PricesOf(bids: seq<Bid>, ids: seq<BidId>, user: UserId): int
    requires Rows(bids, ids)
  {
    if ids == [] then 0
    else (if bids[ids[0]].userId == user then bids[ids[0]].bidPrice else 0) + PricesOf(bids, ids[1..], user)
  }

  lemma {:induction false} PricesOfInsert(bids: seq<Bid>, ids: seq<BidId>, i: BidId, user: UserId)
    requires i < |bids| && Rows(bids, ids) && Rows(bids, InsertByPrice(bids, ids, i))
    ensures PricesOf(bids, InsertByPrice(bids, ids, i), user) ==
      PricesOf(bids, ids, user) + if bids[i].userId == user then bids[i].bidPrice else 0
  {
    if ids == [] {
    } else {
      if bids[ids[0]].bidPrice < bids[i].bidPrice {
        assert ([i] + ids)[1..] == ids;
      } else {
        var rest := InsertByPrice(bids, ids[1..], i);
        assert ([ids[0]] + rest)[1..] == rest;
        forall k | 0 <= k < |rest| ensures rest[k] < |bids| {
          assert ([ids[0]] + rest)[k + 1] == rest[k];
        }
        PricesOfInsert(bids, ids[1..], i, user);
      }
    }
  }

  lemma NoPrices(bids: seq<Bid>, user: UserId)
    ensures PricesOf(bids, [], user) == 0
  {
  }

  lemma LiveNext(bids: seq<Bid>, aid: AuctionId, n: nat)
    requires n < |bids|
    ensures var before := LiveUpTo(bids, aid, n);
      && Rows(bids, InsertByPrice(bids, before, n))
      && LiveUpTo(bids, aid, n + 1) == if Live(bids, aid, n) then InsertByPrice(bids, before, n) else before
  {
    hide InsertByPrice;
    InsertSorts(bids, LiveUpTo(bids, aid, n), n);
  }

  lemma {:induction false} LivePricesUpTo(bids: seq<Bid>, aid: AuctionId, user: UserId, n: nat)
    requires n <= |bids|
    ensures PricesOf(bids, LiveUpTo(bids, aid, n), user) == LivePrices(bids, aid, user, n)
  {
    hide PricesOf, InsertByPrice, LiveUpTo, SortedByPrice;
    if n == 0 {
      NoPrices(bids, user);
      assert LiveUpTo(bids, aid, 0) == [] by { NoneUpTo(bids, aid); }
    } else {
      LivePricesUpTo(bids, aid, user, n - 1);
      LiveNext(bids, aid, n - 1);
      PricesOfInsert(bids, LiveUpTo(bids, aid, n - 1), n - 1, user);
    }
  }

  lemma NoneUpTo(bids: seq<Bid>, aid: AuctionId)
    ensures LiveUpTo(bids, aid, 0) == []
  {
  }

  lemma {:induction false} PricesOfLast(bids: seq<Bid>, ids: seq<BidId>, i: BidId, user: UserId)
    requires Rows(bids, ids) && i < |bids|
    ensures PricesOf(bids, ids + [i], user) ==
      PricesOf(bids, ids, user) + if bids[i].userId == user then bids[i].bidPrice else 0
  {
    if ids == [] {
      assert [] + [i] == [i];
    } else {
      assert (ids + [i])[1..] == ids[1..] + [i];
      PricesOfLast(bids, ids[1..], i, user);
    }
  }

  function ReleaseEntries(ls: seq<LosingBid>): seq<Entry> {
    seq(|ls|, k requires 0 <= k < |ls| => ReleaseEntry(ls[k]))
  }

  /** Releasing bids that were never released: every user gets the prices of the own ones back, and the
      ledger one row for each. */
  lemma {:induction false} ReleaseAllRefunds(bids: seq<Bid>, w: Wallet, ids: seq<BidId>)
    requires Rows(bids, ids)
    requires forall x, y :: 0 <= x < y < |ids| ==> ids[x] != ids[y]
    requires forall k :: 0 <= k < |ids| ==> bids[ids[k]].userId < |w.balance| && Releases(w.ledger, ids[k]) == 0
    ensures var w' := ReleaseAll(w, Listed(bids, ids));
      && w'.ledger == w.ledger + ReleaseEntries(Listed(bids, ids)) && |w'.balance| == |w.balance|
      && forall u :: 0 <= u < |w.balance| ==> w'.balance[u] == w.balance[u] + PricesOf(bids, ids, u)
  {
    hide PricesOf, Releases;
    if ids == [] {
      forall u: UserId ensures PricesOf(bids, ids, u) == 0 {
        NoPrices(bids, u);
      }
    } else {
      var n, ls := |ids| - 1, Listed(bids, ids);
      assert ls[..n] == Listed(bids, ids[..n]);
      ReleaseAllRefunds(bids, w, ids[..n]);
      ReleaseAllElsewhere(w, ls[..n], ids[n]);
      assert ReleaseEntries(ls) == ReleaseEntries(ls[..n]) + [ReleaseEntry(ls[n])];
      forall u | 0 <= u < |w.balance|
        ensures PricesOf(bids, ids, u) ==
          PricesOf(bids, ids[..n], u) + if bids[ids[n]].userId == u then bids[ids[n]].bidPrice else 0
      {
        PricesOfLast(bids, ids[..n], ids[n], u);
        assert ids == ids[..n] + [ids[n]];
      }
    }
  }

  /** The direct payment, to the last coin: the buyer pays once, the seller receives the same amount once,
      every bidder gets back exactly what the live bids withheld, each of these bids is released once and no
      other is, and none stays live.  Without the money nothing happens at all. */
  lemma DirectPayment(db: Db, o: OrderRef, now: Millis)
    requires DbInv(db) && RefOk(db.market, o) && Pending(db.market, o.id) && !IsAuctionWinner(db.market.bids, o)
    ensures var t, bids := PayOrder(db, o, false, now), db.market.bids;
      if !Covers(db.wallet, o.buyerUserId, o.finalPrice) then t == Tx(db, Err(BadRequest))
      else
        && t.result == Ok(()) && LiveBids(t.db.market.bids, o.auctionId) == []
        && |t.db.wallet.balance| == |db.wallet.balance|
        && (forall u :: 0 <= u < |db.wallet.balance| ==>
              t.db.wallet.balance[u] == db.wallet.balance[u] + LivePrices(bids, o.auctionId, u, |bids|)
                - (if u == o.buyerUserId then o.finalPrice else 0) + (if u == o.sellerUserId then o.finalPrice else 0))
        && t.db.wallet.ledger == db.wallet.ledger + [PaymentEntry(o)]
             + ReleaseEntries(Listed(bids, LiveBids(bids, o.auctionId))) + [SettlementEntry(o)]
        && forall i: BidId :: i < |bids| ==>
             Releases(t.db.wallet.ledger, i) ==
               if Live(bids, o.auctionId, i) then 1 else Releases(db.wallet.ledger, i)
  {
    hide LiveBids, LivePrices, ReleaseEntries, Disqualify;
    if Covers(db.wallet, o.buyerUserId, o.finalPrice) {
      var m, w, aid := db.market, db.wallet, o.auctionId;
      PendingMeans(m, |w.balance|, o.id);
      PaidBids(m, o, false, now);
      DirectWallet(m.bids, w, o);
      forall i: BidId | i < |m.bids|
        ensures Releases(PayOrder(db, o, false, now).db.wallet.ledger, i) ==
          if Live(m.bids, aid, i) then 1 else Releases(w.ledger, i)
      {
        DirectReleases(m.bids, w, o, now, i);
      }
    }
  }

  /** The release loop over an auction's live bids. */
  lemma LiveRefunds(bids: seq<Bid>, w: Wallet, aid: AuctionId)
    requires WalletInv(bids, w)
    ensures var ls := Listed(bids, LiveBids(bids, aid));
      var w' := ReleaseAll(w, ls);
      && w'.ledger == w.ledger + ReleaseEntries(ls) && |w'.balance| == |w.balance|
      && forall u :: 0 <= u < |w.balance| ==> w'.balance[u] == w.balance[u] + LivePrices(bids, aid, u, |bids|)
  {
    var live := LiveBids(bids, aid);
    forall k | 0 <= k < |live| ensures bids[live[k]].userId < |w.balance| && Releases(w.ledger, live[k]) == 0 {
      assert live[k] in live;
      LiveUnreleased(bids, w, live[k]);
    }
    ReleaseAllRefunds(bids, w, live);
    forall u: UserId ensures PricesOf(bids, live, u) == LivePrices(bids, aid, u, |bids|) {
      LivePricesUpTo(bids, aid, u, |bids|);
    }
  }

  lemma LiveReleases(bids: seq<Bid>, w: Wallet, aid: AuctionId, now: Millis, i: BidId)
    requires WalletInv(bids, w) && i < |bids|
    requires forall i :: 0 <= i < |bids| && bids[i].auctionId == aid ==> !bids[i].converted
    ensures Releases(ReleaseAll(w, Listed(bids, LiveBids(bids, aid))).ledger, i) ==
      if Live(bids, aid, i) then 1 else Releases(w.ledger, i)
  {
    var live := LiveBids(bids, aid);
    var bids', ls := Disqualify(bids, live, now), Listed(bids, live);
    if i in live {
      AdvanceKeeps(bids, bids', w);
      ListedOk(bids, aid, now);
      ReleaseAllKeeps(bids', w, ls);
      var k :| 0 <= k < |live| && live[k] == i;
      assert ls[k].id == i;
    } else {
      forall k | 0 <= k < |ls| ensures ls[k].id != i { assert live[k] in live; }
      ReleaseAllElsewhere(w, ls, i);
    }
  }

  /** The wallet after `pay`, the release loop and `settleSeller`. */
  function DirectlyPaid(bids: seq<Bid>, w: Wallet, o: OrderRef): Wallet
    requires Covers(w, o.buyerUserId, o.finalPrice)
  {
    SettleSeller(ReleaseAll(Pay(w, o.buyerUserId, o.finalPrice, o.id).value, Listed(bids, LiveBids(bids, o.auctionId))),
                 o.sellerUserId, o.finalPrice, o.id)
  }

  lemma DirectWallet(bids: seq<Bid>, w: Wallet, o: OrderRef)
    requires WalletInv(bids, w) && Covers(w, o.buyerUserId, o.finalPrice)
    ensures var w' := DirectlyPaid(bids, w, o);
      && |w'.balance| == |w.balance|
      && (forall u :: 0 <= u < |w.balance| ==>
            w'.balance[u] == w.balance[u] + LivePrices(bids, o.auctionId, u, |bids|)
              - (if u == o.buyerUserId then o.finalPrice else 0) + (if u == o.sellerUserId then o.finalPrice else 0))
      && w'.ledger == w.ledger + [PaymentEntry(o)] + ReleaseEntries(Listed(bids, LiveBids(bids, o.auctionId)))
           + [SettlementEntry(o)]
  {
    hide LiveBids, ReleaseAll, LivePrices, ReleaseEntries, WalletInv, Wealth, Unexplained;
    PayKeeps(bids, w, o.buyerUserId, o.finalPrice, o.id);
    LiveRefunds(bids, Pay(w, o.buyerUserId, o.finalPrice, o.id).value, o.auctionId);
  }

  lemma DirectReleases(bids: seq<Bid>, w: Wallet, o: OrderRef, now: Millis, i: BidId)
    requires WalletInv(bids, w) && Covers(w, o.buyerUserId, o.finalPrice) && i < |bids|
    requires forall i :: 0 <= i < |bids| && bids[i].auctionId == o.auctionId ==> !bids[i].converted
    ensures Releases(DirectlyPaid(bids, w, o).ledger, i) ==
      if Live(bids, o.auctionId, i) then 1 else Releases(w.ledger, i)
  {
    var w1 := Pay(w, o.buyerUserId, o.finalPrice, o.id).value;
    PayKeeps(bids, w, o.buyerUserId, o.finalPrice, o.id);
    LiveReleases(bids, w1, o.auctionId, now, i);
    OrderEntryFrames(bids, ReleaseAll(w1, Listed(bids, LiveBids(bids, o.auctionId))).ledger, SettlementEntry(o));
  }

  // ---------------------------------------------------------------- which bids a payment leaves withheld

  lemma PlainPaysNothing(s: Sys, a: Action, o: OrderId)
    requires References(s.db.market, |s.db.wallet.balance|) && Plain(a) && Pending(s.db.market, o)
    ensures var m' := Apply(s, a).db.market; o in m'.orders ==> m'.orders[o].status == PENDING
  {
  }

  lemma ClosePaysNothing(s: Sys, t: AuctionId, options: LockOptions, now: Millis, o: OrderId)
    requires References(s.db.market, |s.db.wallet.balance|) && options.statusOpen && Pending(s.db.market, o)
    ensures Pending(CloseBy(s, t, options, now).db.market, o)
  {
    hide ExecuteClose, ClosedMarket;
    CloseByShape(s, t, options, now);
    if t in s.db.market.auctions {
      CloseOrders(s.db.market, t, now);
    }
  }

  lemma JobPaysNothing(s: Sys, a: Action, o: OrderId)
    requires References(s.db.market, |s.db.wallet.balance|) && !Plain(a) && !OnTask(a) && Pending(s.db.market, o)
    ensures var m' := Apply(s, a).db.market; o in m'.orders ==> m'.orders[o].status == PENDING
  {
    hide CloseBy;
    if a.TimedClose? {
      ClosePaysNothing(s, a.aid, OpenUntil(a.now), a.now, o);
    } else if a.AdminClose? {
      ClosePaysNothing(s, a.aid, OpenAny(), a.now, o);
    }
  }

  /** The only way an order becomes PAID: the transaction of `payOrder` for it commits. */
  lemma PaidByCommit(s: Sys, a: Action, o: OrderId)
    requires References(s.db.market, |s.db.wallet.balance|) && Pending(s.db.market, o)
    requires var m' := Apply(s, a).db.market; o in m'.orders && m'.orders[o].status == PAID
    ensures a.Commit? && a.task.Decided? && a.task in s.tasks && a.task.o.id == o
    ensures PayOrder(s.db, a.task.o, a.task.isAuctionWinner, a.now).result.Ok?
  {
    if Plain(a) {
      PlainPaysNothing(s, a, o);
    } else if !OnTask(a) {
      JobPaysNothing(s, a, o);
    }
  }

  /** What the payment of an order does to the bids that were live while it was pending. */
  ghost predicate Outcome(s: Sys, s': Sys, o: OrderRef) {
    forall i: BidId :: Live(s.db.market.bids, o.auctionId, i) ==>
      if IsAuctionWinner(s.db.market.bids, o)
      then Live(s'.db.market.bids, o.auctionId, i) && Releases(s'.db.wallet.ledger, i) == 0
      else i < |s'.db.market.bids| && Releases(s'.db.wallet.ledger, i) == 1
  }

  lemma CommitOutcome(db: Db, o: OrderRef, now: Millis, i: BidId)
    requires DbInv(db) && RefOk(db.market, o) && Pending(db.market, o.id) && Live(db.market.bids, o.auctionId, i)
    requires PayOrder(db, o, IsAuctionWinner(db.market.bids, o), now).result.Ok?
    ensures var db' := PayOrder(db, o, IsAuctionWinner(db.market.bids, o), now).db;
      if IsAuctionWinner(db.market.bids, o) then Live(db'.market.bids, o.auctionId, i)
      else i < |db'.market.bids| && Releases(db'.wallet.ledger, i) == 1
  {
    if IsAuctionWinner(db.market.bids, o) {
      PaidBids(db.market, o, true, now);
      assert i in LiveBids(db.market.bids, o.auctionId);
    } else {
      DirectPayment(db, o, now);
    }
  }

  /** An order that stays pending and is then paid: if the buyer leads with the price, no live bid of the
      auction is ever released; otherwise each one is, once. */
  lemma {:induction false} PaidOutcome(s: Sys, acts: seq<Action>, o: OrderRef)
    requires Inv(s) && RefOk(s.db.market, o) && Pending(s.db.market, o.id)
    requires var m' := Exec(s, acts).db.market; o.id in m'.orders && m'.orders[o.id].status == PAID
    ensures Outcome(s, Exec(s, acts), o)
  {
    var n := |acts| - 1;
    var before, s' := Exec(s, acts[..n]), Exec(s, acts);
    RunInv(s, acts[..n]);
    RunInv(s, acts);
    StepEvolves(before, acts[n]);
    assert o.id in before.db.market.orders;
    if before.db.market.orders[o.id].status == PAID {
      PaidOutcome(s, acts[..n], o);
      OutcomeStays(s, before, acts[n], o);
    } else {
      PaidNow(s, before, acts[n], o);
    }
  }

  lemma StepEvolves(s: Sys, a: Action)
    requires Inv(s)
    ensures Evolves(s.db.market, Apply(s, a).db.market) && Inv(Apply(s, a))
  {
    ApplyGood(s, a);
  }

  lemma OutcomeStays(s: Sys, before: Sys, a: Action, o: OrderRef)
    requires Outcome(s, before, o) && Inv(before) && Inv(Apply(before, a))
    requires Evolves(before.db.market, Apply(before, a).db.market)
    requires RefOk(before.db.market, o) && Stands(before.db.market, Apply(before, a).db.market, o.id)
    ensures Outcome(s, Apply(before, a), o)
  {
    var s' := Apply(before, a);
    LedgerGrows(before, a);
    forall i: BidId | Live(s.db.market.bids, o.auctionId, i)
      ensures if IsAuctionWinner(s.db.market.bids, o)
              then Live(s'.db.market.bids, o.auctionId, i) && Releases(s'.db.wallet.ledger, i) == 0
              else i < |s'.db.market.bids| && Releases(s'.db.wallet.ledger, i) == 1
    {
      if IsAuctionWinner(s.db.market.bids, o) {
        LiveUnreleased(s'.db.market.bids, s'.db.wallet, i);
      } else {
        ReleasesMonotone(before.db.wallet.ledger, s'.db.wallet.ledger, i);
      }
    }
  }

  lemma PaidNow(s: Sys, before: Sys, a: Action, o: OrderRef)
    requires Inv(before) && Inv(Apply(before, a)) && Evolves(s.db.market, before.db.market)
    requires RefOk(s.db.market, o) && RefOk(before.db.market, o)
    requires Pending(s.db.market, o.id) && Pending(before.db.market, o.id)
    requires var m' := Apply(before, a).db.market; o.id in m'.orders && m'.orders[o.id].status == PAID
    ensures Outcome(s, Apply(before, a), o)
  {
    PaidByCommit(before, a, o.id);
    assert TaskOk(before.db.market, a.task);
    assert a.task.o == o;
    DecisionFrozen(s.db.market, before.db.market, o);
    assert Stands(s.db.market, before.db.market, o.id);
    var s' := Apply(before, a);
    forall i: BidId | Live(s.db.market.bids, o.auctionId, i)
      ensures if IsAuctionWinner(s.db.market.bids, o)
              then Live(s'.db.market.bids, o.auctionId, i) && Releases(s'.db.wallet.ledger, i) == 0
              else i < |s'.db.market.bids| && Releases(s'.db.wallet.ledger, i) == 1
    {
      CommitOutcome(before.db, o, a.now, i);
      if IsAuctionWinner(s.db.market.bids, o) {
        LiveUnreleased(s'.db.market.bids, s'.db.wallet, i);
      }
    }
  }

  predicate IsPaid(m: Market, o: OrderId) { o in m.orders && m.orders[o].status == PAID }

  /** A paid buy-now gives every other bidder the money back exactly when the buyer did not already lead with
      the buy-now price, or led alone; otherwise the payment converts that bid's hold and the others' stay
      withheld. */
  lemma BuyNowRefunds(s: Sys, aid: AuctionId, user: UserId, price: int, now: Millis, acts: seq<Action>)
    requires Inv(s) && BuyNow(s.db, aid, user, price, now).result.Ok?
    requires var s1 := Apply(s, Buy(aid, user, price, now));
      IsPaid(Exec(s1, acts).db.market, s.db.market.nextOrder)
    ensures var bids, s2 := s.db.market.bids, Exec(Apply(s, Buy(aid, user, price, now)), acts);
      (forall i: BidId :: Live(bids, aid, i) && bids[i].userId != user ==> Releases(s2.db.wallet.ledger, i) == 1)
      <==> (IsAuctionWinner(bids, BoughtOrder(s.db.market, aid, user, price)) ==>
              forall i: BidId :: Live(bids, aid, i) ==> bids[i].userId == user)
  {
    var s1 := Apply(s, Buy(aid, user, price, now));
    BoughtShape(s.db, aid, user, price, now);
    StepEvolves(s, Buy(aid, user, price, now));
    PaidOutcome(s1, acts, BoughtOrder(s.db.market, aid, user, price));
  }

  /** And they stay so: whatever runs after that payment, the other bidders' holds are never released. */
  lemma BuyNowStrands(s: Sys, aid: AuctionId, user: UserId, price: int, now: Millis, acts: seq<Action>,
                      more: seq<Action>, i: BidId)
    requires Inv(s) && BuyNow(s.db, aid, user, price, now).result.Ok?
    requires var s1 := Apply(s, Buy(aid, user, price, now));
      && IsPaid(Exec(s1, acts).db.market, s.db.market.nextOrder)
    requires IsAuctionWinner(s.db.market.bids, BoughtOrder(s.db.market, aid, user, price))
    requires Live(s.db.market.bids, aid, i)
    ensures Releases(Exec(Exec(Apply(s, Buy(aid, user, price, now)), acts), more).db.wallet.ledger, i) == 0
  {
    var s1, o := Apply(s, Buy(aid, user, price, now)), BoughtOrder(s.db.market, aid, user, price);
    BoughtShape(s.db, aid, user, price, now);
    StepEvolves(s, Buy(aid, user, price, now));
    PaidOutcome(s1, acts, o);
    RunInv(s1, acts);
    assert RefOk(s1.db.market, o);
    PaidStrandsLiveBids(Exec(s1, acts), more, o.id, i);
  }

  /** The order a close creates, joined with its seller. */
  function WonOrder(m: Market, aid: AuctionId, winner: UserId): OrderRef
    requires aid in m.auctions
  {
    OrderRef(m.nextOrder, aid, winner, CloseResultOf(m, aid).finalPrice, m.auctions[aid].sellerUserId)
  }

  /** Right after the close its winner leads with the order's price, with all own bids still live. */
  lemma WinnerLeads(m: Market, users: nat, aid: AuctionId, now: Millis)
    requires References(m, users) && aid in m.auctions && Leader(m.bids, aid).Some?
    ensures var m', o := ClosedMarket(m, aid, now), WonOrder(m, aid, Leader(m.bids, aid).value);
      && RefOk(m', o) && Pending(m', o.id) && IsAuctionWinner(m'.bids, o)
      && forall i: BidId :: Live(m'.bids, aid, i) <==>
           Live(m.bids, aid, i) && Leader(m.bids, aid) == Some(m.bids[i].userId)
  {
    CloseBids(m, aid, now);
    CloseOrders(m, aid, now);
    LeaderIs(m.bids, aid);
    LosersGone(m.bids, ClosedMarket(m, aid, now).bids, aid);
  }

  lemma LosersGone(b1: seq<Bid>, b2: seq<Bid>, aid: AuctionId)
    requires LiveBids(b1, aid) != [] && |b1| == |b2|
    requires forall i :: 0 <= i < |b1| ==> b2[i].bidPrice == b1[i].bidPrice && b2[i].userId == b1[i].userId
    requires forall i: BidId :: Live(b2, aid, i) <==> Live(b1, aid, i) && Leader(b1, aid) == Some(b1[i].userId)
    ensures var live := LiveBids(b2, aid);
      live != [] && b2[live[0]].userId == b1[LiveBids(b1, aid)[0]].userId
      && b2[live[0]].bidPrice == b1[LiveBids(b1, aid)[0]].bidPrice
  {
    var t, live := LiveBids(b1, aid)[0], LiveBids(b2, aid);
    assert t in LiveBids(b1, aid);
    assert t in live;
    assert live[0] in live && live[0] in LiveBids(b1, aid);
    var k :| 0 <= k < |live| && live[k] == t;
    var j :| 0 <= j < |LiveBids(b1, aid)| && LiveBids(b1, aid)[j] == live[0];
  }

  lemma LoserIsListed(m: Market, aid: AuctionId, i: BidId)
    requires aid in m.auctions && Live(m.bids, aid, i) && Leader(m.bids, aid) != Some(m.bids[i].userId)
    ensures Lists(CloseResultOf(m, aid), i)
  {
    var ids := LosingIds(m.bids, LiveBids(m.bids, aid), Leader(m.bids, aid));
    assert i in LiveBids(m.bids, aid) && i in ids;
    var k :| 0 <= k < |ids| && ids[k] == i;
    assert CloseResultOf(m, aid).losingBids[k].id == i;
  }

  lemma ListedAreReleased(s: Sys, r: CloseResult, i: BidId)
    requires Inv(s) && AllReleased(s, r) && Lists(r, i) && i < |s.db.market.bids|
    ensures Releases(s.db.wallet.ledger, i) == 1
  {
  }

  lemma WinnersOwnRemain(s1: Sys, m: Market, aid: AuctionId, now: Millis, acts: seq<Action>, i: BidId)
    requires References(m, |s1.db.wallet.balance|) && aid in m.auctions && Live(m.bids, aid, i)
    requires Leader(m.bids, aid) == Some(m.bids[i].userId)
    requires Inv(s1) && s1.db.market == ClosedMarket(m, aid, now)
    requires IsPaid(Exec(s1, acts).db.market, m.nextOrder)
    ensures Releases(Exec(s1, acts).db.wallet.ledger, i) == 0
  {
    WinnerLeads(m, |s1.db.wallet.balance|, aid, now);
    PaidOutcome(s1, acts, WonOrder(m, aid, m.bids[i].userId));
  }

  /** Close, finalize, pay, in any run: of the bids that were live at the close, the ones still unreleased
      are exactly the winner's own. */
  lemma OnlyWinnersOwnRemain(s: Sys, aid: AuctionId, options: LockOptions, now: Millis, acts: seq<Action>, i: BidId)
    requires Inv(s) && options.statusOpen && Leader(s.db.market.bids, aid).Some?
    requires Locks(s.db.market, aid, options) && ExecuteClose(s.db, aid, options, now).result.Ok?
    requires var s1, r := CloseBy(s, aid, options, now), CloseResultOf(s.db.market, aid);
      && AllReleased(Exec(s1, acts), r)
      && IsPaid(Exec(s1, acts).db.market, s.db.market.nextOrder)
    requires Live(s.db.market.bids, aid, i)
    ensures Releases(Exec(CloseBy(s, aid, options, now), acts).db.wallet.ledger, i) ==
      if Leader(s.db.market.bids, aid) == Some(s.db.market.bids[i].userId) then 0 else 1
  {
    var m, s1 := s.db.market, CloseBy(s, aid, options, now);
    CloseGood(s, aid, options, now, TimedClose(aid, now));
    if Leader(m.bids, aid) == Some(m.bids[i].userId) {
      assert References(m, |s1.db.wallet.balance|);
      WinnersOwnRemain(s1, m, aid, now, acts, i);
    } else {
      RunInv(s1, acts);
      LoserIsListed(m, aid, i);
      ListedAreReleased(Exec(s1, acts), CloseResultOf(m, aid), i);
    }
  }

  /** The state after `payOrder` read its order and the winning bid. */
  function DecidedSys(s: Sys, o: OrderRef): Sys {
    Apply(Apply(s, ReadOrder(o.id, o.buyerUserId)), Decide(Paying(o)))
  }

  lemma DecidedSysIs(s: Sys, o: OrderRef)
    requires Pending(s.db.market, o.id) && s.db.market.orders[o.id].auctionId in s.db.market.auctions
    requires o == OrderRefOf(s.db.market, o.id)
    ensures DecidedSys(s, o).db == s.db && Decided(o, IsAuctionWinner(s.db.market.bids, o)) in DecidedSys(s, o).tasks
  {
  }

  /** The payment's transaction in that state: committed, refused as a conflict, or handed to the reopening. */
  lemma CommitStep(s: Sys, o: OrderRef, winner: bool, now: Millis)
    requires Decided(o, winner) in s.tasks
    ensures var s', tx := Apply(s, Commit(Decided(o, winner), now)), PayOrder(s.db, o, winner, now);
      && s'.db == tx.db
      && (tx.result.Err? && tx.result.error != Conflict ==> Reopening(o) in s'.tasks)
  {
    hide PayOrder;
    FailedPayChangesNothing(s.db, o, winner, now);
  }

  lemma PayReaches(s: Sys, o: OrderRef, now: Millis, later: Millis)
    requires Pending(s.db.market, o.id) && s.db.market.orders[o.id].auctionId in s.db.market.auctions
    requires o == OrderRefOf(s.db.market, o.id)
    ensures var tx := PayOrder(s.db, o, IsAuctionWinner(s.db.market.bids, o), now);
      exists s' :: Reaches(s, s') && s'.db ==
        if tx.result.Err? && tx.result.error != Conflict then ReopenAuction(tx.db, o, later).db else tx.db
  {
    var winner := IsAuctionWinner(s.db.market.bids, o);
    DecidedSysIs(s, o);
    ReachesTwo(s, ReadOrder(o.id, o.buyerUserId), Decide(Paying(o)));
    var s2 := DecidedSys(s, o);
    var s3 := Apply(s2, Commit(Decided(o, winner), now));
    CommitStep(s2, o, winner, now);
    ReachesNext(s, s2, Commit(Decided(o, winner), now));
    var tx := PayOrder(s.db, o, winner, now);
    if tx.result.Err? && tx.result.error != Conflict {
      ReopenStep(s3, o, later);
      ReachesNext(s, s3, Reopen(Reopening(o), later));
    }
  }

  /** `payOrder` without interleaving is a run of the service, so the theorems on runs hold of it. */
  lemma PayRequestIsRun(s: Sys, oid: OrderId, user: UserId, now: Millis, later: Millis)
    ensures exists s' :: Reaches(s, s') && s'.db == PayRequest(s.db, oid, user, now, later).db
  {
    var m := s.db.market;
    if Pending(m, oid) && m.orders[oid].auctionId in m.auctions && m.orders[oid].buyerUserId == user {
      var o := OrderRefOf(m, oid);
      PayReaches(s, o, now, later);
      FailedPayChangesNothing(s.db, o, IsAuctionWinner(m.bids, o), now);
    } else {
      ReachesItself(s);
    }
  }

  /** A payment request that nothing interrupts, in every case.  Without the order, for somebody else's, and for one
      that is not pending it only refuses.  A buyer who leads with the price pays by that hold; another one who has
      the money pays directly; without the money the order is cancelled and the auction open again for an hour, or,
      above the buy-now price, nothing has changed. */
  lemma PayRequestOutcome(db: Db, oid: OrderId, user: UserId, now: Millis, later: Millis)
    requires DbInv(db)
    ensures var m, tx := db.market, PayRequest(db, oid, user, now, later);
      if oid !in m.orders then tx == Tx(db, Err(NotFound))
      else
        var row := m.orders[oid];
        if row.buyerUserId != user then tx == Tx(db, Err(Forbidden))
        else if row.status != PENDING then tx == Tx(db, Err(BadRequest))
        else
          var o := OrderRefOf(m, oid);
          if LeadsAtPrice(m.bids, o) then
            && tx.result == Ok(()) && Moves(db.wallet, tx.db.wallet, o.sellerUserId, o.finalPrice)
            && IsPaid(tx.db.market, oid)
          else if row.finalPrice <= db.wallet.balance[user] then
            tx.result == Ok(()) && PaysDirectly(m, tx.db.market, o, now) && IsPaid(tx.db.market, oid)
          else
            && tx.result == Err(BadRequest) && tx.db.wallet == db.wallet
            && if AboveBuyNow(m, row.auctionId) then tx.db == db
               else
                 && tx.db.market.bids == m.bids && tx.db.market.orders == m.orders[oid := row.(status := CANCELLED)]
                 && row.auctionId in tx.db.market.auctions
                 && var auction := tx.db.market.auctions[row.auctionId];
                    auction.status == OPEN && auction.endTime == later + 3_600_000 && auction.winnerUserId.None?
  {
    hide WalletInv, AuctionInv, LiveBids, PayOrder, ReopenAuction, AboveBuyNow, Leads, DbInv;
    if oid in db.market.orders {
      OrderFound(db, oid);
      if db.market.orders[oid].status == PENDING {
        var o := OrderRefOf(db.market, oid);
        PendingReopenable(db, oid);
        DecisionIs(db.market.bids, o);
        PayResults(db, o, IsAuctionWinner(db.market.bids, o), now);
        if LeadsAtPrice(db.market.bids, o) {
          ConversionOutcome(db, o, now);
        } else {
          ReopenOutcome(db, o, later);
        }
      }
    }
  }

  lemma OrderFound(db: Db, oid: OrderId)
    requires DbInv(db) && oid in db.market.orders
    ensures db.market.orders[oid].auctionId in db.market.auctions
    ensures db.market.orders[oid].buyerUserId < |db.wallet.balance|
    ensures RefOk(db.market, OrderRefOf(db.market, oid))
  {
  }

  lemma PendingReopenable(db: Db, oid: OrderId)
    requires DbInv(db) && Pending(db.market, oid) && db.market.orders[oid].auctionId in db.market.auctions
    ensures Reopenable(db.market, OrderRefOf(db.market, oid))
  {
    PendingMeans(db.market, |db.wallet.balance|, oid);
  }

  lemma FailedPayChangesNothing(db: Db, o: OrderRef, winner: bool, now: Millis)
    ensures PayOrder(db, o, winner, now).result.Err? ==> PayOrder(db, o, winner, now).db == db
  {
  }
}
