/** What each transaction comes to: its result or error in every case, the rows column by column, the balances
    coin by coin, in the numbers of the program.  Nothing here is said through the functions that compute it. */
module Outcomes {
  import opened Schema
  import opened WalletMoves
  import opened Transactions
  import opened MarketInvariant
  import opened DatabaseInvariant

  // ---------------------------------------------------------------- vocabulary

  /** One user's balance moves by `amount`, the others stand. */
  predicate Moves(w: Wallet, w': Wallet, user: UserId, amount: int) {
    && |w'.balance| == |w.balance|
    && forall u: UserId :: u < |w.balance| ==> w'.balance[u] == w.balance[u] + if u == user then amount else 0
  }

  /** Nothing but the row of `aid` changes. */
  predicate RowSet(m: Market, m': Market, aid: AuctionId, row: Auction) {
    aid in m.auctions && m' == m.(auctions := m.auctions[aid := row])
  }

  predicate Open(m: Market, aid: AuctionId, now: Millis) {
    aid in m.auctions && m.auctions[aid].status == OPEN && now < m.auctions[aid].endTime
  }

  predicate HasRow(m: Market, aid: AuctionId) { exists i :: 0 <= i < |m.bids| && m.bids[i].auctionId == aid }

  // ---------------------------------------------------------------- locks

  /** Which rows the four lock statements find. */
  lemma LocksAre(m: Market, aid: AuctionId, t: Millis)
    ensures Locks(m, aid, OpenAfter(t)) <==> Open(m, aid, t)
    ensures Locks(m, aid, OpenUntil(t)) <==>
      aid in m.auctions && m.auctions[aid].status == OPEN && m.auctions[aid].endTime <= t
    ensures Locks(m, aid, OpenAny()) <==> aid in m.auctions && m.auctions[aid].status == OPEN
    ensures Locks(m, aid, AnyRow()) <==> aid in m.auctions
  {
  }

  // ---------------------------------------------------------------- bids

  /** The auction's highest live bid is the user's. */
  predicate Leads(bids: seq<Bid>, aid: AuctionId, user: UserId) {
    LiveBids(bids, aid) != [] && bids[LiveBids(bids, aid)[0]].userId == user
  }

  /** The checks of a bid on the auction. */
  predicate Passes(m: Market, aid: AuctionId, user: UserId, price: int, now: Millis) {
    && Open(m, aid, now)
    && var row := m.auctions[aid];
       user != row.sellerUserId && !Leads(m.bids, aid, user) && row.currentPrice + row.minimumIncrement <= price
  }

  /** The row after a bid: ten seconds before its end at the latest it moves by five minutes, three times in all. */
  function RowAfterBid(row: Auction, price: int, now: Millis): Auction {
    if row.endTime - now <= 10_000 && row.extendCount < 3 then
      Auction(row.startPrice, price, row.buyNowPrice, row.minimumIncrement, row.status, row.endTime + 300_000,
              row.winnerUserId, row.closedAt, Some(now), row.extendCount + 1, row.sellerUserId,
              row.postCloseFinalizePayload)
    else
      Auction(row.startPrice, price, row.buyNowPrice, row.minimumIncrement, row.status, row.endTime, row.winnerUserId,
              row.closedAt, row.lastExtendedAt, row.extendCount, row.sellerUserId, row.postCloseFinalizePayload)
  }

  /** An accepted bid: its row, the auction's row, the price off the balance, the ledger row. */
  predicate Bids(db: Db, db': Db, aid: AuctionId, user: UserId, price: int, now: Millis) {
    var m, n := db.market, |db.market.bids|;
    && aid in m.auctions
    && db'.market == m.(bids := m.bids + [Bid(aid, user, price, None, false)],
                        auctions := m.auctions[aid := RowAfterBid(m.auctions[aid], price, now)])
    && Moves(db.wallet, db'.wallet, user, -price)
    && db'.wallet.ledger == db.wallet.ledger + [Entry(user, -price, BID_HOLD, n)]
  }

  predicate AboveAsked(m: Market, aid: AuctionId, price: int) {
    aid in m.auctions && m.auctions[aid].buyNowPrice.Some? && m.auctions[aid].buyNowPrice.value < price
  }

  /** A user's bid, in every case. */
  lemma BidOutcome(db: Db, aid: AuctionId, user: UserId, price: int, now: Millis)
    requires DbInv(db)
    ensures var tx, m, w := PlaceBid(db, aid, user, price, now), db.market, db.wallet;
      if !Open(m, aid, now) then tx == Tx(db, Err(NotFound))
      else if !Passes(m, aid, user, price, now) then tx == Tx(db, Err(BadRequest))
      else if user >= |w.balance| then tx == Tx(db, Err(ConstraintViolation))
      else if w.balance[user] < price then tx == Tx(db, Err(BadRequest))
      else if AboveAsked(m, aid, price) then tx == Tx(db, Err(ConstraintViolation))
      else tx.result == Ok(|m.bids|) && Bids(db, tx.db, aid, user, price, now)
  {
    hide Coupled, Settled, WalletInv, LiveBids;
    if Open(db.market, aid, now) {
      assert AuctionInv(db.market, |db.wallet.balance|, aid);
    }
  }

  /** A bot's bid, in every case: refusals are no errors, and one of them leaves the bid row behind. */
  lemma BotBidOutcome(db: Db, aid: AuctionId, bot: UserId, price: int, now: Millis)
    requires DbInv(db)
    ensures var tx, m, w := PlaceBidAsBot(db, aid, bot, price, now), db.market, db.wallet;
      if !Passes(m, aid, bot, price, now) then tx == Tx(db, Ok(None))
      else if bot >= |w.balance| then tx == Tx(db, Err(ConstraintViolation))
      else if w.balance[bot] < price then
        tx == Tx(db.(market := m.(bids := m.bids + [Bid(aid, bot, price, None, false)])), Ok(None))
      else if AboveAsked(m, aid, price) then tx == Tx(db, Err(ConstraintViolation))
      else tx.result == Ok(Some(|m.bids|)) && Bids(db, tx.db, aid, bot, price, now)
  {
    hide Coupled, Settled, WalletInv, LiveBids;
    if Open(db.market, aid, now) {
      assert AuctionInv(db.market, |db.wallet.balance|, aid);
    }
  }

  // ---------------------------------------------------------------- the seller's transactions

  lemma CreateOutcome(db: Db, a: NewAuction, seller: UserId, now: Millis)
    ensures var tx, m := CreateAuction(db, a, seller, now), db.market;
      if a.buyNowPrice.Some? && a.buyNowPrice.value < a.startPrice then tx == Tx(db, Err(BadRequest))
      else if a.endTime <= now || seller >= |db.wallet.balance| then tx == Tx(db, Err(BadRequest))
      else if a.startPrice < 0 || a.minimumIncrement <= 0 then tx == Tx(db, Err(ConstraintViolation))
      else
        var row := Auction(a.startPrice, a.startPrice, a.buyNowPrice, a.minimumIncrement, OPEN, a.endTime, None, None,
                           None, 0, seller, None);
        tx == Tx(db.(market := m.(auctions := m.auctions[m.nextAuction := row], nextAuction := m.nextAuction + 1)),
                 Ok(m.nextAuction))
  {
  }

  function Given<T>(given: Option<T>, before: T): T { if given.Some? then given.value else before }

  /** The columns after an edit: those that were given, and the price goes with the start price. */
  function RowAfterEdit(row: Auction, p: Patch): Auction {
    Auction(Given(p.startPrice, row.startPrice), Given(p.startPrice, row.currentPrice),
            if p.buyNowPrice.Some? then p.buyNowPrice else row.buyNowPrice,
            Given(p.minimumIncrement, row.minimumIncrement), row.status, Given(p.endTime, row.endTime),
            row.winnerUserId, row.closedAt, row.lastExtendedAt, row.extendCount, row.sellerUserId,
            row.postCloseFinalizePayload)
  }

  /** An edit, in every case: after a bid only increment and end can be edited, and the CHECKs have the last word. */
  lemma EditOutcome(db: Db, aid: AuctionId, p: Patch, now: Millis)
    requires DbInv(db)
    ensures var tx, m := PatchAuction(db, aid, p, now), db.market;
      if !Open(m, aid, now) || (HasRow(m, aid) && (p.startPrice.Some? || p.buyNowPrice.Some?)) then
        tx == Tx(db, Err(BadRequest))
      else
        var row := RowAfterEdit(m.auctions[aid], p);
        if row.startPrice < 0 || row.minimumIncrement <= 0
           || (row.buyNowPrice.Some? && row.buyNowPrice.value < row.currentPrice)
        then tx == Tx(db, Err(ConstraintViolation))
        else tx.result == Ok(()) && tx.db.wallet == db.wallet && RowSet(m, tx.db.market, aid, row)
  {
    hide Coupled, Settled, WalletInv;
    if Open(db.market, aid, now) {
      assert AuctionInv(db.market, |db.wallet.balance|, aid);
    }
    assert HasRow(db.market, aid) <==> HasBids(db.market.bids, aid);
  }

  /** A deletion, in every case: the seller's or an administrator's, of an auction without a bid row and without a
      pending or paid order; it takes the row and the cancelled orders of the auction away and nothing else. */
  lemma DeleteOutcome(db: Db, aid: AuctionId, user: UserId, admin: bool)
    ensures var tx, m := DeleteAuction(db, aid, user, admin), db.market;
      if aid !in m.auctions then tx == Tx(db, Err(NotFound))
      else if !admin && m.auctions[aid].sellerUserId != user then tx == Tx(db, Err(Forbidden))
      else if HasRow(m, aid)
              || (exists o :: o in m.orders && m.orders[o].auctionId == aid && m.orders[o].status != CANCELLED)
      then tx == Tx(db, Err(BadRequest))
      else
        && tx.result == Ok(()) && tx.db.wallet == db.wallet
        && tx.db.market == m.(auctions := tx.db.market.auctions, orders := tx.db.market.orders)
        && (forall x :: x in tx.db.market.auctions <==> x in m.auctions && x != aid)
        && (forall x :: x in tx.db.market.auctions ==> tx.db.market.auctions[x] == m.auctions[x])
        && (forall o :: o in tx.db.market.orders <==> o in m.orders && m.orders[o].auctionId != aid)
        && (forall o :: o in tx.db.market.orders ==> tx.db.market.orders[o] == m.orders[o])
  {
    var m := db.market;
    assert HasRow(m, aid) <==> HasBids(m.bids, aid);
    if o :| o in m.orders && m.orders[o].auctionId == aid && m.orders[o].status != CANCELLED {
      assert o in ActiveOrders(m, aid);
    } else {
      assert ActiveOrders(m, aid) == {};
    }
  }

  // ---------------------------------------------------------------- closing

  /** A live bid that a close disqualifies: one of somebody else than the leader. */
  predicate Loses(bids: seq<Bid>, aid: AuctionId, i: BidId) {
    Live(bids, aid, i) && !Leads(bids, aid, bids[i].userId)
  }

  function RowAfterSale(row: Auction, winner: Option<UserId>, price: int, now: Millis): Auction {
    Auction(row.startPrice, price, row.buyNowPrice, row.minimumIncrement, CLOSED, row.endTime, winner, Some(now),
            row.lastExtendedAt, row.extendCount, row.sellerUserId, None)
  }

  /** Who wins, at what price, and who is to be refunded: each losing bid once, highest price first. */
  ghost predicate Names(m: Market, aid: AuctionId, r: CloseResult)
    requires aid in m.auctions
  {
    var live, ls := LiveBids(m.bids, aid), r.losingBids;
    && r.auctionId == aid
    && r.winnerUserId == (if live == [] then None else Some(m.bids[live[0]].userId))
    && r.finalPrice == (if live == [] then m.auctions[aid].currentPrice else m.bids[live[0]].bidPrice)
    && (forall k :: 0 <= k < |ls| ==>
          Loses(m.bids, aid, ls[k].id) && ls[k].userId == m.bids[ls[k].id].userId
          && ls[k].bidPrice == m.bids[ls[k].id].bidPrice)
    && (forall i: BidId :: Loses(m.bids, aid, i) ==> exists k :: 0 <= k < |ls| && ls[k].id == i)
    && (forall j, k :: 0 <= j < k < |ls| ==> ls[j].id != ls[k].id && ls[k].bidPrice <= ls[j].bidPrice)
  }

  /** The tables after a close that names `r`: one order for the winner, and the losing bids disqualified. */
  predicate ClosesAs(m: Market, m': Market, aid: AuctionId, r: CloseResult, now: Millis)
    requires aid in m.auctions
  {
    && m' == m.(auctions := m.auctions[aid := RowAfterSale(m.auctions[aid], r.winnerUserId, r.finalPrice, now)],
                orders := m'.orders, nextOrder := m'.nextOrder, bids := m'.bids)
    && (if r.winnerUserId.None? then m'.orders == m.orders && m'.nextOrder == m.nextOrder
        else m'.orders == m.orders[m.nextOrder := Order(aid, r.winnerUserId.value, r.finalPrice, PENDING)]
             && m'.nextOrder == m.nextOrder + 1)
    && |m'.bids| == |m.bids|
    && forall i: BidId :: i < |m.bids| ==>
         m'.bids[i] == if Loses(m.bids, aid, i) then m.bids[i].(disqualifiedAt := Some(now)) else m.bids[i]
  }

  lemma LosingNext(bids: seq<Bid>, ids: seq<BidId>, winner: Option<UserId>)
    requires Rows(bids, ids) && ids != []
    ensures var n := |ids| - 1;
      LosingIds(bids, ids, winner) ==
      LosingIds(bids, ids[..n], winner) + if Some(bids[ids[n]].userId) != winner then [ids[n]] else []
  {
  }

  /** What comes before the last of a sorted list costs more, and is another bid. */
  lemma LastIsLowest(bids: seq<Bid>, ids: seq<BidId>, i: BidId)
    requires Rows(bids, ids) && SortedByPrice(bids, ids) && ids != [] && i in ids[..|ids| - 1]
    ensures i < |bids| && i != ids[|ids| - 1] && bids[ids[|ids| - 1]].bidPrice <= bids[i].bidPrice
  {
    var x :| 0 <= x < |ids| - 1 && ids[x] == i;
  }

  /** The losing bids keep the order of the live ones. */
  lemma {:induction false} LosingIdsOrder(bids: seq<Bid>, ids: seq<BidId>, winner: Option<UserId>)
    requires Rows(bids, ids) && SortedByPrice(bids, ids)
    ensures SortedByPrice(bids, LosingIds(bids, ids, winner))
  {
    hide LosingIds;
    if ids == [] {
      assert LosingIds(bids, ids, winner) == [] by { NoLosers(bids, winner); }
    } else {
      var n := |ids| - 1;
      var rest := LosingIds(bids, ids[..n], winner);
      LosingIdsOrder(bids, ids[..n], winner);
      forall j | 0 <= j < |rest| ensures rest[j] != ids[n] && bids[ids[n]].bidPrice <= bids[rest[j]].bidPrice {
        assert rest[j] in rest;
        LastIsLowest(bids, ids, rest[j]);
      }
      LosingNext(bids, ids, winner);
    }
  }

  lemma NoLosers(bids: seq<Bid>, winner: Option<UserId>)
    ensures LosingIds(bids, [], winner) == []
  {
  }

  lemma LosesIff(bids: seq<Bid>, aid: AuctionId, i: BidId)
    ensures Loses(bids, aid, i) <==> i in LosingIds(bids, LiveBids(bids, aid), Leader(bids, aid))
  {
    hide LosingIds;
  }

  lemma ResultNames(m: Market, aid: AuctionId)
    requires aid in m.auctions
    ensures Names(m, aid, CloseResultOf(m, aid))
  {
    hide LosingIds, LiveBids, Loses;
    var live := LiveBids(m.bids, aid);
    var ids := LosingIds(m.bids, live, Leader(m.bids, aid));
    LosingIdsOrder(m.bids, live, Leader(m.bids, aid));
    forall k | 0 <= k < |ids| ensures Loses(m.bids, aid, ids[k]) {
      assert ids[k] in ids;
      LosesIff(m.bids, aid, ids[k]);
    }
    var ls := CloseResultOf(m, aid).losingBids;
    assert ls == Listed(m.bids, ids);
    forall i: BidId | Loses(m.bids, aid, i) ensures exists k :: 0 <= k < |ls| && ls[k].id == i {
      LosesIff(m.bids, aid, i);
      var k :| 0 <= k < |ids| && ids[k] == i;
      assert ls[k].id == i;
    }
  }

  lemma CloseWrites(m: Market, aid: AuctionId, now: Millis)
    requires aid in m.auctions
    ensures ClosesAs(m, ClosedMarket(m, aid, now), aid, CloseResultOf(m, aid), now)
  {
    hide LiveBids, CloseResultOf, ClosedMarket;
    CloseOrders(m, aid, now);
    CloseBids(m, aid, now);
    CloseKeepsTables(m, aid, now);
    var bids' := ClosedMarket(m, aid, now).bids;
    forall i: BidId | i < |m.bids|
      ensures bids'[i] == if Loses(m.bids, aid, i) then m.bids[i].(disqualifiedAt := Some(now)) else m.bids[i]
    {
    }
  }

  lemma CloseKeepsTables(m: Market, aid: AuctionId, now: Millis)
    requires aid in m.auctions
    ensures var m' := ClosedMarket(m, aid, now);
      m' == m.(auctions := m'.auctions, orders := m'.orders, nextOrder := m'.nextOrder, bids := m'.bids)
  {
    hide LiveBids, CloseResultOf, Disqualify;
  }

  /** A close, timed or by an administrator: nothing without the lock, and otherwise the sale to the highest live
      bid, unless a constraint refuses it. */
  lemma CloseOutcome(db: Db, aid: AuctionId, options: LockOptions, now: Millis)
    ensures var tx := ExecuteClose(db, aid, options, now);
      if !Locks(db.market, aid, options) then tx == Tx(db, Ok(None))
      else if tx.result.Err? then tx == Tx(db, Err(ConstraintViolation))
      else
        && tx.result.value.Some? && Names(db.market, aid, tx.result.value.value)
        && ClosesAs(db.market, tx.db.market, aid, tx.result.value.value, now) && tx.db.wallet == db.wallet
  {
    hide Names, ClosesAs, CloseResultOf, ClosedMarket;
    if Locks(db.market, aid, options) {
      ResultNames(db.market, aid);
      CloseWrites(db.market, aid, now);
    }
  }

  // ---------------------------------------------------------------- paying

  function PaymentEntry(o: OrderRef): Entry { Entry(o.buyerUserId, -o.finalPrice, PAYMENT, o.id) }
  function SettlementEntry(o: OrderRef): Entry { Entry(o.sellerUserId, o.finalPrice, ADJUSTMENT, o.id) }

  /** A payment by conversion, to the coin: the seller gets the price, nobody else's balance moves, the ledger gets
      the payment's and the settlement's row and no other, and of the tables only the order's status changes (and
      the history mark of the winning bid). */
  lemma ConversionOutcome(db: Db, o: OrderRef, now: Millis)
    requires DbInv(db) && RefOk(db.market, o) && Pending(db.market, o.id) && IsAuctionWinner(db.market.bids, o)
    ensures var tx, m, top := PayOrder(db, o, true, now), db.market, LiveBids(db.market.bids, o.auctionId)[0];
      && tx.result == Ok(())
      && Moves(db.wallet, tx.db.wallet, o.sellerUserId, o.finalPrice)
      && tx.db.wallet.ledger == db.wallet.ledger + [PaymentEntry(o), SettlementEntry(o)]
      && top < |m.bids|
      && tx.db.market == m.(orders := m.orders[o.id := m.orders[o.id].(status := PAID)],
                            bids := m.bids[top := m.bids[top].(converted := true)])
  {
    hide WalletInv, AuctionInv, LiveBids;
    HeadIsMember(LiveBids(db.market.bids, o.auctionId));
    PendingMeans(db.market, |db.wallet.balance|, o.id);
    assert AuctionInv(db.market, |db.wallet.balance|, o.auctionId);
    SellerExists(db.market, |db.wallet.balance|, o.auctionId);
    var l := db.wallet.ledger;
    assert l + [PaymentEntry(o)] + [SettlementEntry(o)] == l + [PaymentEntry(o), SettlementEntry(o)];
  }

  lemma SellerExists(m: Market, users: nat, aid: AuctionId)
    requires aid in m.auctions && AuctionInv(m, users, aid)
    ensures m.auctions[aid].sellerUserId < users
  {
  }

  /** The tables after a direct payment: the order is paid and every live bid of the auction disqualified. */
  predicate PaysDirectly(m: Market, m': Market, o: OrderRef, now: Millis)
    requires o.id in m.orders
  {
    && m' == m.(orders := m.orders[o.id := m.orders[o.id].(status := PAID)], bids := m'.bids)
    && |m'.bids| == |m.bids|
    && forall i: BidId :: i < |m.bids| ==>
         m'.bids[i] == if Live(m.bids, o.auctionId, i) then m.bids[i].(disqualifiedAt := Some(now)) else m.bids[i]
  }

  /** A payment, in every case, whatever was decided before it: a conflict unless the order is pending, refused for
      want of money only when there is no hold to convert. */
  lemma PayResults(db: Db, o: OrderRef, winner: bool, now: Millis)
    ensures var tx := PayOrder(db, o, winner, now);
      if !(o.id in db.market.orders && db.market.orders[o.id].status == PENDING) then tx == Tx(db, Err(Conflict))
      else if winner then tx.result == Ok(())
      else if o.buyerUserId >= |db.wallet.balance| || db.wallet.balance[o.buyerUserId] < o.finalPrice then
        tx == Tx(db, Err(BadRequest))
      else tx.result == Ok(()) && PaysDirectly(db.market, tx.db.market, o, now)
  {
    hide LiveBids, ReleaseAll;
  }

  // ---------------------------------------------------------------- reopening

  /** The auction is closed and the order still pending. */
  predicate Reopenable(m: Market, o: OrderRef) {
    && o.auctionId in m.auctions && m.auctions[o.auctionId].status == CLOSED
    && o.id in m.orders && m.orders[o.id].status == PENDING
  }

  /** The highest live bid is the buyer's, at the price of the order. */
  predicate LeadsAtPrice(bids: seq<Bid>, o: OrderRef) {
    && Leads(bids, o.auctionId, o.buyerUserId)
    && bids[LiveBids(bids, o.auctionId)[0]].bidPrice == o.finalPrice
  }

  /** The decision of `payOrder` and of the reopening, in these words. */
  lemma DecisionIs(bids: seq<Bid>, o: OrderRef)
    ensures IsAuctionWinner(bids, o) <==> LeadsAtPrice(bids, o)
  {
  }

  /** The price of the `k`-th live bid, or the start price. */
  function PriceAt(bids: seq<Bid>, aid: AuctionId, k: nat, startPrice: int): int {
    var live := LiveBids(bids, aid);
    if k < |live| then bids[live[k]].bidPrice else startPrice
  }

  /** An hour from now, open, at the price of the next bid. */
  function RowAfterReopening(row: Auction, price: int, now: Millis): Auction {
    Auction(row.startPrice, price, row.buyNowPrice, row.minimumIncrement, OPEN, now + 3_600_000, None, None,
            row.lastExtendedAt, row.extendCount, row.sellerUserId, None)
  }

  /** The defaulting winner's bid is disqualified and gets its one release; without such a bid nothing moves. */
  predicate GivesBack(db: Db, db': Db, o: OrderRef, now: Millis) {
    var bids, w, w' := db.market.bids, db.wallet, db'.wallet;
    if LeadsAtPrice(bids, o) then
      var top := LiveBids(bids, o.auctionId)[0];
      && db'.market.bids == bids[top := bids[top].(disqualifiedAt := Some(now))]
      && Moves(w, w', o.buyerUserId, o.finalPrice)
      && w'.ledger == w.ledger + [Entry(o.buyerUserId, o.finalPrice, BID_RELEASE, top)]
      && Releases(w'.ledger, top) == 1
    else db'.market.bids == bids && w' == w
  }

  lemma ReopenTop(db: Db, o: OrderRef)
    requires DbInv(db) && LeadsAtPrice(db.market.bids, o)
    ensures var top := LiveBids(db.market.bids, o.auctionId)[0];
      top < |db.market.bids| && Releases(db.wallet.ledger, top) == 0 && o.buyerUserId < |db.wallet.balance|
  {
    hide MarketInv, Releases;
    var top := LiveBids(db.market.bids, o.auctionId)[0];
    HeadIsMember(LiveBids(db.market.bids, o.auctionId));
    LiveUnreleased(db.market.bids, db.wallet, top);
  }

  lemma OneDisqualified(bids: seq<Bid>, i: BidId, now: Millis)
    requires i < |bids|
    ensures Disqualify(bids, [i], now) == bids[i := bids[i].(disqualifiedAt := Some(now))]
  {
  }

  lemma ReopenGivesBack(db: Db, o: OrderRef, now: Millis)
    requires DbInv(db) && ReopenAuction(db, o, now).result == Ok(true)
    ensures GivesBack(db, ReopenAuction(db, o, now).db, o, now)
  {
    hide DbInv, LiveBids, Releases, Disqualify, BaselinePrice, ReopenRowOk;
    if LeadsAtPrice(db.market.bids, o) {
      var top := LiveBids(db.market.bids, o.auctionId)[0];
      ReopenTop(db, o);
      OneDisqualified(db.market.bids, top, now);
      LedgerAppend(db.wallet.ledger, Entry(o.buyerUserId, o.finalPrice, BID_RELEASE, top), top, 0);
    }
  }

  lemma ReopenWrites(db: Db, o: OrderRef, now: Millis)
    requires ReopenAuction(db, o, now).result == Ok(true)
    ensures Reopenable(db.market, o)
    ensures var m, m', aid := db.market, ReopenAuction(db, o, now).db.market, o.auctionId; var row := m.auctions[aid];
      m' == m.(orders := m.orders[o.id := m.orders[o.id].(status := CANCELLED)], bids := m'.bids,
               auctions := m.auctions[aid := RowAfterReopening(
                 row, PriceAt(m.bids, aid, if LeadsAtPrice(m.bids, o) then 1 else 0, row.startPrice), now)])
  {
    hide LiveBids, Disqualify, ReopenRowOk, ReleaseBidHold;
  }

  /** A reopening, in every case: not without a closed auction and a pending order, refused exactly above the buy-now
      price, and otherwise the order cancelled, the row as at an auction's start but for an hour's time and the next
      best price, and the defaulter's hold given back. */
  lemma ReopenOutcome(db: Db, o: OrderRef, now: Millis)
    requires DbInv(db) && RefOk(db.market, o)
    ensures var tx, m, aid := ReopenAuction(db, o, now), db.market, o.auctionId;
      if !Reopenable(m, o) then tx == Tx(db, Ok(false))
      else if AboveBuyNow(m, aid) then tx == Tx(db, Err(ConstraintViolation))
      else
        var row := m.auctions[aid];
        var price := PriceAt(m.bids, aid, if LeadsAtPrice(m.bids, o) then 1 else 0, row.startPrice);
        && tx.result == Ok(true) && GivesBack(db, tx.db, o, now)
        && tx.db.market == m.(orders := m.orders[o.id := m.orders[o.id].(status := CANCELLED)],
                              bids := tx.db.market.bids,
                              auctions := m.auctions[aid := RowAfterReopening(row, price, now)])
  {
    hide DbInv, RefOk, AboveBuyNow, ReopenRowOk, GivesBack, RowAfterReopening, ReopenedMarket, IsAuctionWinner, Leads;
    ReopenRefusedIff(db, o, now);
    if Reopenable(db.market, o) && !AboveBuyNow(db.market, o.auctionId) {
      ReopenGivesBack(db, o, now);
      ReopenWrites(db, o, now);
    }
  }

  // ---------------------------------------------------------------- buying

  /** What lets a buy-now request through before its transaction: the auction as read is open, before its end, and
      has a buy-now price that is not zero and that the balance as read covers. */
  predicate MayAsk(seen: Option<Auction>, funds: Option<int>, now: Millis) {
    && seen.Some? && seen.value.status == OPEN && now < seen.value.endTime
    && seen.value.buyNowPrice.Some? && seen.value.buyNowPrice.value != 0
    && funds.Some? && seen.value.buyNowPrice.value <= funds.value
  }

  predicate HadOrder(m: Market, aid: AuctionId) { exists o :: o in m.orders && m.orders[o].auctionId == aid }

  /** What lets it through inside: the locked row is open and before its end, the price read lies between its start
      and buy-now price, the buyer is there, and under the index the auction had no order. */
  predicate MaySell(db: Db, aid: AuctionId, user: UserId, price: int, now: Millis) {
    var m := db.market;
    && Open(m, aid, now) && m.auctions[aid].startPrice <= price && !AboveAsked(m, aid, price)
    && user < |db.wallet.balance| && (m.uniqueOrder ==> !HadOrder(m, aid))
  }

  /** A buy-now request, in every case.  When it succeeds the row's price and the new pending order carry the
      buy-now price that was read and the buyer; bids and wallet stay as they are. */
  lemma BuyOutcome(db: Db, aid: AuctionId, user: UserId, seen: Option<Auction>, funds: Option<int>, now: Millis)
    requires DbInv(db)
    ensures var tx, m := BuyNowRequest(db, aid, user, seen, funds, now), db.market;
      if seen.None? then tx == Tx(db, Err(NotFound))
      else if !MayAsk(seen, funds, now) || !Open(m, aid, now) then tx == Tx(db, Err(BadRequest))
      else
        var price := seen.value.buyNowPrice.value;
        if !MaySell(db, aid, user, price, now) then tx == Tx(db, Err(ConstraintViolation))
        else
          tx == Tx(db.(market := m.(
                     auctions := m.auctions[aid := RowAfterSale(m.auctions[aid], Some(user), price, now)],
                     orders := m.orders[m.nextOrder := Order(aid, user, price, PENDING)],
                     nextOrder := m.nextOrder + 1)), Ok(m.nextOrder))
  {
    hide Coupled, Settled, WalletInv;
    if Open(db.market, aid, now) {
      assert AuctionInv(db.market, |db.wallet.balance|, aid);
    }
  }
}
