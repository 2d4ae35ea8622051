/** What holds of the auction, bid and order tables between any two transactions, auction by auction. */
module MarketInvariant {
  import opened Schema
  import opened Transactions

  predicate IsOpen(m: Market, aid: AuctionId) { aid in m.auctions && m.auctions[aid].status == OPEN }
  predicate IsClosed(m: Market, aid: AuctionId) { aid in m.auctions && m.auctions[aid].status == CLOSED }

  /** The highest live price, or the start price without live bids. */
  function BestPrice(bids: seq<Bid>, aid: AuctionId, startPrice: int): int {
    var live := LiveBids(bids, aid);
    if live == [] then startPrice else bids[live[0]].bidPrice
  }

  ghost predicate BidsAboveStart(bids: seq<Bid>, aid: AuctionId, row: Auction) {
    forall i :: 0 <= i < |bids| && bids[i].auctionId == aid ==> row.startPrice <= bids[i].bidPrice
  }

  ghost predicate BidsBelowBuyNow(bids: seq<Bid>, aid: AuctionId, row: Auction) {
    forall i :: 0 <= i < |bids| && bids[i].auctionId == aid && row.buyNowPrice.Some? ==>
      bids[i].bidPrice <= row.buyNowPrice.value
  }

  ghost predicate DistinctPrices(bids: seq<Bid>, aid: AuctionId) {
    forall i: BidId, j: BidId :: Live(bids, aid, i) && Live(bids, aid, j) && i != j ==>
      bids[i].bidPrice != bids[j].bidPrice
  }

  /** Open: no winner, no active order.  Closed: an active order exactly when there is a winner, exactly one,
      and it is the winner's at the auction's price. */
  ghost predicate Coupled(m: Market, aid: AuctionId)
    requires aid in m.auctions
  {
    var row := m.auctions[aid];
    if row.status == OPEN || row.winnerUserId.None? then
      row.winnerUserId.None? && ActiveOrders(m, aid) == {}
    else
      exists o :: o in m.orders && ActiveOrders(m, aid) == {o}
        && m.orders[o].buyerUserId == row.winnerUserId.value && m.orders[o].finalPrice == row.currentPrice
  }

  ghost predicate PaysFor(bids: seq<Bid>, o: Order, t: BidId) {
    t < |bids| && o.status == PAID && bids[t].userId == o.buyerUserId && bids[t].bidPrice == o.finalPrice
  }

  /** A converted bid is the auction's highest live bid and paid for its paid order; a paid order left either
      no live bid at all or exactly such a bid on top. */
  ghost predicate Settled(m: Market, aid: AuctionId) {
    var live := LiveBids(m.bids, aid);
    && (forall i :: 0 <= i < |m.bids| && m.bids[i].auctionId == aid && m.bids[i].converted ==>
          live != [] && live[0] == i
          && exists o :: o in m.orders && o in ActiveOrders(m, aid) && PaysFor(m.bids, m.orders[o], i))
    && (forall o :: o in m.orders && o in ActiveOrders(m, aid) && m.orders[o].status == PAID ==>
          live == [] || (m.bids[live[0]].converted && PaysFor(m.bids, m.orders[o], live[0])))
  }

  /** What every transaction keeps of an auction, whatever happened on it. */
  ghost predicate AuctionInv(m: Market, users: nat, aid: AuctionId)
    requires aid in m.auctions
  {
    var row := m.auctions[aid];
    && RowOk(row) && row.extendCount <= SOFT_CLOSE_MAX_EXTEND_COUNT && row.sellerUserId < users
    && BidsAboveStart(m.bids, aid, row)
    && (row.status == OPEN ==> row.closedAt.None?)
    && Coupled(m, aid)
    && Settled(m, aid)
  }

  /** What holds of an auction's prices as long as no bot bid on it failed on its hold: an open auction's price
      is its best live price, live prices differ, and none is above the buy-now price. */
  ghost predicate PriceInv(m: Market, aid: AuctionId)
    requires aid in m.auctions
  {
    var row := m.auctions[aid];
    && BidsBelowBuyNow(m.bids, aid, row) && DistinctPrices(m.bids, aid)
    && (row.status == OPEN ==> row.currentPrice == BestPrice(m.bids, aid, row.startPrice))
  }

  ghost predicate References(m: Market, users: nat) {
    && (forall a :: a in m.auctions ==> a < m.nextAuction)
    && (forall i :: 0 <= i < |m.bids| ==> m.bids[i].auctionId in m.auctions)
    && (forall o :: o in m.orders ==>
          o < m.nextOrder && m.orders[o].auctionId in m.auctions && m.orders[o].buyerUserId < users
          && 0 <= m.orders[o].finalPrice)
  }

  ghost predicate MarketInv(m: Market, users: nat) {
    References(m, users) && forall a {:trigger AuctionInv(m, users, a)} :: a in m.auctions ==> AuctionInv(m, users, a)
  }

  // ---------------------------------------------------------------- locality

  /** Two rows that differ at most in the finalize payload. */
  ghost predicate SameButPayload(r1: Auction, r2: Auction) {
    r1.(postCloseFinalizePayload := None) == r2.(postCloseFinalizePayload := None)
  }

  /** A transaction that worked on other auctions only, or on the payload. */
  ghost predicate Untouched(m1: Market, m2: Market, aid: AuctionId) {
    && aid in m1.auctions && aid in m2.auctions && SameButPayload(m1.auctions[aid], m2.auctions[aid])
    && |m1.bids| <= |m2.bids|
    && (forall i :: 0 <= i < |m1.bids| ==> (m1.bids[i].auctionId == aid <==> m2.bids[i].auctionId == aid))
    && (forall i :: 0 <= i < |m1.bids| && m1.bids[i].auctionId == aid ==> m2.bids[i] == m1.bids[i])
    && (forall i :: |m1.bids| <= i < |m2.bids| ==> m2.bids[i].auctionId != aid)
    && (forall o :: o in m1.orders && m1.orders[o].auctionId == aid ==> o in m2.orders && m2.orders[o] == m1.orders[o])
    && (forall o :: o in m2.orders && m2.orders[o].auctionId == aid ==> o in m1.orders && m1.orders[o] == m2.orders[o])
  }

  lemma UntouchedViews(m1: Market, m2: Market, aid: AuctionId)
    requires Untouched(m1, m2, aid)
    ensures LiveBids(m2.bids, aid) == LiveBids(m1.bids, aid)
    ensures forall i: BidId :: i in LiveBids(m1.bids, aid) ==> i < |m1.bids| && m2.bids[i] == m1.bids[i]
    ensures ActiveOrders(m2, aid) == ActiveOrders(m1, aid)
  {
    LiveFrame(m1.bids, m2.bids, aid);
  }

  lemma UntouchedKeeps(m1: Market, m2: Market, users: nat, aid: AuctionId)
    requires Untouched(m1, m2, aid) && AuctionInv(m1, users, aid)
    ensures AuctionInv(m2, users, aid)
  {
    assert Settled(m2, aid) by { UntouchedSettled(m1, m2, aid); }
    assert Coupled(m2, aid) by { UntouchedCoupled(m1, m2, aid); }
  }

  lemma UntouchedPrices(m1: Market, m2: Market, aid: AuctionId)
    requires Untouched(m1, m2, aid) && PriceInv(m1, aid)
    ensures PriceInv(m2, aid)
  {
    UntouchedViews(m1, m2, aid);
    HeadIsMember(LiveBids(m1.bids, aid));
  }

  lemma UntouchedCoupled(m1: Market, m2: Market, aid: AuctionId)
    requires Untouched(m1, m2, aid) && Coupled(m1, aid)
    ensures Coupled(m2, aid)
  {
    UntouchedViews(m1, m2, aid);
    var row := m1.auctions[aid];
    if !(row.status == OPEN || row.winnerUserId.None?) {
      var o :| o in m1.orders && ActiveOrders(m1, aid) == {o}
        && m1.orders[o].buyerUserId == row.winnerUserId.value && m1.orders[o].finalPrice == row.currentPrice;
      assert o in ActiveOrders(m2, aid);
    }
  }

  lemma UntouchedSettled(m1: Market, m2: Market, aid: AuctionId)
    requires Untouched(m1, m2, aid) && Settled(m1, aid)
    ensures Settled(m2, aid)
  {
    UntouchedViews(m1, m2, aid);
    var live := LiveBids(m1.bids, aid);
    assert live != [] ==> live[0] in live;
    forall i | 0 <= i < |m2.bids| && m2.bids[i].auctionId == aid && m2.bids[i].converted
      ensures live != [] && live[0] == i
      ensures exists o :: o in m2.orders && o in ActiveOrders(m2, aid) && PaysFor(m2.bids, m2.orders[o], i)
    {
      assert m1.bids[i] == m2.bids[i];
      var o :| o in m1.orders && o in ActiveOrders(m1, aid) && PaysFor(m1.bids, m1.orders[o], i);
      assert o in m2.orders && o in ActiveOrders(m2, aid);
    }
  }

  // ---------------------------------------------------------------- the order table

  lemma WithStatusActive(m: Market, o: OrderId, status: OrderStatus, aid: AuctionId)
    requires Pending(m, o)
    ensures ActiveOrders(WithStatus(m, o, status), aid) ==
      if status == CANCELLED then ActiveOrders(m, aid) - {o} else ActiveOrders(m, aid)
  {
  }

  /** A pending order is its auction's only active order, and the auction is closed for its buyer. */
  lemma PendingMeans(m: Market, users: nat, o: OrderId)
    requires MarketInv(m, users) && Pending(m, o)
    ensures var aid := m.orders[o].auctionId;
      && aid in m.auctions
      && m.auctions[aid].status == CLOSED && ActiveOrders(m, aid) == {o}
      && m.auctions[aid].winnerUserId == Some(m.orders[o].buyerUserId)
      && m.auctions[aid].currentPrice == m.orders[o].finalPrice
      && forall i :: 0 <= i < |m.bids| && m.bids[i].auctionId == aid ==> !m.bids[i].converted
  {
    var aid := m.orders[o].auctionId;
    assert AuctionInv(m, users, aid);
    assert o in ActiveOrders(m, aid);
    assert Coupled(m, aid) && Settled(m, aid);
    var o' :| o' in m.orders && ActiveOrders(m, aid) == {o'};
    assert o == o';
  }

  lemma LiveOnOpenBelow(m: Market, aid: AuctionId, i: BidId)
    requires aid in m.auctions && PriceInv(m, aid) && m.auctions[aid].status == OPEN && Live(m.bids, aid, i)
    ensures m.bids[i].bidPrice <= m.auctions[aid].currentPrice
  {
    var live := LiveBids(m.bids, aid);
    assert i in live;
    var k :| 0 <= k < |live| && live[k] == i;
    assert k > 0 ==> m.bids[live[k]].bidPrice <= m.bids[live[0]].bidPrice;
  }

  // ---------------------------------------------------------------- the transactions keep it

  /** A transaction on one auction only has to be checked there. */
  lemma OneAuction(m: Market, m': Market, users: nat, t: AuctionId)
    requires MarketInv(m, users) && References(m', users)
    requires forall a :: a in m'.auctions && a != t ==> a in m.auctions && Untouched(m, m', a)
    requires t in m'.auctions ==> AuctionInv(m', users, t)
    ensures MarketInv(m', users)
  {
    forall a | a in m'.auctions ensures AuctionInv(m', users, a) {
      if a != t {
        UntouchedKeeps(m, m', users, a);
      }
    }
  }

  lemma BidKeeps(m: Market, users: nat, aid: AuctionId, user: UserId, price: int, now: Millis)
    requires MarketInv(m, users)
    requires BidError(m, aid, user, price, now).None? && RowOk(BidUpdate(m.auctions[aid], now, price))
    ensures MarketInv(BidMarket(m, aid, user, price, now), users)
  {
    assert AuctionInv(m, users, aid);
    BidKeepsHere(m, users, aid, user, price, now);
    BidElsewhere(m, users, aid, user, price, now);
    OneAuction(m, BidMarket(m, aid, user, price, now), users, aid);
  }

  lemma BidElsewhere(m: Market, users: nat, aid: AuctionId, user: UserId, price: int, now: Millis)
    requires References(m, users) && aid in m.auctions
    ensures var m' := BidMarket(m, aid, user, price, now);
      References(m', users) && forall a :: a in m'.auctions && a != aid ==> a in m.auctions && Untouched(m, m', a)
  {
  }

  lemma BidKeepsHere(m: Market, users: nat, aid: AuctionId, user: UserId, price: int, now: Millis)
    requires References(m, users) && aid in m.auctions && AuctionInv(m, users, aid)
    requires BidError(m, aid, user, price, now).None? && RowOk(BidUpdate(m.auctions[aid], now, price))
    ensures AuctionInv(BidMarket(m, aid, user, price, now), users, aid)
  {
    var m' := BidMarket(m, aid, user, price, now);
    OpenUnconverted(m, users, aid);
    assert ActiveOrders(m', aid) == ActiveOrders(m, aid);
    assert Settled(m', aid);
  }

  /** A bid row that stays without its hold. */
  lemma UnheldKeepsHere(m: Market, users: nat, aid: AuctionId, user: UserId, price: int, now: Millis)
    requires References(m, users) && aid in m.auctions && AuctionInv(m, users, aid)
    requires BidError(m, aid, user, price, now).None?
    ensures AuctionInv(WithBid(m, NewBid(aid, user, price)), users, aid)
  {
    var m' := WithBid(m, NewBid(aid, user, price));
    OpenUnconverted(m, users, aid);
    assert ActiveOrders(m', aid) == ActiveOrders(m, aid);
    assert Settled(m', aid);
  }

  lemma UnheldKeepsMarket(m: Market, users: nat, aid: AuctionId, user: UserId, price: int, now: Millis)
    requires MarketInv(m, users) && BidError(m, aid, user, price, now).None?
    ensures MarketInv(WithBid(m, NewBid(aid, user, price)), users)
  {
    assert AuctionInv(m, users, aid);
    UnheldKeepsHere(m, users, aid, user, price, now);
    OneAuction(m, WithBid(m, NewBid(aid, user, price)), users, aid);
  }

  /** An accepted bid is priced above every live bid, so it heads them and its price is the auction's. */
  lemma BidLeads(m: Market, aid: AuctionId, user: UserId, price: int, now: Millis)
    requires aid in m.auctions && RowOk(m.auctions[aid]) && PriceInv(m, aid)
    requires BidError(m, aid, user, price, now).None? && RowOk(BidUpdate(m.auctions[aid], now, price))
    ensures var m' := BidMarket(m, aid, user, price, now);
      PriceInv(m', aid) && LiveBids(m'.bids, aid) != [] && LiveBids(m'.bids, aid)[0] == |m.bids|
  {
    var m' := BidMarket(m, aid, user, price, now);
    forall i: BidId | Live(m'.bids, aid, i) && i != |m.bids| ensures m'.bids[i].bidPrice < price {
      assert Live(m.bids, aid, i);
      LiveOnOpenBelow(m, aid, i);
    }
    HeadIs(m'.bids, aid, |m.bids|);
    assert DistinctPrices(m'.bids, aid) by {
      forall i: BidId, j: BidId | Live(m'.bids, aid, i) && Live(m'.bids, aid, j) && i != j
        ensures m'.bids[i].bidPrice != m'.bids[j].bidPrice
      {
        assert i < |m.bids| ==> Live(m.bids, aid, i);
        assert j < |m.bids| ==> Live(m.bids, aid, j);
      }
    }
  }

  /** A bid row without its hold leads too, above the price that the auction keeps showing. */
  lemma UnheldLeads(m: Market, aid: AuctionId, user: UserId, price: int, now: Millis)
    requires aid in m.auctions && RowOk(m.auctions[aid]) && PriceInv(m, aid)
    requires BidError(m, aid, user, price, now).None?
    ensures var bids := m.bids + [NewBid(aid, user, price)];
      && LiveBids(bids, aid) != [] && LiveBids(bids, aid)[0] == |m.bids| && m.auctions[aid].currentPrice < price
      && forall i: BidId :: Live(bids, aid, i) && i != |m.bids| ==> bids[i].bidPrice < price
  {
    var bids := m.bids + [NewBid(aid, user, price)];
    forall i: BidId | Live(bids, aid, i) && i != |m.bids| ensures bids[i].bidPrice < price {
      assert Live(m.bids, aid, i);
      LiveOnOpenBelow(m, aid, i);
    }
    HeadIs(bids, aid, |m.bids|);
  }

  /** An open auction has no active order, so nothing on it was converted. */
  lemma OpenUnconverted(m: Market, users: nat, aid: AuctionId)
    requires aid in m.auctions && AuctionInv(m, users, aid) && ActiveOrders(m, aid) == {}
    ensures forall i :: 0 <= i < |m.bids| && m.bids[i].auctionId == aid ==> !m.bids[i].converted
  {
    assert Settled(m, aid);
  }

  /** Rows that keep auction and price, and become live nowhere, keep the range and the distinct prices. */
  lemma FewerLive(b1: seq<Bid>, b2: seq<Bid>, aid: AuctionId, row: Auction)
    requires |b1| == |b2| && BidsBelowBuyNow(b1, aid, row) && DistinctPrices(b1, aid)
    requires forall i :: 0 <= i < |b1| ==> b2[i].auctionId == b1[i].auctionId && b2[i].bidPrice == b1[i].bidPrice
    requires forall i: BidId :: Live(b2, aid, i) ==> Live(b1, aid, i)
    ensures BidsBelowBuyNow(b2, aid, row) && DistinctPrices(b2, aid)
  {
  }

  /** The price a close writes: the highest live price, which is the current price as it stands. */
  lemma ClosePrice(m: Market, aid: AuctionId)
    requires aid in m.auctions && PriceInv(m, aid) && m.auctions[aid].status == OPEN
    ensures CloseResultOf(m, aid).finalPrice == m.auctions[aid].currentPrice
  {
  }

  lemma CloseBids(m: Market, aid: AuctionId, now: Millis)
    requires aid in m.auctions
    ensures var bids' := ClosedMarket(m, aid, now).bids;
      && |bids'| == |m.bids|
      && forall i: BidId :: i < |m.bids| ==>
        if Live(m.bids, aid, i) && Leader(m.bids, aid) != Some(m.bids[i].userId)
        then bids'[i] == m.bids[i].(disqualifiedAt := Some(now)) else bids'[i] == m.bids[i]
  {
  }

  lemma LeaderIs(bids: seq<Bid>, aid: AuctionId)
    ensures var live := LiveBids(bids, aid);
      live != [] ==> Live(bids, aid, live[0]) && Leader(bids, aid) == Some(bids[live[0]].userId)
  {
    var live := LiveBids(bids, aid);
    assert live != [] ==> live[0] in live;
  }

  lemma CloseOrders(m: Market, aid: AuctionId, now: Millis)
    requires aid in m.auctions
    ensures var m', r := ClosedMarket(m, aid, now), CloseResultOf(m, aid);
      && aid in m'.auctions && m'.nextAuction == m.nextAuction && m'.uniqueOrder == m.uniqueOrder
      && m'.auctions == m.auctions[aid := ClosedRow(m.auctions[aid], r.winnerUserId, r.finalPrice, now)]
      && if r.winnerUserId.None? then m'.orders == m.orders && m'.nextOrder == m.nextOrder
         else m'.orders == m.orders[m.nextOrder := Order(aid, r.winnerUserId.value, r.finalPrice, PENDING)]
              && m'.nextOrder == m.nextOrder + 1
  {
  }

  lemma CloseCoupled(m: Market, users: nat, aid: AuctionId, now: Millis)
    requires References(m, users) && aid in m.auctions && ActiveOrders(m, aid) == {}
    ensures Coupled(ClosedMarket(m, aid, now), aid)
    ensures forall o :: o in ActiveOrders(ClosedMarket(m, aid, now), aid) ==>
      ClosedMarket(m, aid, now).orders[o].status == PENDING
  {
    CloseOrders(m, aid, now);
    var m', r := ClosedMarket(m, aid, now), CloseResultOf(m, aid);
    if r.winnerUserId.Some? {
      assert ActiveOrders(m', aid) == {m.nextOrder};
    } else {
      assert ActiveOrders(m', aid) == {};
    }
  }

  /** A close or a buy-now, seen from the auction it ends. */
  lemma EndedKeeps(m: Market, m': Market, users: nat, aid: AuctionId)
    requires aid in m.auctions && AuctionInv(m, users, aid) && ActiveOrders(m, aid) == {}
    requires aid in m'.auctions && Coupled(m', aid) && RowOk(m'.auctions[aid])
    requires var r1, r2 := m.auctions[aid], m'.auctions[aid];
      && r2.status == CLOSED && r2.startPrice == r1.startPrice && r2.buyNowPrice == r1.buyNowPrice
      && r2.extendCount == r1.extendCount && r2.sellerUserId == r1.sellerUserId
    requires |m'.bids| == |m.bids|
    requires forall i: BidId :: i < |m.bids| ==>
      m'.bids[i] == m.bids[i] || exists now :: m'.bids[i] == m.bids[i].(disqualifiedAt := Some(now))
    requires forall o :: o in ActiveOrders(m', aid) ==> m'.orders[o].status == PENDING
    ensures AuctionInv(m', users, aid)
  {
    OpenUnconverted(m, users, aid);
    assert Settled(m', aid);
  }

  lemma CloseKeepsHere(m: Market, users: nat, aid: AuctionId, now: Millis)
    requires References(m, users) && aid in m.auctions && AuctionInv(m, users, aid) && m.auctions[aid].status == OPEN
    requires CloseRowOk(m, aid, now)
    ensures AuctionInv(ClosedMarket(m, aid, now), users, aid)
  {
    CloseBids(m, aid, now);
    CloseOrders(m, aid, now);
    CloseCoupled(m, users, aid, now);
    EndedKeeps(m, ClosedMarket(m, aid, now), users, aid);
  }

  lemma CloseKeeps(m: Market, users: nat, aid: AuctionId, now: Millis)
    requires MarketInv(m, users) && aid in m.auctions && m.auctions[aid].status == OPEN && CloseRowOk(m, aid, now)
    requires forall i :: 0 <= i < |m.bids| ==> m.bids[i].userId < users
    ensures MarketInv(ClosedMarket(m, aid, now), users)
  {
    assert AuctionInv(m, users, aid);
    CloseKeepsHere(m, users, aid, now);
    CloseElsewhere(m, users, aid, now);
    OneAuction(m, ClosedMarket(m, aid, now), users, aid);
  }

  lemma CloseKeepsPrices(m: Market, aid: AuctionId, now: Millis)
    requires aid in m.auctions && PriceInv(m, aid)
    ensures PriceInv(ClosedMarket(m, aid, now), aid)
  {
    CloseBids(m, aid, now);
    CloseOrders(m, aid, now);
    FewerLive(m.bids, ClosedMarket(m, aid, now).bids, aid, m.auctions[aid]);
  }

  /** A market that differs in one auction's row and bids and has at most one order more, also there. */
  lemma OneRow(m: Market, m': Market, users: nat, aid: AuctionId)
    requires References(m, users) && aid in m.auctions
    requires aid in m'.auctions && m'.auctions == m.auctions[aid := m'.auctions[aid]] && m'.nextAuction == m.nextAuction
    requires |m'.bids| == |m.bids|
    requires forall i :: 0 <= i < |m.bids| ==>
      m'.bids[i] == m.bids[i] || (m.bids[i].auctionId == aid == m'.bids[i].auctionId)
    requires
      || (m'.orders == m.orders && m'.nextOrder == m.nextOrder)
      || (exists o: Order :: o.auctionId == aid && o.buyerUserId < users && 0 <= o.finalPrice
            && m'.orders == m.orders[m.nextOrder := o] && m'.nextOrder == m.nextOrder + 1)
    ensures References(m', users)
    ensures forall a :: a in m'.auctions && a != aid ==> a in m.auctions && Untouched(m, m', a)
  {
  }

  lemma CloseElsewhere(m: Market, users: nat, aid: AuctionId, now: Millis)
    requires References(m, users) && aid in m.auctions && 0 <= CloseResultOf(m, aid).finalPrice
    requires forall i :: 0 <= i < |m.bids| ==> m.bids[i].userId < users
    ensures var m' := ClosedMarket(m, aid, now);
      References(m', users) && forall a :: a in m'.auctions && a != aid ==> a in m.auctions && Untouched(m, m', a)
  {
    CloseBids(m, aid, now);
    CloseOrders(m, aid, now);
    LeaderIs(m.bids, aid);
    OneRow(m, ClosedMarket(m, aid, now), users, aid);
  }

  lemma BuyNowKeeps(m: Market, users: nat, aid: AuctionId, user: UserId, price: int, now: Millis)
    requires MarketInv(m, users) && aid in m.auctions && m.auctions[aid].status == OPEN && user < users
    requires RowOk(ClosedRow(m.auctions[aid], Some(user), price, now))
    ensures MarketInv(BoughtMarket(m, aid, user, price, now), users)
  {
    assert AuctionInv(m, users, aid);
    var o, m' := Order(aid, user, price, PENDING), BoughtMarket(m, aid, user, price, now);
    assert m'.orders == m.orders[m.nextOrder := o];
    OneRow(m, m', users, aid);
    assert ActiveOrders(m', aid) == {m.nextOrder} by {
      assert ActiveOrders(m, aid) == {};
    }
    EndedKeeps(m, m', users, aid);
    OneAuction(m, m', users, aid);
  }

  /** The finalize payload is the one column no other invariant reads. */
  lemma PayloadKeeps(m: Market, users: nat, aid: AuctionId, payload: Option<Json>)
    requires MarketInv(m, users)
    ensures MarketInv(SetPayload(m, aid, payload), users)
  {
    var m' := SetPayload(m, aid, payload);
    forall a | a in m'.auctions ensures AuctionInv(m', users, a) {
      assert AuctionInv(m, users, a);
      UntouchedKeeps(m, m', users, a);
    }
  }

  lemma CreateKeeps(db: Db, users: nat, a: NewAuction, seller: UserId, now: Millis)
    requires MarketInv(db.market, users) && users == |db.wallet.balance|
    ensures MarketInv(CreateAuction(db, a, seller, now).db.market, users)
  {
    var m, m', id := db.market, CreateAuction(db, a, seller, now).db.market, db.market.nextAuction;
    if CreateAuction(db, a, seller, now).result.Ok? {
      assert ActiveOrders(m', id) == {};
      NoneLive(m'.bids, id);
      assert AuctionInv(m', users, id);
      OneAuction(m, m', users, id);
    }
  }

  lemma PatchKeeps(db: Db, users: nat, aid: AuctionId, p: Patch, now: Millis)
    requires MarketInv(db.market, users)
    ensures MarketInv(PatchAuction(db, aid, p, now).db.market, users)
  {
    var m, m' := db.market, PatchAuction(db, aid, p, now).db.market;
    if PatchAuction(db, aid, p, now).result.Ok? {
      assert AuctionInv(m, users, aid);
      OneRow(m, m', users, aid);
      assert ActiveOrders(m', aid) == ActiveOrders(m, aid);
      if !HasBids(m.bids, aid) {
        NoneLive(m.bids, aid);
      }
      assert AuctionInv(m', users, aid);
      OneAuction(m, m', users, aid);
    }
  }

  lemma DeleteKeeps(db: Db, users: nat, aid: AuctionId, user: UserId, admin: bool)
    requires MarketInv(db.market, users)
    ensures MarketInv(DeleteAuction(db, aid, user, admin).db.market, users)
  {
    var m, m' := db.market, DeleteAuction(db, aid, user, admin).db.market;
    if DeleteAuction(db, aid, user, admin).result.Ok? {
      OneAuction(m, m', users, aid);
    }
  }

  // ---------------------------------------------------------------- paying and reopening

  /** The row an order reference was read from, as long as the row is there. */
  ghost predicate RefOk(m: Market, o: OrderRef) {
    && o.id < m.nextOrder
    && (o.id in m.orders ==>
          && m.orders[o.id].auctionId == o.auctionId && m.orders[o.id].buyerUserId == o.buyerUserId
          && m.orders[o.id].finalPrice == o.finalPrice
          && o.auctionId in m.auctions && m.auctions[o.auctionId].sellerUserId == o.sellerUserId)
  }

  /** The only active order of the auction got the status PAID. */
  lemma PaidOrders(m: Market, o: OrderRef)
    requires RefOk(m, o) && Pending(m, o.id) && ActiveOrders(m, o.auctionId) == {o.id}
    ensures ActiveOrders(WithStatus(m, o.id, PAID), o.auctionId) == {o.id}
  {
  }

  lemma PaidBids(m: Market, o: OrderRef, winner: bool, now: Millis)
    requires o.id in m.orders
    ensures var bids', live := PaidMarket(m, o, winner, now).bids, LiveBids(m.bids, o.auctionId);
      && |bids'| == |m.bids|
      && (forall i :: 0 <= i < |m.bids| ==> bids'[i] == m.bids[i] || m.bids[i].auctionId == o.auctionId)
      && (forall i :: 0 <= i < |m.bids| ==>
            bids'[i].auctionId == m.bids[i].auctionId && bids'[i].bidPrice == m.bids[i].bidPrice
            && bids'[i].userId == m.bids[i].userId)
      && LiveBids(bids', o.auctionId) == (if winner then live else [])
      && forall i :: 0 <= i < |m.bids| ==>
           bids'[i].converted == (m.bids[i].converted || (winner && live != [] && live[0] == i))
  {
    var bids', live := PaidMarket(m, o, winner, now).bids, LiveBids(m.bids, o.auctionId);
    assert live != [] ==> live[0] in live;
    if winner {
      LiveFrame(m.bids, bids', o.auctionId);
    } else {
      forall i: BidId ensures !Live(bids', o.auctionId, i) {
        assert Live(bids', o.auctionId, i) ==> Live(m.bids, o.auctionId, i) && i in live;
      }
      NoneLive(bids', o.auctionId);
    }
  }

  lemma PayKeepsHere(m: Market, users: nat, o: OrderRef, winner: bool, now: Millis)
    requires RefOk(m, o) && Pending(m, o.id) && winner == IsAuctionWinner(m.bids, o)
    requires o.auctionId in m.auctions && AuctionInv(m, users, o.auctionId)
    requires ActiveOrders(m, o.auctionId) == {o.id} && m.auctions[o.auctionId].status == CLOSED
    requires forall i :: 0 <= i < |m.bids| && m.bids[i].auctionId == o.auctionId ==> !m.bids[i].converted
    ensures AuctionInv(PaidMarket(m, o, winner, now), users, o.auctionId)
  {
    var m', aid, live := PaidMarket(m, o, winner, now), o.auctionId, LiveBids(m.bids, o.auctionId);
    PaidBids(m, o, winner, now);
    PaidOrders(m, o);
    assert ActiveOrders(m', aid) == {o.id};
    assert live != [] ==> live[0] in live;
    assert Settled(m', aid);
  }

  lemma PayKeepsPrices(m: Market, o: OrderRef, winner: bool, now: Millis)
    requires o.id in m.orders && o.auctionId in m.auctions && PriceInv(m, o.auctionId)
    requires m.auctions[o.auctionId].status == CLOSED
    ensures PriceInv(PaidMarket(m, o, winner, now), o.auctionId)
  {
    var m', aid := PaidMarket(m, o, winner, now), o.auctionId;
    PaidBids(m, o, winner, now);
    forall i: BidId | Live(m'.bids, aid, i) ensures Live(m.bids, aid, i) {
      assert i in LiveBids(m'.bids, aid);
    }
    FewerLive(m.bids, m'.bids, aid, m.auctions[aid]);
  }

  lemma PayKeepsMarket(m: Market, users: nat, o: OrderRef, winner: bool, now: Millis)
    requires MarketInv(m, users) && RefOk(m, o) && Pending(m, o.id) && winner == IsAuctionWinner(m.bids, o)
    ensures MarketInv(PaidMarket(m, o, winner, now), users)
  {
    PendingMeans(m, users, o.id);
    assert AuctionInv(m, users, o.auctionId);
    PayKeepsHere(m, users, o, winner, now);
    PayElsewhere(m, users, o, winner, now);
    OneAuction(m, PaidMarket(m, o, winner, now), users, o.auctionId);
  }

  /** As `OneRow`, for a change of one order's status. */
  lemma OneStatus(m: Market, m': Market, users: nat, o: OrderId, status: OrderStatus)
    requires References(m, users) && o in m.orders
    requires var aid := m.orders[o].auctionId;
      aid in m'.auctions && m'.auctions == m.auctions[aid := m'.auctions[aid]]
    requires m'.orders == WithStatus(m, o, status).orders
    requires m'.nextAuction == m.nextAuction && m'.nextOrder == m.nextOrder && |m'.bids| == |m.bids|
    requires forall i :: 0 <= i < |m.bids| ==>
      m'.bids[i] == m.bids[i] || (m.bids[i].auctionId == m.orders[o].auctionId == m'.bids[i].auctionId)
    ensures References(m', users)
    ensures forall a :: a in m'.auctions && a != m.orders[o].auctionId ==> a in m.auctions && Untouched(m, m', a)
  {
  }

  lemma PayElsewhere(m: Market, users: nat, o: OrderRef, winner: bool, now: Millis)
    requires References(m, users) && RefOk(m, o) && Pending(m, o.id)
    ensures var m' := PaidMarket(m, o, winner, now);
      && References(m', users)
      && forall a :: a in m'.auctions && a != o.auctionId ==> a in m.auctions && Untouched(m, m', a)
  {
    PaidBids(m, o, winner, now);
    OneStatus(m, PaidMarket(m, o, winner, now), users, o.id, PAID);
  }

  /** The live bids after the highest one is disqualified: its successor heads the list. */
  lemma WithoutTop(bids: seq<Bid>, aid: AuctionId, now: Millis)
    requires LiveBids(bids, aid) != [] && DistinctPrices(bids, aid)
    ensures var live := LiveBids(bids, aid); var live' := LiveBids(Disqualify(bids, [live[0]], now), aid);
      if |live| == 1 then live' == [] else live' != [] && live'[0] == live[1]
  {
    hide LiveBids, LiveUpTo;
    var live := LiveBids(bids, aid);
    var bids' := Disqualify(bids, [live[0]], now);
    var live' := LiveBids(bids', aid);
    assert live[0] in live;
    if |live| == 1 {
      forall i: BidId ensures !Live(bids', aid, i) {
        assert Live(bids', aid, i) ==> Live(bids, aid, i) && i in live;
      }
      NoneLive(bids', aid);
    } else {
      assert live[1] in live && live[0] != live[1];
      forall i: BidId | Live(bids', aid, i) && i != live[1] ensures bids'[i].bidPrice < bids'[live[1]].bidPrice {
        assert i in live && i != live[0];
        var k :| 0 <= k < |live| && live[k] == i;
        assert k > 1;
        assert bids[live[k]].bidPrice <= bids[live[1]].bidPrice;
      }
      HeadIs(bids', aid, live[1]);
    }
  }

  /** The price a reopening writes is the best live price of the bids it leaves. */
  lemma BaselineIsBest(m: Market, o: OrderRef, now: Millis)
    requires Reopens(m, o) && DistinctPrices(m.bids, o.auctionId)
    ensures var start := m.auctions[o.auctionId].startPrice;
      BaselinePrice(m.bids, o, start) == BestPrice(ReopenedMarket(m, o, now).bids, o.auctionId, start)
  {
    hide LiveBids, DistinctPrices;
    if IsAuctionWinner(m.bids, o) {
      WithoutTop(m.bids, o.auctionId, now);
    }
  }

  /** A live bid above the auction's buy-now price: a bot's bid whose hold failed, since every other bid above it
      is aborted. */
  ghost predicate AboveBuyNow(m: Market, aid: AuctionId) {
    && aid in m.auctions && m.auctions[aid].buyNowPrice.Some?
    && exists i: BidId :: Live(m.bids, aid, i) && m.auctions[aid].buyNowPrice.value < m.bids[i].bidPrice
  }

  /** Some live bid is above a price exactly if the highest one is. */
  lemma BestIsAbove(bids: seq<Bid>, aid: AuctionId, price: int)
    ensures (exists i: BidId :: Live(bids, aid, i) && price < bids[i].bidPrice) <==>
      LiveBids(bids, aid) != [] && price < bids[LiveBids(bids, aid)[0]].bidPrice
  {
    var live := LiveBids(bids, aid);
    HeadIsMember(live);
    if i: BidId :| Live(bids, aid, i) && price < bids[i].bidPrice {
      assert i in live;
      var k :| 0 <= k < |live| && live[k] == i;
      assert bids[live[k]].bidPrice <= bids[live[0]].bidPrice;
    }
  }

  /** A reopening is refused exactly on an auction with a live bid above its buy-now price; no other CHECK stops
      it, and none does while the prices are in order. */
  lemma ReopenRowOkIff(m: Market, users: nat, o: OrderRef, now: Millis)
    requires MarketInv(m, users) && RefOk(m, o) && Reopens(m, o)
    ensures ReopenRowOk(m, o, now) <==> !AboveBuyNow(m, o.auctionId)
    ensures PriceInv(m, o.auctionId) ==> ReopenRowOk(m, o, now)
  {
    hide References, Coupled, Settled;
    var row, live := m.auctions[o.auctionId], LiveBids(m.bids, o.auctionId);
    PendingMeans(m, users, o.id);
    assert AuctionInv(m, users, o.auctionId);
    assert |live| > 0 ==> live[0] in live;
    assert |live| > 1 ==> live[1] in live && m.bids[live[1]].bidPrice <= m.bids[live[0]].bidPrice;
    if row.buyNowPrice.Some? {
      BestIsAbove(m.bids, o.auctionId, row.buyNowPrice.value);
    }
  }

  lemma ReopenBids(m: Market, o: OrderRef, now: Millis)
    requires Reopens(m, o)
    ensures var bids' := ReopenedMarket(m, o, now).bids;
      && |bids'| == |m.bids|
      && (forall i :: 0 <= i < |m.bids| ==> bids'[i] == m.bids[i] || m.bids[i].auctionId == o.auctionId)
      && (forall i :: 0 <= i < |m.bids| ==>
            bids'[i] == m.bids[i] || bids'[i] == m.bids[i].(disqualifiedAt := Some(now)))
  {
    var live := LiveBids(m.bids, o.auctionId);
    assert live != [] ==> live[0] in live;
  }

  lemma ReopenKeepsHere(m: Market, users: nat, o: OrderRef, now: Millis)
    requires RefOk(m, o) && Reopens(m, o) && AuctionInv(m, users, o.auctionId) && ReopenRowOk(m, o, now)
    requires ActiveOrders(m, o.auctionId) == {o.id}
    requires forall i :: 0 <= i < |m.bids| && m.bids[i].auctionId == o.auctionId ==> !m.bids[i].converted
    ensures AuctionInv(ReopenedMarket(m, o, now), users, o.auctionId)
  {
    var m', aid := ReopenedMarket(m, o, now), o.auctionId;
    ReopenBids(m, o, now);
    WithStatusActive(m, o.id, CANCELLED, aid);
    assert ActiveOrders(m', aid) == {};
    assert Settled(m', aid);
  }

  lemma ReopenKeepsPrices(m: Market, o: OrderRef, now: Millis)
    requires Reopens(m, o) && PriceInv(m, o.auctionId)
    ensures PriceInv(ReopenedMarket(m, o, now), o.auctionId)
  {
    BaselineIsBest(m, o, now);
    ReopenBids(m, o, now);
    FewerLive(m.bids, ReopenedMarket(m, o, now).bids, o.auctionId, m.auctions[o.auctionId]);
  }

  lemma ReopenKeepsMarket(m: Market, users: nat, o: OrderRef, now: Millis)
    requires MarketInv(m, users) && RefOk(m, o) && Reopens(m, o) && ReopenRowOk(m, o, now)
    ensures MarketInv(ReopenedMarket(m, o, now), users)
  {
    PendingMeans(m, users, o.id);
    assert AuctionInv(m, users, o.auctionId);
    ReopenKeepsHere(m, users, o, now);
    ReopenElsewhere(m, users, o, now);
    OneAuction(m, ReopenedMarket(m, o, now), users, o.auctionId);
  }

  lemma ReopenElsewhere(m: Market, users: nat, o: OrderRef, now: Millis)
    requires References(m, users) && RefOk(m, o) && Reopens(m, o)
    ensures var m' := ReopenedMarket(m, o, now);
      && References(m', users)
      && forall a :: a in m'.auctions && a != o.auctionId ==> a in m.auctions && Untouched(m, m', a)
  {
    ReopenBids(m, o, now);
    OneStatus(m, ReopenedMarket(m, o, now), users, o.id, CANCELLED);
  }
}
