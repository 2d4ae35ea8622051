/** The database invariant over both halves, what every transaction does to the money, and how the tables
    may evolve from one commit to any later one. */
module DatabaseInvariant {
  import opened Schema
  import opened WalletMoves
  import opened Transactions
  import opened MarketInvariant

  ghost predicate DbInv(db: Db) {
    MarketInv(db.market, |db.wallet.balance|) && WalletInv(db.market.bids, db.wallet)
  }

  function TotalMoney(db: Db): int { Wealth(db.market.bids, db.wallet) }

  /** Opening balance plus top-ups, as far as the tables tell. */
  function Deposited(db: Db, user: UserId): int
    requires user < |db.wallet.balance|
  {
    Unexplained(db.market.bids, db.wallet, user)
  }

  /** No money appears or disappears, in total and for each user's account of it. */
  ghost predicate SameMoney(db1: Db, db2: Db) {
    && |db2.wallet.balance| == |db1.wallet.balance|
    && TotalMoney(db2) == TotalMoney(db1)
    && forall u: UserId :: u < |db1.wallet.balance| ==> Deposited(db2, u) == Deposited(db1, u)
  }

  // ---------------------------------------------------------------- evolution

  ghost predicate BidsEvolve(b1: seq<Bid>, b2: seq<Bid>) {
    && |b1| <= |b2|
    && forall i :: 0 <= i < |b1| ==>
      && b2[i].auctionId == b1[i].auctionId && b2[i].userId == b1[i].userId && b2[i].bidPrice == b1[i].bidPrice
      && (b1[i].disqualifiedAt.Some? ==> b2[i].disqualifiedAt.Some?)
      && (b1[i].converted ==> b2[i].converted)
  }

  ghost predicate OrdersEvolve(m1: Market, m2: Market) {
    && m1.nextOrder <= m2.nextOrder
    && (forall o :: o in m2.orders && o < m1.nextOrder ==>
          && o in m1.orders
          && m2.orders[o].auctionId == m1.orders[o].auctionId
          && m2.orders[o].buyerUserId == m1.orders[o].buyerUserId
          && m2.orders[o].finalPrice == m1.orders[o].finalPrice
          && (m1.orders[o].status != PENDING ==> m2.orders[o].status == m1.orders[o].status))
    && (forall o :: o in m1.orders && o !in m2.orders ==> m1.orders[o].status != PAID)
  }

  ghost predicate ClosedUnsold(row: Auction) { row.status == CLOSED && row.winnerUserId.None? }

  ghost predicate AuctionsEvolve(m1: Market, m2: Market) {
    && m1.nextAuction <= m2.nextAuction
    && m1.uniqueOrder == m2.uniqueOrder
    && (forall a :: a in m2.auctions && a < m1.nextAuction ==>
          && a in m1.auctions && m2.auctions[a].sellerUserId == m1.auctions[a].sellerUserId
          && (ClosedUnsold(m1.auctions[a]) ==> ClosedUnsold(m2.auctions[a])))
    && (forall o :: o in m1.orders && m1.orders[o].auctionId in m2.auctions ==> o in m2.orders)
  }

  /** An order that is active, and in the same status, in both markets. */
  ghost predicate Stands(m1: Market, m2: Market, o: OrderId) {
    o in m1.orders && o in m2.orders && m1.orders[o].status == m2.orders[o].status != CANCELLED
  }

  /** While an order stays pending, or stays paid, its auction's row (but for the payload), bids and orders
      stand still. */
  ghost predicate ActiveFrozen(m1: Market, m2: Market) {
    forall o {:trigger Stands(m1, m2, o)} :: Stands(m1, m2, o) ==> Untouched(m1, m2, m1.orders[o].auctionId)
  }

  /** Bids keep their auction, bidder and price and are never requalified; an order that left PENDING never
      changes again and a paid order stays; an auction closed unsold stays so; what an active order covers is
      frozen. */
  ghost predicate Evolves(m1: Market, m2: Market) {
    && BidsEvolve(m1.bids, m2.bids)
    && OrdersEvolve(m1, m2)
    && AuctionsEvolve(m1, m2)
    && ActiveFrozen(m1, m2)
  }

  lemma UntouchedTransitive(m1: Market, m2: Market, m3: Market, aid: AuctionId)
    requires Untouched(m1, m2, aid) && Untouched(m2, m3, aid)
    ensures Untouched(m1, m3, aid)
  {
  }

  lemma EvolvesTransitive(m1: Market, m2: Market, m3: Market, users: nat)
    requires Evolves(m1, m2) && Evolves(m2, m3) && References(m1, users) && References(m3, users)
    ensures Evolves(m1, m3)
  {
    forall o: OrderId | Stands(m1, m3, o) ensures Untouched(m1, m3, m1.orders[o].auctionId) {
      assert o < m1.nextOrder && Stands(m1, m2, o) && Stands(m2, m3, o);
      UntouchedTransitive(m1, m2, m3, m1.orders[o].auctionId);
    }
  }

  /** The decision on a pending order's winner is the same whenever it is taken. */
  lemma DecisionFrozen(m1: Market, m2: Market, o: OrderRef)
    requires Evolves(m1, m2) && RefOk(m1, o) && Pending(m1, o.id) && Pending(m2, o.id)
    ensures IsAuctionWinner(m1.bids, o) == IsAuctionWinner(m2.bids, o)
  {
    assert Stands(m1, m2, o.id);
    UntouchedViews(m1, m2, o.auctionId);
    var live := LiveBids(m1.bids, o.auctionId);
    assert live != [] ==> live[0] in live;
  }

  lemma RefStays(m1: Market, m2: Market, users: nat, o: OrderRef)
    requires Evolves(m1, m2) && References(m1, users) && References(m2, users) && RefOk(m1, o)
    ensures RefOk(m2, o)
  {
  }

  /** PENDING is never entered again. */
  lemma PendingWasPending(m1: Market, m2: Market, o: OrderId)
    requires Evolves(m1, m2) && o < m1.nextOrder && Pending(m2, o)
    ensures Pending(m1, o)
  {
  }

  /** A transaction on one auction evolves the tables if no active order there keeps its status. */
  lemma OneAuctionEvolves(m: Market, m': Market, users: nat, t: AuctionId)
    requires References(m, users)
    requires BidsEvolve(m.bids, m'.bids) && OrdersEvolve(m, m') && AuctionsEvolve(m, m')
    requires forall a :: a in m'.auctions && a != t ==> a in m.auctions && Untouched(m, m', a)
    requires References(m', users)
    requires forall o {:trigger Stands(m, m', o)} :: Stands(m, m', o) ==> m.orders[o].auctionId != t
    ensures Evolves(m, m')
  {
  }

  // ---------------------------------------------------------------- the transactions

  lemma NoneActiveOnOpen(m: Market, users: nat, aid: AuctionId)
    requires MarketInv(m, users) && aid in m.auctions && m.auctions[aid].status == OPEN
    ensures forall o :: o in m.orders && m.orders[o].status != CANCELLED ==> m.orders[o].auctionId != aid
  {
    assert AuctionInv(m, users, aid);
    forall o | o in m.orders && m.orders[o].status != CANCELLED ensures m.orders[o].auctionId != aid {
      assert m.orders[o].auctionId == aid ==> o in ActiveOrders(m, aid);
    }
  }

  lemma BidEvolves(m: Market, users: nat, aid: AuctionId, user: UserId, price: int, now: Millis)
    requires MarketInv(m, users) && Locks(m, aid, OpenAfter(now))
    ensures Evolves(m, BidMarket(m, aid, user, price, now))
  {
    NoneActiveOnOpen(m, users, aid);
    BidElsewhere(m, users, aid, user, price, now);
    OneAuctionEvolves(m, BidMarket(m, aid, user, price, now), users, aid);
  }

  lemma PlaceBidKeeps(db: Db, aid: AuctionId, user: UserId, price: int, now: Millis)
    requires DbInv(db)
    ensures var db' := PlaceBid(db, aid, user, price, now).db;
      DbInv(db') && SameMoney(db, db') && Evolves(db.market, db'.market)
  {
    if PlaceBid(db, aid, user, price, now).result.Ok? {
      BidKeeps(db.market, |db.wallet.balance|, aid, user, price, now);
      BidEvolves(db.market, |db.wallet.balance|, aid, user, price, now);
      HoldKeeps(db.market.bids, db.wallet, NewBid(aid, user, price));
    } else {
      Same(db);
    }
  }

  lemma Same(db: Db)
    requires DbInv(db)
    ensures SameMoney(db, db) && Evolves(db.market, db.market)
  {
  }

  /** The bot's bid reached the hold and the hold did not go through. */
  predicate BotHoldFails(db: Db, aid: AuctionId, bot: UserId, price: int, now: Millis) {
    && BidError(db.market, aid, bot, price, now).None? && BidInsertOk(db.wallet, bot, price)
    && !Covers(db.wallet, bot, price)
  }

  /** Otherwise the bot's bid ends as a user's bid would. */
  lemma BotAsUser(db: Db, aid: AuctionId, bot: UserId, price: int, now: Millis)
    requires !BotHoldFails(db, aid, bot, price, now)
    ensures PlaceBidAsBot(db, aid, bot, price, now).db == PlaceBid(db, aid, bot, price, now).db
  {
  }

  /** The row inserted without its hold moves no money: nothing is withheld for it. */
  lemma UnheldKeepsDb(db: Db, aid: AuctionId, bot: UserId, price: int, now: Millis)
    requires DbInv(db) && BotHoldFails(db, aid, bot, price, now)
    ensures var db' := Db(WithBid(db.market, NewBid(aid, bot, price)), db.wallet);
      DbInv(db') && SameMoney(db, db') && Evolves(db.market, db'.market)
  {
    var m, users := db.market, |db.wallet.balance|;
    UnheldKeepsMarket(m, users, aid, bot, price, now);
    UnheldKeeps(m.bids, db.wallet, NewBid(aid, bot, price));
    UnheldEvolves(m, users, aid, bot, price, now);
  }

  lemma UnheldEvolves(m: Market, users: nat, aid: AuctionId, bot: UserId, price: int, now: Millis)
    requires MarketInv(m, users) && BidError(m, aid, bot, price, now).None?
    ensures Evolves(m, WithBid(m, NewBid(aid, bot, price)))
  {
    NoneActiveOnOpen(m, users, aid);
    OneAuctionEvolves(m, WithBid(m, NewBid(aid, bot, price)), users, aid);
  }

  lemma BotKeeps(db: Db, aid: AuctionId, bot: UserId, price: int, now: Millis)
    requires DbInv(db)
    ensures var db' := PlaceBidAsBot(db, aid, bot, price, now).db;
      DbInv(db') && SameMoney(db, db') && Evolves(db.market, db'.market)
  {
    hide DbInv, SameMoney, Evolves, BidError;
    if BotHoldFails(db, aid, bot, price, now) {
      UnheldKeepsDb(db, aid, bot, price, now);
    } else {
      PlaceBidKeeps(db, aid, bot, price, now);
      BotAsUser(db, aid, bot, price, now);
    }
  }

  lemma PlaceBidPrices(db: Db, aid: AuctionId, user: UserId, price: int, now: Millis)
    requires DbInv(db) && aid in db.market.auctions && PriceInv(db.market, aid)
    ensures PriceInv(PlaceBid(db, aid, user, price, now).db.market, aid)
  {
    if PlaceBid(db, aid, user, price, now).result.Ok? {
      assert AuctionInv(db.market, |db.wallet.balance|, aid);
      BidLeads(db.market, aid, user, price, now);
    }
  }

  /** The bot path keeps the auction's price its best live price exactly when the hold does not fail after the
      insert. */
  lemma BotKeepsIff(db: Db, aid: AuctionId, bot: UserId, price: int, now: Millis)
    requires DbInv(db) && aid in db.market.auctions && PriceInv(db.market, aid)
    ensures PriceInv(PlaceBidAsBot(db, aid, bot, price, now).db.market, aid)
      <==> !BotHoldFails(db, aid, bot, price, now)
  {
    if BotHoldFails(db, aid, bot, price, now) {
      assert AuctionInv(db.market, |db.wallet.balance|, aid);
      UnheldLeads(db.market, aid, bot, price, now);
    } else {
      PlaceBidPrices(db, aid, bot, price, now);
      BotAsUser(db, aid, bot, price, now);
    }
  }

  lemma CloseKeepsDb(db: Db, aid: AuctionId, options: LockOptions, now: Millis)
    requires DbInv(db) && options.statusOpen
    ensures var db' := ExecuteClose(db, aid, options, now).db;
      DbInv(db') && SameMoney(db, db') && Evolves(db.market, db'.market)
  {
    hide ClosedMarket, Unexplained, Wealth, CloseResultOf;
    var m, users := db.market, |db.wallet.balance|;
    if Locks(m, aid, options) && ExecuteClose(db, aid, options, now).result.Ok? {
      var m' := ClosedMarket(m, aid, now);
      CloseKeeps(m, users, aid, now);
      CloseEvolves(m, users, aid, now);
      AdvanceKeeps(m.bids, m'.bids, db.wallet) by {
        assert AuctionInv(m, users, aid);
        OpenUnconverted(m, users, aid);
        CloseBids(m, aid, now);
      }
    } else {
      Same(db);
    }
  }

  /** A transaction that ends an open auction or changes its row, with at most one order more there. */
  lemma OneRowEvolves(m: Market, m': Market, users: nat, aid: AuctionId)
    requires References(m, users) && aid in m.auctions && aid in m'.auctions
    requires forall o :: o in m.orders && m.orders[o].status != CANCELLED ==> m.orders[o].auctionId != aid
    requires !ClosedUnsold(m.auctions[aid])
    requires m'.auctions == m.auctions[aid := m'.auctions[aid]] && m'.nextAuction == m.nextAuction
    requires m'.auctions[aid].sellerUserId == m.auctions[aid].sellerUserId && m'.uniqueOrder == m.uniqueOrder
    requires |m'.bids| == |m.bids|
    requires forall i: BidId :: i < |m.bids| ==>
      m'.bids[i] == m.bids[i]
      || (m.bids[i].auctionId == aid && exists now :: m'.bids[i] == m.bids[i].(disqualifiedAt := Some(now)))
    requires
      || (m'.orders == m.orders && m'.nextOrder == m.nextOrder)
      || (exists o: Order :: o.auctionId == aid && o.buyerUserId < users && 0 <= o.finalPrice
            && m'.orders == m.orders[m.nextOrder := o] && m'.nextOrder == m.nextOrder + 1)
    ensures Evolves(m, m')
  {
    assert BidsEvolve(m.bids, m'.bids);
    assert OrdersEvolve(m, m') && AuctionsEvolve(m, m');
    OneRow(m, m', users, aid);
    OneAuctionEvolves(m, m', users, aid);
  }

  lemma CloseEvolves(m: Market, users: nat, aid: AuctionId, now: Millis)
    requires MarketInv(m, users) && aid in m.auctions && m.auctions[aid].status == OPEN && CloseRowOk(m, aid, now)
    requires forall i :: 0 <= i < |m.bids| ==> m.bids[i].userId < users
    ensures Evolves(m, ClosedMarket(m, aid, now))
  {
    assert AuctionInv(m, users, aid);
    NoneActiveOnOpen(m, users, aid);
    CloseBids(m, aid, now);
    CloseOrders(m, aid, now);
    LeaderIs(m.bids, aid);
    OneRowEvolves(m, ClosedMarket(m, aid, now), users, aid);
  }

  lemma BuyNowKeepsDb(db: Db, aid: AuctionId, user: UserId, price: int, now: Millis)
    requires DbInv(db)
    ensures var db' := BuyNow(db, aid, user, price, now).db;
      DbInv(db') && SameMoney(db, db') && Evolves(db.market, db'.market)
  {
    var m, users := db.market, |db.wallet.balance|;
    if BuyNow(db, aid, user, price, now).result.Ok? {
      BuyNowKeeps(m, users, aid, user, price, now);
      BuyNowEvolves(m, users, aid, user, price, now);
    } else {
      Same(db);
    }
  }

  lemma BuyNowEvolves(m: Market, users: nat, aid: AuctionId, user: UserId, price: int, now: Millis)
    requires MarketInv(m, users) && aid in m.auctions && m.auctions[aid].status == OPEN && user < users
    requires RowOk(ClosedRow(m.auctions[aid], Some(user), price, now))
    ensures Evolves(m, BoughtMarket(m, aid, user, price, now))
  {
    var m', o := BoughtMarket(m, aid, user, price, now), Order(aid, user, price, PENDING);
    NoneActiveOnOpen(m, users, aid);
    assert m'.orders == m.orders[m.nextOrder := o];
    OneRowEvolves(m, m', users, aid);
  }

  lemma CreateKeepsDb(db: Db, a: NewAuction, seller: UserId, now: Millis)
    requires DbInv(db)
    ensures var db' := CreateAuction(db, a, seller, now).db;
      DbInv(db') && SameMoney(db, db') && Evolves(db.market, db'.market)
  {
    CreateKeeps(db, |db.wallet.balance|, a, seller, now);
    CreateEvolves(db, |db.wallet.balance|, a, seller, now);
  }

  lemma CreateEvolves(db: Db, users: nat, a: NewAuction, seller: UserId, now: Millis)
    requires References(db.market, users)
    ensures Evolves(db.market, CreateAuction(db, a, seller, now).db.market)
  {
    hide Evolves, RowOk, References;
    if CreateAuction(db, a, seller, now).result.Ok? {
      var m, id := db.market, db.market.nextAuction;
      NewRowEvolves(m, users, m.(auctions := m.auctions[id := FreshRow(a, seller)], nextAuction := id + 1));
    } else {
      StandsStill(db.market, users);
    }
  }

  lemma StandsStill(m: Market, users: nat)
    requires References(m, users)
    ensures Evolves(m, m)
  {
  }

  /** A market with one auction row more, under a fresh id. */
  lemma NewRowEvolves(m: Market, users: nat, m': Market)
    requires References(m, users) && m.nextAuction in m'.auctions
    requires m' == m.(auctions := m.auctions[m.nextAuction := m'.auctions[m.nextAuction]],
                      nextAuction := m.nextAuction + 1)
    ensures Evolves(m, m')
  {
    OneAuctionEvolves(m, m', users, m.nextAuction);
  }

  lemma PatchKeepsDb(db: Db, aid: AuctionId, p: Patch, now: Millis)
    requires DbInv(db)
    ensures var db' := PatchAuction(db, aid, p, now).db;
      DbInv(db') && SameMoney(db, db') && Evolves(db.market, db'.market)
  {
    var m, users, m' := db.market, |db.wallet.balance|, PatchAuction(db, aid, p, now).db.market;
    PatchKeeps(db, users, aid, p, now);
    if PatchAuction(db, aid, p, now).result.Ok? {
      NoneActiveOnOpen(m, users, aid);
      OneRowEvolves(m, m', users, aid);
    } else {
      Same(db);
    }
  }

  lemma DeleteKeepsDb(db: Db, aid: AuctionId, user: UserId, admin: bool)
    requires DbInv(db)
    ensures var db' := DeleteAuction(db, aid, user, admin).db;
      DbInv(db') && SameMoney(db, db') && Evolves(db.market, db'.market)
  {
    DeleteKeeps(db, |db.wallet.balance|, aid, user, admin);
    DeleteEvolves(db, |db.wallet.balance|, aid, user, admin);
  }

  lemma DeleteElsewhere(db: Db, users: nat, aid: AuctionId, user: UserId, admin: bool)
    requires References(db.market, users)
    ensures var m, m' := db.market, DeleteAuction(db, aid, user, admin).db.market;
      && References(m', users)
      && forall a :: a in m'.auctions && a != aid ==> a in m.auctions && Untouched(m, m', a)
  {
  }

  lemma DeleteEvolves(db: Db, users: nat, aid: AuctionId, user: UserId, admin: bool)
    requires References(db.market, users)
    ensures Evolves(db.market, DeleteAuction(db, aid, user, admin).db.market)
  {
    var m, m' := db.market, DeleteAuction(db, aid, user, admin).db.market;
    if DeleteAuction(db, aid, user, admin).result.Ok? {
      DeleteElsewhere(db, users, aid, user, admin);
      assert OrdersEvolve(m, m') by {
        forall o | o in m.orders && o !in m'.orders ensures m.orders[o].status != PAID {
          assert o !in ActiveOrders(m, aid);
        }
      }
      assert AuctionsEvolve(m, m');
      OneAuctionEvolves(m, m', users, aid);
    }
  }

  lemma PayloadKeepsDb(db: Db, aid: AuctionId, payload: Option<Json>)
    requires DbInv(db)
    ensures var db' := db.(market := SetPayload(db.market, aid, payload));
      DbInv(db') && SameMoney(db, db') && Evolves(db.market, db'.market)
  {
    PayloadKeeps(db.market, |db.wallet.balance|, aid, payload);
    PayloadEvolves(db.market, |db.wallet.balance|, aid, payload);
  }

  lemma PayloadEvolves(m: Market, users: nat, aid: AuctionId, payload: Option<Json>)
    requires References(m, users)
    ensures Evolves(m, SetPayload(m, aid, payload))
  {
  }

  lemma ReleaseKeepsDb(db: Db, r: CloseResult)
    requires DbInv(db) && forall k :: 0 <= k < |r.losingBids| ==> LosingOk(db.market.bids, r.losingBids[k])
    ensures var db' := ReleaseLosers(db, r);
      DbInv(db') && SameMoney(db, db') && Evolves(db.market, db'.market)
  {
    ReleaseAllKeeps(db.market.bids, db.wallet, r.losingBids);
    Same(db);
  }

  /** Money enters from outside here and nowhere else. */
  lemma TopUpKeepsDb(db: Db, user: UserId, amount: nat)
    requires DbInv(db)
    ensures var db' := TopUp(db, user, amount);
      && DbInv(db') && Evolves(db.market, db'.market) && |db'.wallet.balance| == |db.wallet.balance|
      && TotalMoney(db') == TotalMoney(db) + (if user < |db.wallet.balance| then amount else 0)
      && forall u: UserId :: u < |db.wallet.balance| ==>
           Deposited(db', u) == Deposited(db, u) + if u == user then amount else 0
  {
    if user < |db.wallet.balance| {
      SumUpdate(db.wallet.balance, user, db.wallet.balance[user] + amount);
    }
    Same(db);
  }

  // ---------------------------------------------------------------- paying and reopening

  lemma PayTablesEvolve(m: Market, users: nat, o: OrderRef, winner: bool, now: Millis)
    requires References(m, users) && RefOk(m, o) && Pending(m, o.id) && m.auctions[o.auctionId].winnerUserId.Some?
    ensures var m' := PaidMarket(m, o, winner, now);
      OrdersEvolve(m, m') && AuctionsEvolve(m, m') && forall p: OrderId :: Stands(m, m', p) ==> p != o.id
  {
  }

  lemma PayEvolves(m: Market, users: nat, o: OrderRef, winner: bool, now: Millis)
    requires MarketInv(m, users) && RefOk(m, o) && Pending(m, o.id)
    ensures Evolves(m, PaidMarket(m, o, winner, now))
  {
    hide PaidMarket, AuctionInv;
    var m' := PaidMarket(m, o, winner, now);
    PendingMeans(m, users, o.id);
    PayTablesEvolve(m, users, o, winner, now);
    PaidBidsEvolve(m, o, winner, now);
    PayElsewhere(m, users, o, winner, now);
    forall p: OrderId | Stands(m, m', p) ensures m.orders[p].auctionId != o.auctionId {
      assert p != o.id && (m.orders[p].auctionId == o.auctionId ==> p in ActiveOrders(m, o.auctionId));
    }
    OneAuctionEvolves(m, m', users, o.auctionId);
  }

  lemma PaidBidsEvolve(m: Market, o: OrderRef, winner: bool, now: Millis)
    requires o.id in m.orders
    ensures BidsEvolve(m.bids, PaidMarket(m, o, winner, now).bids)
  {
  }

  /** Payment by conversion: the winner's hold pays the seller. */
  lemma PayByHoldKeeps(db: Db, o: OrderRef, now: Millis)
    requires DbInv(db) && RefOk(db.market, o) && Pending(db.market, o.id) && IsAuctionWinner(db.market.bids, o)
    ensures var db' := PayOrder(db, o, true, now).db;
      DbInv(db') && SameMoney(db, db') && Evolves(db.market, db'.market)
  {
    hide Wealth, Unexplained, Evolves, LiveBids;
    var m, w, users := db.market, db.wallet, |db.wallet.balance|;
    PayKeepsMarket(m, users, o, true, now);
    PayEvolves(m, users, o, true, now);
    PendingMeans(m, users, o.id);
    assert AuctionInv(m, users, o.auctionId);
    var t := LiveBids(m.bids, o.auctionId)[0];
    assert t in LiveBids(m.bids, o.auctionId);
    ConvertKeeps(m.bids, w, t, o.id);
    var w1 := ConvertHoldToPayment(w, o.buyerUserId, o.finalPrice, o.id);
    SettleKeeps(MarkConverted(m.bids, o.auctionId), w1, o.sellerUserId, o.finalPrice, o.id);
  }

  lemma ListedOk(bids: seq<Bid>, aid: AuctionId, now: Millis)
    ensures var ls := Listed(bids, LiveBids(bids, aid));
      forall k :: 0 <= k < |ls| ==> LosingOk(Disqualify(bids, LiveBids(bids, aid), now), ls[k])
  {
    var live := LiveBids(bids, aid);
    forall k | 0 <= k < |live| ensures LosingOk(Disqualify(bids, live, now), Listed(bids, live)[k]) {
      assert live[k] in live;
    }
  }

  /** Direct payment: the price leaves the buyer, every live bid of the auction is released, the seller is paid. */
  lemma PayDirectlyKeeps(db: Db, o: OrderRef, now: Millis)
    requires DbInv(db) && RefOk(db.market, o) && Pending(db.market, o.id) && !IsAuctionWinner(db.market.bids, o)
    requires Covers(db.wallet, o.buyerUserId, o.finalPrice)
    ensures var db' := PayOrder(db, o, false, now).db;
      DbInv(db') && SameMoney(db, db') && Evolves(db.market, db'.market)
  {
    var m, w, users := db.market, db.wallet, |db.wallet.balance|;
    PayKeepsMarket(m, users, o, false, now);
    PayEvolves(m, users, o, false, now);
    PendingMeans(m, users, o.id);
    assert AuctionInv(m, users, o.auctionId);
    PayDirectlyWallet(m, w, o, now);
  }

  lemma PayDirectlyWallet(m: Market, w: Wallet, o: OrderRef, now: Millis)
    requires WalletInv(m.bids, w) && Covers(w, o.buyerUserId, o.finalPrice) && 0 <= o.finalPrice
    requires o.sellerUserId < |w.balance|
    requires forall i :: 0 <= i < |m.bids| && m.bids[i].auctionId == o.auctionId ==> !m.bids[i].converted
    ensures var live := LiveBids(m.bids, o.auctionId); var bids' := Disqualify(m.bids, live, now);
      var w' := SettleSeller(ReleaseAll(Pay(w, o.buyerUserId, o.finalPrice, o.id).value, Listed(m.bids, live)),
                             o.sellerUserId, o.finalPrice, o.id);
      && WalletInv(bids', w') && Wealth(bids', w') == Wealth(m.bids, w) && |w'.balance| == |w.balance|
      && forall u: UserId :: u < |w.balance| ==> Unexplained(bids', w', u) == Unexplained(m.bids, w, u)
  {
    hide Wealth, Unexplained, ReleaseAll;
    var live := LiveBids(m.bids, o.auctionId);
    var bids' := Disqualify(m.bids, live, now);
    PayKeeps(m.bids, w, o.buyerUserId, o.finalPrice, o.id);
    var w1 := Pay(w, o.buyerUserId, o.finalPrice, o.id).value;
    AdvanceKeeps(m.bids, bids', w1);
    ListedOk(m.bids, o.auctionId, now);
    ReleaseAllKeeps(bids', w1, Listed(m.bids, live));
    SettleKeeps(bids', ReleaseAll(w1, Listed(m.bids, live)), o.sellerUserId, o.finalPrice, o.id);
  }

  lemma PayOrderKeeps(db: Db, o: OrderRef, winner: bool, now: Millis)
    requires DbInv(db) && RefOk(db.market, o)
    requires Pending(db.market, o.id) ==> winner == IsAuctionWinner(db.market.bids, o)
    ensures var db' := PayOrder(db, o, winner, now).db;
      DbInv(db') && SameMoney(db, db') && Evolves(db.market, db'.market)
  {
    if !Pending(db.market, o.id) {
      Same(db);
    } else if winner {
      PayByHoldKeeps(db, o, now);
    } else if Covers(db.wallet, o.buyerUserId, o.finalPrice) {
      PayDirectlyKeeps(db, o, now);
    } else {
      Same(db);
    }
  }

  lemma ReopenTablesEvolve(m: Market, users: nat, o: OrderRef, now: Millis)
    requires References(m, users) && RefOk(m, o) && Reopens(m, o)
    requires m.auctions[o.auctionId].winnerUserId.Some?
    ensures var m' := ReopenedMarket(m, o, now);
      BidsEvolve(m.bids, m'.bids) && OrdersEvolve(m, m') && AuctionsEvolve(m, m')
      && forall p: OrderId :: Stands(m, m', p) ==> p != o.id
  {
    hide IsAuctionWinner, BaselinePrice;
    ReopenBids(m, o, now);
  }

  lemma ReopenEvolves(m: Market, users: nat, o: OrderRef, now: Millis)
    requires MarketInv(m, users) && RefOk(m, o) && Reopens(m, o)
    ensures Evolves(m, ReopenedMarket(m, o, now))
  {
    hide ReopenedMarket, AuctionInv;
    var m' := ReopenedMarket(m, o, now);
    PendingMeans(m, users, o.id);
    ReopenTablesEvolve(m, users, o, now);
    ReopenElsewhere(m, users, o, now);
    forall p: OrderId | Stands(m, m', p) ensures m.orders[p].auctionId != o.auctionId {
      assert p != o.id && (m.orders[p].auctionId == o.auctionId ==> p in ActiveOrders(m, o.auctionId));
    }
    OneAuctionEvolves(m, m', users, o.auctionId);
  }

  lemma ReopenKeepsDb(db: Db, o: OrderRef, now: Millis)
    requires DbInv(db) && RefOk(db.market, o)
    ensures var db' := ReopenAuction(db, o, now).db;
      DbInv(db') && SameMoney(db, db') && Evolves(db.market, db'.market)
  {
    var m, users := db.market, |db.wallet.balance|;
    if ReopenAuction(db, o, now).result == Ok(true) {
      ReopenKeepsMarket(m, users, o, now);
      ReopenEvolves(m, users, o, now);
      PendingMeans(m, users, o.id);
      ReopenWallet(m, db.wallet, o, now);
    } else {
      Same(db);
    }
  }

  /** When a reopening throws. */
  lemma ReopenRefusedIff(db: Db, o: OrderRef, now: Millis)
    requires DbInv(db) && RefOk(db.market, o)
    ensures ReopenAuction(db, o, now).result.Err? <==> Reopens(db.market, o) && AboveBuyNow(db.market, o.auctionId)
    ensures ReopenAuction(db, o, now).result.Err? ==> ReopenAuction(db, o, now).db == db
  {
    hide MarketInv, ReopenRowOk, AboveBuyNow;
    if Reopens(db.market, o) {
      ReopenRowOkIff(db.market, |db.wallet.balance|, o, now);
    }
  }

  /** A buy-now that is not paid is reopened exactly if the auction had no live bid above the buy-now price. */
  lemma BoughtReopens(db: Db, aid: AuctionId, user: UserId, price: int, now: Millis, later: Millis)
    requires DbInv(db) && BuyNow(db, aid, user, price, now).result.Ok?
    ensures aid in db.market.auctions
    ensures var m1, o := BuyNow(db, aid, user, price, now).db.market, BoughtOrder(db.market, aid, user, price);
      Reopens(m1, o) && RefOk(m1, o) && (ReopenRowOk(m1, o, later) <==> !AboveBuyNow(db.market, aid))
  {
    hide WalletInv, ReopenRowOk, AuctionInv, AboveBuyNow;
    var m1, o := BuyNow(db, aid, user, price, now).db.market, BoughtOrder(db.market, aid, user, price);
    BuyNowKeepsDb(db, aid, user, price, now);
    BoughtAbove(db, aid, user, price, now);
    ReopenRowOkIff(m1, |db.wallet.balance|, o, later);
  }

  lemma BoughtAbove(db: Db, aid: AuctionId, user: UserId, price: int, now: Millis)
    requires BuyNow(db, aid, user, price, now).result.Ok?
    ensures AboveBuyNow(BuyNow(db, aid, user, price, now).db.market, aid) <==> AboveBuyNow(db.market, aid)
  {
    assert BuyNow(db, aid, user, price, now).db.market.bids == db.market.bids;
  }

  lemma ReopenWallet(m: Market, w: Wallet, o: OrderRef, now: Millis)
    requires WalletInv(m.bids, w) && Reopens(m, o)
    requires forall i :: 0 <= i < |m.bids| && m.bids[i].auctionId == o.auctionId ==> !m.bids[i].converted
    ensures var w' := ReopenAuction(Db(m, w), o, now).db.wallet; var bids' := ReopenedMarket(m, o, now).bids;
      ReopenAuction(Db(m, w), o, now).result == Ok(true) ==>
      && WalletInv(bids', w') && Wealth(bids', w') == Wealth(m.bids, w) && |w'.balance| == |w.balance|
      && forall u: UserId :: u < |w.balance| ==> Unexplained(bids', w', u) == Unexplained(m.bids, w, u)
  {
    var bids', live := ReopenedMarket(m, o, now).bids, LiveBids(m.bids, o.auctionId);
    ReopenBids(m, o, now);
    AdvanceKeeps(m.bids, bids', w);
    if IsAuctionWinner(m.bids, o) {
      assert live[0] in live;
      ReleaseKeeps(bids', w, LosingBid(m.bids[live[0]].userId, m.bids[live[0]].bidPrice, live[0]));
    }
  }
}
