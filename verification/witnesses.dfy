/** Runs from an empty service into the states where a promise fails: each failure that the other modules
    characterise does occur. */
module Witnesses {
  import opened Schema
  import opened WalletMoves
  import opened Transactions
  import opened MarketInvariant
  import opened DatabaseInvariant
  import opened Service
  import opened Runs
  import opened Payments
  import opened Bots
  import opened Stuck
  import opened Losers
  import opened TimeoutJob
  import Payload

  // ---------------------------------------------------------------- an offer and its bids

  function Opening(): seq<nat> { [10, 10, 10] }

  function Offer(buyNowPrice: Option<int>): NewAuction { NewAuction(1, buyNowPrice, 1, 1_000_000) }

  /** Seller 0 offers an auction. */
  function Offered(buyNowPrice: Option<int>, index: bool): Sys {
    Apply(Init(Opening(), index), Create(Offer(buyNowPrice), 0, 0))
  }

  lemma OfferedIs(buyNowPrice: Option<int>, index: bool)
    requires buyNowPrice.Some? ==> 1 <= buyNowPrice.value
    ensures Offered(buyNowPrice, index) == Sys(
      Db(Market(map[0 := FreshRow(Offer(buyNowPrice), 0)], [], map[], 1, 0, index), Wallet([10, 10, 10], [])), multiset{})
    ensures Inv(Offered(buyNowPrice, index))
  {
    hide Inv;
    OfferedInv(buyNowPrice, index);
    var m := Market(map[0 := FreshRow(Offer(buyNowPrice), 0)], [], map[], 1, 0, index);
    assert Offered(buyNowPrice, index).db.market == m;
    assert Offered(buyNowPrice, index).db.wallet.balance == [10, 10, 10];
  }

  lemma OfferedInv(buyNowPrice: Option<int>, index: bool)
    ensures Inv(Offered(buyNowPrice, index))
  {
    hide Inv, Apply, Init;
    InitInv(Opening(), index);
    ApplyGood(Init(Opening(), index), Create(Offer(buyNowPrice), 0, 0));
  }

  /** User 1 bids 2, and user 2 bids `price`. */
  function OneBid(index: bool): Sys { Apply(Offered(Some(5), index), PlaceBidBy(0, 1, 2, 1)) }

  function TwoBids(price: int, index: bool): Sys { Apply(OneBid(index), PlaceBidBy(0, 2, price, 2)) }

  function RowAt(price: int): Auction { FreshRow(Offer(Some(5)), 0).(currentPrice := price) }

  /** The state after an accepted bid. */
  lemma BidApplied(s: Sys, aid: AuctionId, user: UserId, price: int, now: Millis)
    requires BidError(s.db.market, aid, user, price, now).None? && 0 < price && Covers(s.db.wallet, user, price)
    requires RowOk(BidUpdate(s.db.market.auctions[aid], now, price))
    ensures var m, w := s.db.market, s.db.wallet;
      Apply(s, PlaceBidBy(aid, user, price, now)) == s.(db := Db(
        m.(auctions := m.auctions[aid := BidUpdate(m.auctions[aid], now, price)],
           bids := m.bids + [NewBid(aid, user, price)]),
        Wallet(w.balance[user := w.balance[user] - price], w.ledger + [Entry(user, -price, BID_HOLD, |m.bids|)])))
  {
    hide RowOk, LockGuard, Leader;
  }

  lemma LiveOne()
    ensures LiveBids([], 0) == [] && LiveBids([NewBid(0, 1, 2)], 0) == [0]
  {
    NoneLive([], 0);
    assert LiveUpTo([NewBid(0, 1, 2)], 0, 0) == [];
  }

  lemma OneBidPasses(index: bool)
    ensures var s := Offered(Some(5), index);
      && BidError(s.db.market, 0, 1, 2, 1).None? && Covers(s.db.wallet, 1, 2)
      && BidUpdate(s.db.market.auctions[0], 1, 2) == RowAt(2) && RowOk(RowAt(2))
  {
    hide Offered, Inv, LiveBids;
    OfferedIs(Some(5), index);
    LiveOne();
  }

  lemma OneBidIs(index: bool)
    ensures OneBid(index) == Sys(
      Db(Market(map[0 := RowAt(2)], [NewBid(0, 1, 2)], map[], 1, 0, index),
         Wallet([10, 8, 10], [Entry(1, -2, BID_HOLD, 0)])), multiset{})
    ensures LiveBids([NewBid(0, 1, 2)], 0) == [0]
  {
    hide Apply, Inv, LiveBids, Offered, BidError, BidUpdate, RowOk, FreshRow, RowAt, Covers, Offer;
    var s := Offered(Some(5), index);
    OneBidPasses(index);
    BidApplied(s, 0, 1, 2, 1);
    OfferedIs(Some(5), index);
    LiveOne();
    assert s.db.market.auctions[0 := RowAt(2)] == map[0 := RowAt(2)];
    assert s.db.wallet.balance[1 := 8] == [10, 8, 10];
    assert [] + [NewBid(0, 1, 2)] == [NewBid(0, 1, 2)];
    assert [] + [Entry(1, -2, BID_HOLD, 0)] == [Entry(1, -2, BID_HOLD, 0)];
  }

  lemma OneBidInv(index: bool)
    ensures Inv(OneBid(index))
  {
    hide Apply, Inv, Init;
    OfferedIs(Some(5), index);
    ApplyGood(Offered(Some(5), index), PlaceBidBy(0, 1, 2, 1));
  }

  function Bids(price: int): seq<Bid> { [NewBid(0, 1, 2), NewBid(0, 2, price)] }

  lemma LiveTwo(price: int)
    requires 2 < price
    ensures LiveBids(Bids(price), 0) == [1, 0] && Leader(Bids(price), 0) == Some(2)
  {
    assert LiveUpTo(Bids(price), 0, 0) == [];
    assert LiveUpTo(Bids(price), 0, 1) == [0];
    assert LiveUpTo(Bids(price), 0, 2) == [1] + [0];
  }

  lemma TwoBidsAre(price: int, index: bool)
    requires 3 <= price <= 5
    ensures TwoBids(price, index) == Sys(
      Db(Market(map[0 := RowAt(price)], Bids(price), map[], 1, 0, index),
         Wallet([10, 8, 10 - price], [Entry(1, -2, BID_HOLD, 0), Entry(2, -price, BID_HOLD, 1)])), multiset{})
  {
    hide LiveBids, Apply, OneBid;
    OneBidIs(index);
    var s := OneBid(index);
    BidApplied(s, 0, 2, price, 2);
    assert BidUpdate(s.db.market.auctions[0], 2, price) == RowAt(price);
    assert [NewBid(0, 1, 2)] + [NewBid(0, 2, price)] == Bids(price);
    assert [10, 8, 10][2 := 10 - price] == [10, 8, 10 - price];
    assert s.db.market.auctions[0 := RowAt(price)] == map[0 := RowAt(price)];
  }

  lemma TwoBidsInv(price: int, index: bool)
    ensures Inv(TwoBids(price, index))
  {
    hide Apply, Inv, OneBid;
    OneBidInv(index);
    ApplyGood(OneBid(index), PlaceBidBy(0, 2, price, 2));
  }

  lemma TwoBidsReached(price: int, index: bool)
    ensures Reaches(Init(Opening(), index), TwoBids(price, index))
    ensures Reaches(Init(Opening(), index), OneBid(index))
  {
    hide Apply, Init;
    ReachesTwo(Init(Opening(), index), Create(Offer(Some(5)), 0, 0), PlaceBidBy(0, 1, 2, 1));
    ReachesNext(Init(Opening(), index), OneBid(index), PlaceBidBy(0, 2, price, 2));
  }

  // ---------------------------------------------------------------- stuck

  /** One bid, a buy-now by somebody else, no payment, and the reopening: the auction is stuck. */
  lemma StuckIsReachable()
    ensures exists s :: Reaches(Init(Opening(), true), s) && IsStuck(s.db.market, 0)
  {
    hide Init, Reaches;
    var s := OneBid(true);
    OneBidInv(true);
    TwoBidsReached(5, true);
    OneBidSells();
    FailedBuyNowSticks(s, 0, 2, 5, 2, 3);
    var s' :| Reaches(s, s') && IsStuck(s'.db.market, 0);
    ReachesThen(Init(Opening(), true), s, s');
  }

  lemma InvDb(s: Sys)
    requires Inv(s)
    ensures DbInv(s.db)
  {
  }

  lemma OneBidSells()
    ensures var s := OneBid(true);
      && s.db.market.uniqueOrder && BuyNow(s.db, 0, 2, 5, 2).result.Ok? && !Jammed(s.db.market, 0)
      && LiveBids(s.db.market.bids, 0) != [] && Leader(s.db.market.bids, 0) == Some(1)
  {
    hide LiveBids, Inv;
    OneBidIs(true);
    assert DbInv(OneBid(true).db) by { OneBidInv(true); InvDb(OneBid(true)); }
    BuyNowCommitsIff(OneBid(true).db, 0, 2, 5, 2);
  }

  // ---------------------------------------------------------------- lost

  function Loser(): LosingBid { LosingBid(1, 2, 0) }

  function Result(price: int): CloseResult { CloseResult(0, Some(2), price, [Loser()]) }

  /** The close of the two bids: user 2 wins, user 1 loses. */
  lemma TwoClosed(price: int, index: bool)
    requires 3 <= price <= 5
    ensures var m := TwoBids(price, index).db.market;
      0 in m.auctions && CloseResultOf(m, 0) == Result(price) && CloseRowOk(m, 0, 3)
      && ClosedMarket(m, 0, 3).bids == [NewBid(0, 1, 2).(disqualifiedAt := Some(3)), NewBid(0, 2, price)]
  {
    hide LiveBids, TwoBids;
    TwoBidsAre(price, index);
    LiveTwo(price);
    var bids := Bids(price);
    assert LosingIds(bids, [1], Some(2)) == [] by { assert [1][..0] == []; }
    assert LosingIds(bids, [1, 0], Some(2)) == [0] by { assert [1, 0][..1] == [1]; }
    assert Listed(bids, [0]) == [Loser()];
    assert Disqualify(bids, [0], 3) == [NewBid(0, 1, 2).(disqualifiedAt := Some(3)), NewBid(0, 2, price)];
  }

  function LostOrder(): OrderRef { OrderRef(0, 0, 2, 3, 0) }

  /** The state before the reopening: closed, the payload persisted, the order read by the timeout job. */
  lemma BeforeLoss(index: bool)
    ensures exists s :: Reaches(Init(Opening(), index), s) && Inv(s) && LossNear(s)
  {
    hide Inv, Init, TwoBids, ClosedMarket, CloseResultOf, Reaches;
    var s0, t := TwoBids(3, index), Finalizing(Result(3), false);
    TwoBidsReached(3, index);
    TwoBidsInv(3, index);
    CloseToPersist(index);
    var s1 := Apply(s0, AdminClose(0, 3));
    var s2 := Apply(s1, FinalizeThrows(t));
    var s3 := Apply(s2, Persist(Persisting(Result(3))));
    var s4 := Apply(s3, Expire(0));
    ApplyGood(s0, AdminClose(0, 3));
    ApplyGood(s1, FinalizeThrows(t));
    ApplyGood(s2, Persist(Persisting(Result(3))));
    ApplyGood(s3, Expire(0));
    ReachesNext(Init(Opening(), index), s0, AdminClose(0, 3));
    ReachesNext(Init(Opening(), index), s1, FinalizeThrows(t));
    ReachesNext(Init(Opening(), index), s2, Persist(Persisting(Result(3))));
    ReachesNext(Init(Opening(), index), s3, Expire(0));
  }

  ghost predicate LossNear(s: Sys) {
    var m, o := s.db.market, LostOrder();
    && s.tasks == multiset{Reopening(o)} && Reopens(m, o) && ReopenRowOk(m, o, 4)
    && Unreleased(s, 0) && m.bids[0].auctionId == 0
  }

  lemma ClosedTwo(index: bool)
    ensures var s0 := TwoBids(3, index); var m := s0.db.market;
      && 0 in m.auctions
      && Apply(s0, AdminClose(0, 3)) ==
           Sys(s0.db.(market := ClosedMarket(m, 0, 3)), multiset{Finalizing(Result(3), false)})
      && ClosedMarket(m, 0, 3) == Market(
           map[0 := ClosedRow(RowAt(3), Some(2), 3, 3)],
           [NewBid(0, 1, 2).(disqualifiedAt := Some(3)), NewBid(0, 2, 3)],
           map[0 := Order(0, 2, 3, PENDING)], 1, 1, index)
  {
    hide TwoBids, CloseResultOf, LiveBids, ClosedMarket;
    TwoBidsAre(3, index);
    TwoClosed(3, index);
    var m := TwoBids(3, index).db.market;
    CloseOrders(m, 0, 3);
    assert m.auctions[0 := ClosedRow(RowAt(3), Some(2), 3, 3)] == map[0 := ClosedRow(RowAt(3), Some(2), 3, 3)];
  }

  lemma ThrowStep(s: Sys, r: CloseResult)
    requires s.tasks == multiset{Finalizing(r, false)}
    ensures Apply(s, FinalizeThrows(Finalizing(r, false))) == s.(tasks := multiset{Persisting(r)})
  {
    hide Payload.ToDbPayload, ReopenAuction, FinishPayment, ReleaseLosers;
  }

  lemma PersistStep(s: Sys, r: CloseResult)
    requires s.tasks == multiset{Persisting(r)}
    ensures Apply(s, Persist(Persisting(r))) ==
      Sys(s.db.(market := SetPayload(s.db.market, r.auctionId, Some(Payload.ToDbPayload(r)))), multiset{})
  {
    hide Payload.ToDbPayload, ReopenAuction, FinishPayment, ReleaseLosers;
  }

  lemma ExpireReads(s: Sys, o: OrderRef)
    requires s.tasks == multiset{} && Pending(s.db.market, o.id)
    requires s.db.market.orders[o.id].auctionId in s.db.market.auctions && o == OrderRefOf(s.db.market, o.id)
    ensures Apply(s, Expire(o.id)) == s.(tasks := multiset{Reopening(o)})
  {
  }

  lemma CloseToPersist(index: bool)
    ensures var t := Finalizing(Result(3), false);
      var s1 := Apply(TwoBids(3, index), AdminClose(0, 3));
      var s2 := Apply(s1, FinalizeThrows(t));
      var s3 := Apply(s2, Persist(Persisting(Result(3))));
      LossNear(Apply(s3, Expire(0)))
  {
    hide TwoBids, CloseResultOf, LiveBids, ClosedMarket, Payload.ToDbPayload, IsAuctionWinner, Apply;
    TwoBidsAre(3, index);
    ClosedTwo(index);
    var s1 := Apply(TwoBids(3, index), AdminClose(0, 3));
    var s2 := Apply(s1, FinalizeThrows(Finalizing(Result(3), false)));
    var s3 := Apply(s2, Persist(Persisting(Result(3))));
    ThrowStep(s1, Result(3));
    PersistStep(s2, Result(3));
    ExpireReads(s3, LostOrder());
    ReopenedPrice(s1.db.market);
    TwoHoldsNoRelease();
  }

  lemma TwoHoldsNoRelease()
    ensures Releases([Entry(1, -2, BID_HOLD, 0), Entry(2, -3, BID_HOLD, 1)], 0) == 0
  {
    NoEntryNoRelease([Entry(1, -2, BID_HOLD, 0), Entry(2, -3, BID_HOLD, 1)], 0);
  }

  /** The loser's bid is disqualified, so the price falls back to the start price. */
  lemma ReopenedPrice(m: Market)
    requires m.bids == [NewBid(0, 1, 2).(disqualifiedAt := Some(3)), NewBid(0, 2, 3)]
    ensures BaselinePrice(m.bids, LostOrder(), 1) == 1
  {
    assert LiveUpTo(m.bids, 0, 0) == [];
    assert LiveUpTo(m.bids, 0, 1) == [];
    assert LiveUpTo(m.bids, 0, 2) == [1];
  }

  /** Two bids, a close, a finalize that throws, the payload, the timeout of the order and the reopening: the
      loser is lost. */
  lemma LossIsReachable(index: bool)
    ensures exists s :: Reaches(Init(Opening(), index), s) && Inv(s) && Lost(s, 0)
  {
    hide Inv, Init, Apply, Reaches, Lost;
    BeforeLoss(index);
    var s :| Reaches(Init(Opening(), index), s) && Inv(s) && LossNear(s);
    ReopeningLoses(s, LostOrder(), 4, 0);
    ApplyGood(s, Reopen(Reopening(LostOrder()), 4));
    ReachesNext(Init(Opening(), index), s, Reopen(Reopening(LostOrder()), 4));
    assert Lost(Apply(s, Reopen(Reopening(LostOrder()), 4)), 0);
  }

  // ---------------------------------------------------------------- stranded

  /** A second bid at the buy-now price, then that bidder's buy-now: paid, it strands the first bid; unpaid, it
      is not undone. */
  lemma StrandingIsReachable(index: bool, later: Millis)
    ensures var s := TwoBids(5, index); var bought := Apply(s, Buy(0, 2, 5, 3));
      && Reaches(Init(Opening(), index), s) && BuyNow(s.db, 0, 2, 5, 3).result.Ok?
      && (exists s' :: Reaches(bought, s') && IsPaid(s'.db.market, 0)
            && forall more :: Releases(Exec(s', more).db.wallet.ledger, 0) == 0)
      && 0 in s.db.market.auctions
      && ReopenAuction(bought.db, BoughtOrder(s.db.market, 0, 2, 5), later).db != Restored(s.db, 0, 2, 5, later)
  {
    hide Inv, Init, TwoBids, LiveBids, Reaches, Restored, ReopenAuction, BuyNow, Exec;
    var s := TwoBids(5, index);
    TwoBidsReached(5, index);
    TwoBidsInv(5, index);
    BuyerLeads(index);
    InvDb(s);
    NotUndone(s.db, 0, 2, 5, 3, later);
    BoughtIsPaid(index);
    var bought := Apply(s, Buy(0, 2, 5, 3));
    var s' :| Reaches(bought, s') && IsPaid(s'.db.market, 0);
    assert exists acts :: Exec(bought, acts) == s' by { ReachesRun(bought, s'); }
    var acts :| Exec(bought, acts) == s';
    forall more ensures Releases(Exec(s', more).db.wallet.ledger, 0) == 0 {
      BuyNowStrands(s, 0, 2, 5, 3, acts, more, 0);
    }
  }

  lemma ReachesRun(s: Sys, s': Sys)
    requires Reaches(s, s')
    ensures exists acts :: Exec(s, acts) == s'
  {
  }

  lemma BuyerLeads(index: bool)
    ensures var s := TwoBids(5, index);
      && s.db.market.nextOrder == 0 && 0 in s.db.market.auctions && BuyNow(s.db, 0, 2, 5, 3).result.Ok?
      && IsAuctionWinner(s.db.market.bids, BoughtOrder(s.db.market, 0, 2, 5)) && Live(s.db.market.bids, 0, 0)
  {
    hide LiveBids, TwoBids;
    TwoBidsAre(5, index);
    LiveTwo(5);
  }

  lemma BoughtIsPaid(index: bool)
    ensures var bought := Apply(TwoBids(5, index), Buy(0, 2, 5, 3));
      exists s' :: Reaches(bought, s') && IsPaid(s'.db.market, 0)
  {
    hide Inv, TwoBids, LiveBids, Reaches;
    var s := TwoBids(5, index);
    BuyerLeads(index);
    BuyStep(s, 0, 2, 5, 3);
    var bought := Apply(s, Buy(0, 2, 5, 3));
    var o := OrderRefOf(bought.db.market, 0);
    PayReaches(bought, o, 4, 5);
    var s' :| Reaches(bought, s') && s'.db == PayOrder(bought.db, o, true, 4).db;
    assert IsPaid(s'.db.market, 0);
  }

  // ---------------------------------------------------------------- minted

  function BotBid(): Action { BotBidBy(0, 1, 20, 1) }

  lemma BotHoldFailsHere(buyNowPrice: Option<int>, index: bool)
    requires buyNowPrice == None || buyNowPrice == Some(5)
    ensures var s := Offered(buyNowPrice, index);
      && BotHoldFails(s.db, 0, 1, 20, 1) && PriceInv(s.db.market, 0) && s.db.market.bids == []
      && OrderInsertOk(s.db.market, 0)
      && (buyNowPrice.None? ==> RowOk(BidUpdate(s.db.market.auctions[0], 1, 20)))
  {
    hide LiveBids, Offered, Inv;
    OfferedIs(buyNowPrice, index);
    NoneLive([], 0);
  }

  lemma BotBidReached(buyNowPrice: Option<int>, index: bool)
    ensures Reaches(Init(Opening(), index), Apply(Offered(buyNowPrice, index), BotBid()))
  {
    hide Apply, Init;
    ReachesTwo(Init(Opening(), index), Create(Offer(buyNowPrice), 0, 0), BotBid());
  }

  lemma BotBidApplied(s: Sys, aid: AuctionId, bot: UserId, price: int, now: Millis)
    ensures Apply(s, BotBidBy(aid, bot, price, now)) == s.(db := PlaceBidAsBot(s.db, aid, bot, price, now).db)
  {
    hide PlaceBidAsBot, Work, CloseBy;
  }

  lemma AdminCloseApplied(s: Sys, aid: AuctionId, now: Millis, db: Db, r: CloseResult)
    requires ExecuteClose(s.db, aid, OpenAny(), now) == Tx(db, Ok(Some(r)))
    ensures Apply(s, AdminClose(aid, now)) == Begin(s.(db := db), Finalizing(r, false))
  {
    hide ExecuteClose, Work;
  }

  lemma BotBidIs(buyNowPrice: Option<int>, index: bool)
    requires buyNowPrice == None || buyNowPrice == Some(5)
    ensures var s0 := Offered(buyNowPrice, index);
      Apply(s0, BotBid()) == s0.(db := Db(WithBid(s0.db.market, NewBid(0, 1, 20)), s0.db.wallet))
  {
    hide Offered, Inv, DbInv, PlaceBidAsBot, Owned, BotHoldFails, Apply;
    BotBidApplied(Offered(buyNowPrice, index), 0, 1, 20, 1);
    var s0 := Offered(buyNowPrice, index);
    OfferedIs(buyNowPrice, index);
    InvDb(s0);
    BotHoldFailsHere(buyNowPrice, index);
    UnheldOwned(s0.db, 0, 1, 20, 1);
  }

  /** The bid won, was converted, and had no hold. */
  ghost predicate BotPaid(s: Sys) { |s.db.market.bids| == 1 && s.db.market.bids[0].converted }

  /** A bot with a balance of 10 bids 20: its hold fails, it wins, its order is paid, and 20 have come from
      nowhere. */
  lemma MintingIsReachable(index: bool)
    ensures exists s :: Reaches(Init(Opening(), index), s) && AllMinted(s.db) == 20
  {
    hide Inv, Init, Offered, Reaches, LiveBids, Exec, AllMinted, Apply, BotHoldFails;
    var s0 := Offered(None, index);
    var s1 := Apply(s0, BotBid());
    BotBidReached(None, index);
    BotWins(index);
    var s :| Reaches(s1, s) && BotPaid(s);
    ReachesThen(Init(Opening(), index), s1, s);
    assert exists acts :: Exec(s1, acts) == s by { ReachesRun(s1, s); }
    var acts :| Exec(s1, acts) == s;
    OfferedIs(None, index);
    BotHoldFailsHere(None, index);
    FailedHoldMintsMoney(s0, BotBid(), acts);
    OneMinted(s.db);
  }

  lemma OneMinted(db: Db)
    requires |db.market.bids| == 1 && Minted(db.market.bids, db.wallet.ledger, 0) == 20
    ensures AllMinted(db) == 20
  {
    assert MintedAll(db.market.bids, db.wallet.ledger) == [20];
    assert [20][..0] == [];
  }

  lemma BotCloses(index: bool)
    ensures var s1 := Apply(Offered(None, index), BotBid());
      var m2, o := Apply(s1, AdminClose(0, 2)).db.market, OrderRef(0, 0, 1, 20, 0);
      && |m2.bids| == 1 && RefOk(m2, o) && Pending(m2, 0) && IsAuctionWinner(m2.bids, o)
  {
    hide Offered, Inv, DbInv, PriceInv, LiveBids, ClosedMarket, IsAuctionWinner, RefOk, BotHoldFails, RowOk, Apply;
    hide ExecuteClose, CloseResultOf, OrderInsertOk;
    var s0 := Offered(None, index);
    OfferedIs(None, index);
    InvDb(s0);
    BotHoldFailsHere(None, index);
    BotBidIs(None, index);
    UnheldWins(s0.db, 0, 1, 20, 1, 2);
    var m1 := WithBid(s0.db.market, NewBid(0, 1, 20));
    var db2 := Db(ClosedMarket(m1, 0, 2), s0.db.wallet);
    AdminCloseApplied(Apply(s0, BotBid()), 0, 2, db2, CloseResultOf(m1, 0));
    CloseBids(WithBid(s0.db.market, NewBid(0, 1, 20)), 0, 2);
  }

  lemma BotWins(index: bool)
    ensures exists s :: Reaches(Apply(Offered(None, index), BotBid()), s) && BotPaid(s)
  {
    hide Offered, Reaches, LiveBids, Apply, PayOrder;
    var s1 := Apply(Offered(None, index), BotBid());
    var s2, o := Apply(s1, AdminClose(0, 2)), OrderRef(0, 0, 1, 20, 0);
    BotCloses(index);
    PayReaches(s2, o, 3, 4);
    ConvertsTop(s2.db, o, 3);
    var s3 :| Reaches(s2, s3) && s3.db == PayOrder(s2.db, o, true, 3).db;
    ReachesItself(s1);
    ReachesNext(s1, s1, AdminClose(0, 2));
    ReachesThen(s1, s2, s3);
    assert BotPaid(s3);
  }

  lemma ConvertsTop(db: Db, o: OrderRef, now: Millis)
    requires Pending(db.market, o.id) && LiveBids(db.market.bids, o.auctionId) != []
    ensures var tx, t := PayOrder(db, o, true, now), LiveBids(db.market.bids, o.auctionId)[0];
      && tx.result == Ok(()) && |tx.db.market.bids| == |db.market.bids| && t < |db.market.bids|
      && tx.db.market.bids[t].converted
  {
    HeadIsMember(LiveBids(db.market.bids, o.auctionId));
  }

  /** The same bid on an offer with a buy-now price of 5 jams it: no close commits any more. */
  lemma JamIsReachable(index: bool)
    ensures var s := Apply(Offered(Some(5), index), BotBid());
      Reaches(Init(Opening(), index), s) && Jammed(s.db.market, 0)
  {
    hide Init, Offered, Reaches, LiveBids, Inv, Apply;
    BotBidReached(Some(5), index);
    OfferedIs(Some(5), index);
    BotBidIs(Some(5), index);
    assert Live(Apply(Offered(Some(5), index), BotBid()).db.market.bids, 0, 0);
  }

  /** A buy-now of the jammed auction commits all the same; its order can be paid but never reopened. */
  lemma RefusalIsReachable(index: bool)
    ensures exists s, o ::
      Reaches(Init(Opening(), index), s) && Inv(s) && RefOk(s.db.market, o) && Refused(s.db.market, o)
  {
    hide Init, Reaches, Inv, Apply, Offered, DbInv, RefOk, Jammed, BuyNow, AboveBuyNow, Refused;
    var s1, buy := Apply(Offered(Some(5), index), BotBid()), Buy(0, 2, 5, 2);
    JamIsReachable(index);
    OfferedInv(Some(5), index);
    ApplyGood(Offered(Some(5), index), BotBid());
    InvDb(s1);
    JamSells(index);
    ReachesNext(Init(Opening(), index), s1, buy);
    ApplyGood(s1, buy);
    JamAbove(s1.db.market, 0);
    BoughtRefusedIff(s1.db, 0, 2, 5, 2);
    BuyApplied(s1, 0, 2, 5, 2);
    assert Refused(Apply(s1, buy).db.market, BoughtOrder(s1.db.market, 0, 2, 5));
  }

  lemma BuyApplied(s: Sys, aid: AuctionId, user: UserId, price: int, now: Millis)
    ensures Apply(s, Buy(aid, user, price, now)).db == BuyNow(s.db, aid, user, price, now).db
  {
    hide BuyNow, Work, CloseBy;
  }

  lemma JamAbove(m: Market, aid: AuctionId)
    requires Jammed(m, aid)
    ensures AboveBuyNow(m, aid)
  {
  }

  lemma JamSells(index: bool)
    ensures BuyNow(Apply(Offered(Some(5), index), BotBid()).db, 0, 2, 5, 2).result.Ok?
  {
    hide Inv, Apply, Offered, DbInv, LiveBids;
    OfferedIs(Some(5), index);
    BotBidIs(Some(5), index);
  }
}
