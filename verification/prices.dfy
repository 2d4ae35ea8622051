/** What depends on bot holds going through: as long as no bot bid on an auction fails on its hold, the auction's
    price is its best live bid, and none of its bids creates money.  All other results are about every run. */
module Prices {
  import opened Schema
  import opened WalletMoves
  import opened Transactions
  import opened MarketInvariant
  import opened DatabaseInvariant
  import opened Service
  import opened Runs
  import opened Locality
  import opened Finalize
  import Payload

  // ---------------------------------------------------------------- the price

  lemma CommitPrices(s: Sys, o: OrderRef, winner: bool, now: Millis)
    requires Inv(s) && RefOk(s.db.market, o) && o.auctionId in s.db.market.auctions
    requires PriceInv(s.db.market, o.auctionId)
    ensures var m' := FinishPayment(s, o, winner, now).db.market; o.auctionId in m'.auctions && PriceInv(m', o.auctionId)
  {
    hide PriceInv;
    if Pending(s.db.market, o.id) {
      PendingMeans(s.db.market, |s.db.wallet.balance|, o.id);
      PayKeepsPrices(s.db.market, o, winner, now);
    }
  }

  lemma ReopenPrices(db: Db, o: OrderRef, now: Millis)
    requires o.auctionId in db.market.auctions && PriceInv(db.market, o.auctionId)
    ensures var m' := ReopenAuction(db, o, now).db.market; o.auctionId in m'.auctions && PriceInv(m', o.auctionId)
  {
    hide PriceInv, BaselinePrice, IsAuctionWinner, RowOk;
    if Reopens(db.market, o) {
      ReopenKeepsPrices(db.market, o, now);
    }
  }

  lemma WorkPrices(s: Sys, a: Action, aid: AuctionId)
    requires Inv(s) && OnTask(a) && a.task in s.tasks && Target(a) == Some(aid)
    requires aid in s.db.market.auctions && PriceInv(s.db.market, aid)
    ensures aid in Work(s, a).db.market.auctions && PriceInv(Work(s, a).db.market, aid)
  {
    hide PriceInv, FinishPayment, ReopenAuction;
    assert TaskOk(s.db.market, a.task);
    if a.Commit? {
      CommitPrices(s, a.task.o, a.task.isAuctionWinner, a.now);
    } else {
      ReopenPrices(s.db, a.task.o, a.now);
    }
  }

  lemma ClosePrices(s: Sys, aid: AuctionId, options: LockOptions, now: Millis)
    requires options.statusOpen && aid in s.db.market.auctions && PriceInv(s.db.market, aid)
    ensures aid in CloseBy(s, aid, options, now).db.market.auctions
    ensures PriceInv(CloseBy(s, aid, options, now).db.market, aid)
  {
    hide PriceInv, CloseBy, ClosedMarket;
    CloseByShape(s, aid, options, now);
    CloseOrders(s.db.market, aid, now);
    CloseKeepsPrices(s.db.market, aid, now);
  }

  lemma PatchPrices(db: Db, aid: AuctionId, p: Patch, now: Millis)
    requires aid in db.market.auctions && PriceInv(db.market, aid)
    ensures PriceInv(PatchAuction(db, aid, p, now).db.market, aid)
  {
    if !HasBids(db.market.bids, aid) {
      NoneLive(db.market.bids, aid);
    }
  }

  lemma BuyPrices(db: Db, aid: AuctionId, user: UserId, price: int, now: Millis)
    requires aid in db.market.auctions && PriceInv(db.market, aid)
    ensures PriceInv(BuyNow(db, aid, user, price, now).db.market, aid)
  {
    hide DistinctPrices, RowOk, OrderInsertOk;
  }

  lemma PlainPrices(s: Sys, a: Action, aid: AuctionId)
    requires Inv(s) && Plain(a) && Target(a) == Some(aid) && HoldGoesThrough(s, a, aid)
    requires aid in s.db.market.auctions && aid in Apply(s, a).db.market.auctions && PriceInv(s.db.market, aid)
    ensures PriceInv(Apply(s, a).db.market, aid)
  {
    hide PlaceBid, PlaceBidAsBot, PatchAuction, BuyNow, PriceInv, MarketInv, WalletInv, BotHoldFails;
    match a
    case PlaceBidBy(_, user, price, now) => PlaceBidPrices(s.db, aid, user, price, now);
    case BotBidBy(_, user, price, now) => BotKeepsIff(s.db, aid, user, price, now);
    case Edit(_, p, now) => PatchPrices(s.db, aid, p, now);
    case Buy(_, user, price, now) => BuyPrices(s.db, aid, user, price, now);
    case _ =>
  }

  /** An action keeps an auction's prices, unless it is a bot bid on it that fails on its hold. */
  lemma PriceStep(s: Sys, a: Action, aid: AuctionId)
    requires Inv(s) && HoldGoesThrough(s, a, aid)
    requires aid in s.db.market.auctions && aid in Apply(s, a).db.market.auctions && PriceInv(s.db.market, aid)
    ensures PriceInv(Apply(s, a).db.market, aid)
  {
    hide PriceInv, Untouched, Work, CloseBy;
    if Target(a) != Some(aid) {
      ActionLocal(s, a, aid);
      UntouchedPrices(s.db.market, Apply(s, a).db.market, aid);
    } else if Plain(a) {
      PlainPrices(s, a, aid);
    } else if OnTask(a) {
      if a.task in s.tasks {
        WorkPrices(s, a, aid);
      }
    } else {
      ClosePrices(s, aid, if a.TimedClose? then OpenUntil(a.now) else OpenAny(), a.now);
    }
  }

  /** Auctions appear by creation, at their start price and without bids. */
  lemma NewPrices(s: Sys, a: Action, aid: AuctionId)
    requires Inv(s) && aid !in s.db.market.auctions && aid in Apply(s, a).db.market.auctions
    ensures PriceInv(Apply(s, a).db.market, aid)
  {
    NewByCreate(s, a, aid);
    NoneLive(s.db.market.bids, aid);
  }

  lemma NewByCreate(s: Sys, a: Action, aid: AuctionId)
    requires Inv(s) && aid !in s.db.market.auctions && aid in Apply(s, a).db.market.auctions
    ensures a.Create? && aid == s.db.market.nextAuction
  {
    hide RowOk, BidError, HoldForBid, HasBids, OrderInsertOk, Work, CloseBy, MarketInv, WalletInv, Payload.ParseSpec;
    if OnTask(a) {
      if a.task in s.tasks {
        WorkRows(s, a, aid);
      }
    } else if a.TimedClose? || a.AdminClose? {
      NoNewByClose(s, a.aid, if a.TimedClose? then OpenUntil(a.now) else OpenAny(), a.now, aid);
    }
  }

  lemma NoNewByClose(s: Sys, t: AuctionId, options: LockOptions, now: Millis, aid: AuctionId)
    requires options.statusOpen && aid in CloseBy(s, t, options, now).db.market.auctions
    ensures aid in s.db.market.auctions
  {
    hide CloseBy, ClosedMarket;
    CloseByShape(s, t, options, now);
    if t in s.db.market.auctions {
      CloseOrders(s.db.market, t, now);
    }
  }

  lemma {:induction false} RunPrices(s: Sys, acts: seq<Action>, aid: AuctionId)
    requires Inv(s) && HoldsGoThrough(s, acts, aid) && aid in Exec(s, acts).db.market.auctions
    requires aid in s.db.market.auctions ==> PriceInv(s.db.market, aid)
    ensures PriceInv(Exec(s, acts).db.market, aid)
  {
    hide PriceInv, Apply, Inv;
    if acts == [] {
    } else {
      var n := |acts| - 1;
      var before := Exec(s, acts[..n]);
      RunInv(s, acts[..n]);
      if aid in before.db.market.auctions {
        RunPrices(s, acts[..n], aid);
        PriceStep(before, acts[n], aid);
      } else {
        NewPrices(before, acts[n], aid);
      }
    }
  }

  /** Price is best, on every auction on which no hold failed: the price of an open one is the highest live
      price, or the start price, and live prices are pairwise distinct. */
  lemma OpenPriceIsBest(balance: seq<nat>, uniqueOrder: bool, acts: seq<Action>, aid: AuctionId)
    requires HoldsGoThrough(Init(balance, uniqueOrder), acts, aid)
    requires var m := Exec(Init(balance, uniqueOrder), acts).db.market;
      aid in m.auctions && m.auctions[aid].status == OPEN
    ensures var m := Exec(Init(balance, uniqueOrder), acts).db.market; var row := m.auctions[aid];
      && (forall i: BidId :: Live(m.bids, aid, i) ==> m.bids[i].bidPrice <= row.currentPrice)
      && (LiveBids(m.bids, aid) == [] ==> row.currentPrice == row.startPrice)
      && (LiveBids(m.bids, aid) != [] ==>
            exists i: BidId :: Live(m.bids, aid, i) && m.bids[i].bidPrice == row.currentPrice)
      && DistinctPrices(m.bids, aid)
  {
    hide DistinctPrices, Exec, Inv;
    InitInv(balance, uniqueOrder);
    RunPrices(Init(balance, uniqueOrder), acts, aid);
    var m := Exec(Init(balance, uniqueOrder), acts).db.market;
    forall i: BidId | Live(m.bids, aid, i) ensures m.bids[i].bidPrice <= m.auctions[aid].currentPrice {
      LiveOnOpenBelow(m, aid, i);
    }
    HeadIsMember(LiveBids(m.bids, aid));
  }

  // ---------------------------------------------------------------- the money

  /** Every bid on the auction was held. */
  ghost predicate AllHeld(db: Db, aid: AuctionId) {
    forall i: BidId :: i < |db.market.bids| && db.market.bids[i].auctionId == aid ==> i in HoldRefs(db.wallet.ledger)
  }

  lemma WorkBids(s: Sys, a: Action)
    requires OnTask(a)
    ensures |Work(s, a).db.market.bids| == |s.db.market.bids|
  {
    hide RowOk, IsAuctionWinner, BaselinePrice, ReleaseAll, LiveBids, Payload.ToDbPayload, ReopenRowOk, Pay;
    hide SettleSeller, ConvertHoldToPayment, ReleaseBidHold, Listed;
  }

  lemma BidsGrowByBids(s: Sys, a: Action)
    requires !a.PlaceBidBy? && !a.BotBidBy?
    ensures |Apply(s, a).db.market.bids| == |s.db.market.bids|
  {
    hide RowOk, HasBids, OrderInsertOk, CloseBy, Work, ActiveOrders;
    if OnTask(a) {
      WorkBids(s, a);
    } else if a.TimedClose? || a.AdminClose? {
      CloseBidCount(s, a.aid, if a.TimedClose? then OpenUntil(a.now) else OpenAny(), a.now);
    }
  }

  lemma CloseBidCount(s: Sys, t: AuctionId, options: LockOptions, now: Millis)
    requires options.statusOpen
    ensures |CloseBy(s, t, options, now).db.market.bids| == |s.db.market.bids|
  {
    hide CloseBy, ClosedMarket;
    CloseByShape(s, t, options, now);
    if t in s.db.market.auctions {
      CloseBids(s.db.market, t, now);
    }
  }

  lemma NewBidIsHeld(s: Sys, a: Action, i: BidId)
    requires (a.PlaceBidBy? || a.BotBidBy?) && HoldGoesThrough(s, a, a.aid)
    requires |s.db.market.bids| <= i < |Apply(s, a).db.market.bids|
    ensures i in HoldRefs(Apply(s, a).db.wallet.ledger)
  {
    hide BidError, RowOk;
    LedgerAppend(s.db.wallet.ledger, Entry(a.user, -a.price, BID_HOLD, |s.db.market.bids|), 0, 0);
    assert i == |s.db.market.bids|;
  }

  lemma NewBidOn(s: Sys, a: Action, i: BidId)
    requires (a.PlaceBidBy? || a.BotBidBy?) && |s.db.market.bids| <= i < |Apply(s, a).db.market.bids|
    ensures Apply(s, a).db.market.bids[i].auctionId == a.aid
  {
    hide BidError, RowOk, HoldForBid;
  }

  lemma HeldStep(s: Sys, a: Action, aid: AuctionId)
    requires Inv(s) && HoldGoesThrough(s, a, aid) && AllHeld(s.db, aid)
    ensures AllHeld(Apply(s, a).db, aid)
  {
    hide Apply, Inv, HoldRefs;
    var db, db' := s.db, Apply(s, a).db;
    ApplyGood(s, a);
    LedgerGrows(s, a);
    RefsPrefix(db.wallet.ledger, db'.wallet.ledger);
    forall i: BidId | i < |db'.market.bids| && db'.market.bids[i].auctionId == aid
      ensures i in HoldRefs(db'.wallet.ledger)
    {
      if i < |db.market.bids| {
        assert db.market.bids[i].auctionId == aid;
      } else {
        if !a.PlaceBidBy? && !a.BotBidBy? {
          BidsGrowByBids(s, a);
        } else {
          NewBidOn(s, a, i);
          NewBidIsHeld(s, a, i);
        }
      }
    }
  }

  lemma {:induction false} RunHeld(s: Sys, acts: seq<Action>, aid: AuctionId)
    requires Inv(s) && HoldsGoThrough(s, acts, aid) && AllHeld(s.db, aid)
    ensures AllHeld(Exec(s, acts).db, aid)
  {
    hide Apply, Inv, AllHeld;
    if acts == [] {
    } else {
      var n := |acts| - 1;
      RunInv(s, acts[..n]);
      RunHeld(s, acts[..n], aid);
      HeldStep(Exec(s, acts[..n]), acts[n], aid);
    }
  }

  /** In a run in which every bot hold goes through nothing is minted: what the users own is what they opened
      with and what they deposited. */
  lemma NothingMinted(balance: seq<nat>, uniqueOrder: bool, acts: seq<Action>)
    requires forall aid :: HoldsGoThrough(Init(balance, uniqueOrder), acts, aid)
    ensures var s := Init(balance, uniqueOrder);
      Owned(Exec(s, acts).db) == Sum(balance) + AllDeposits(s, acts)
  {
    hide Exec, Owned, AllDeposits;
    var s := Init(balance, uniqueOrder);
    var db := Exec(s, acts).db;
    InitInv(balance, uniqueOrder);
    MoneyAccounted(balance, uniqueOrder, acts);
    forall i: BidId | i < |db.market.bids| ensures Minted(db.market.bids, db.wallet.ledger, i) == 0 {
      assert HoldsGoThrough(s, acts, db.market.bids[i].auctionId);
      RunHeld(s, acts, db.market.bids[i].auctionId);
    }
  }
}
