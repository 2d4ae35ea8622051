/** Auctions that can never be sold again: the unique index on the order's auction lets an auction have one
    order in its life, so a reopened auction with a live bid fails every close. */
module Stuck {
  import opened Schema
  import opened WalletMoves
  import opened Transactions
  import opened MarketInvariant
  import opened DatabaseInvariant
  import opened Service
  import opened Runs
  import opened Locality
  import opened Bidding
  import opened Outcomes

  /** Open, with a live bid, and with an order from an earlier sale. */
  ghost predicate IsStuck(m: Market, aid: AuctionId) {
    m.uniqueOrder && IsOpen(m, aid) && HadOrder(m, aid) && LiveBids(m.bids, aid) != []
  }

  /** Open, with a live bid above the buy-now price: the close would have to write that price. */
  ghost predicate Jammed(m: Market, aid: AuctionId) { IsOpen(m, aid) && AboveBuyNow(m, aid) }

  lemma JammedIff(m: Market, users: nat, aid: AuctionId, now: Millis)
    requires IsOpen(m, aid) && AuctionInv(m, users, aid)
    ensures Jammed(m, aid) <==> !CloseRowOk(m, aid, now)
  {
    hide Settled, Coupled;
    HeadIsMember(LiveBids(m.bids, aid));
    if m.auctions[aid].buyNowPrice.Some? {
      BestIsAbove(m.bids, aid, m.auctions[aid].buyNowPrice.value);
    }
  }

  /** A close that gets the lock fails exactly on a stuck or jammed auction; nothing else stops it. */
  lemma CloseFailsIff(db: Db, aid: AuctionId, options: LockOptions, now: Millis)
    requires DbInv(db) && options.statusOpen && Locks(db.market, aid, options)
    ensures ExecuteClose(db, aid, options, now).result.Err? <==> IsStuck(db.market, aid) || Jammed(db.market, aid)
    ensures ExecuteClose(db, aid, options, now).result.Err? ==>
      ExecuteClose(db, aid, options, now) == Tx(db, Err(ConstraintViolation))
  {
    hide Jammed, WalletInv;
    assert AuctionInv(db.market, |db.wallet.balance|, aid);
    JammedIff(db.market, |db.wallet.balance|, aid, now);
    assert CloseRowOk(db.market, aid, now) <==> !Jammed(db.market, aid);
  }

  /** With the index no auction ever gets a second order, and no buy-now commits on one that had an order. */
  lemma BuyFailsAfterOrder(db: Db, aid: AuctionId, user: UserId, price: int, now: Millis)
    requires db.market.uniqueOrder && HadOrder(db.market, aid)
    ensures BuyNow(db, aid, user, price, now).result.Err? && BuyNow(db, aid, user, price, now).db == db
  {
  }

  /** An auction that had an order, seen from a later state of the run. */
  ghost predicate Unsellable(m: Market, aid: AuctionId) {
    m.uniqueOrder && aid in m.auctions && HadOrder(m, aid) && ActiveOrders(m, aid) == {}
  }

  lemma UnsellableElsewhere(s: Sys, a: Action, aid: AuctionId)
    requires Inv(s) && Unsellable(s.db.market, aid) && Target(a) != Some(aid)
    ensures Unsellable(Apply(s, a).db.market, aid)
  {
    var m, m' := s.db.market, Apply(s, a).db.market;
    ActionLocal(s, a, aid);
    UntouchedViews(m, m', aid);
    ApplyGood(s, a);
    var o :| o in m.orders && m.orders[o].auctionId == aid;
    assert o in m'.orders;
  }

  lemma UnsellablePlain(s: Sys, a: Action, aid: AuctionId)
    requires Inv(s) && Unsellable(s.db.market, aid) && Plain(a) && Target(a) == Some(aid)
    requires aid in Apply(s, a).db.market.auctions
    ensures Apply(s, a).db.market.orders == s.db.market.orders
  {
    if a.Buy? {
      BuyFailsAfterOrder(s.db, aid, a.user, a.price, a.now);
    }
  }

  lemma NothingPending(m: Market, aid: AuctionId, o: OrderId)
    requires ActiveOrders(m, aid) == {} && (o in m.orders ==> m.orders[o].auctionId == aid)
    ensures !Pending(m, o)
  {
    if o in m.orders {
      assert o !in ActiveOrders(m, aid);
    }
  }

  /** Nothing is pending on the auction, so no payment and no reopening touches its orders. */
  lemma UnsellableWork(s: Sys, a: Action, aid: AuctionId)
    requires Inv(s) && Unsellable(s.db.market, aid) && OnTask(a) && a.task in s.tasks && Target(a) == Some(aid)
    ensures Apply(s, a).db.market == s.db.market
  {
    assert TaskOk(s.db.market, a.task);
    NothingPending(s.db.market, aid, a.task.o.id);
  }

  lemma UnsellableClose(s: Sys, aid: AuctionId, options: LockOptions, now: Millis)
    requires Inv(s) && Unsellable(s.db.market, aid) && options.statusOpen
    ensures CloseBy(s, aid, options, now).db.market.orders == s.db.market.orders
  {
    if Locks(s.db.market, aid, options) {
      CloseFailsIff(s.db, aid, options, now);
      if LiveBids(s.db.market.bids, aid) == [] {
        CloseOrders(s.db.market, aid, now);
      }
    }
  }

  lemma UnsellableHere(s: Sys, a: Action, aid: AuctionId)
    requires Inv(s) && Unsellable(s.db.market, aid) && Target(a) == Some(aid)
    requires aid in Apply(s, a).db.market.auctions
    ensures Apply(s, a).db.market.orders == s.db.market.orders
  {
    if Plain(a) {
      UnsellablePlain(s, a, aid);
    } else if OnTask(a) {
      if a.task in s.tasks {
        UnsellableWork(s, a, aid);
      }
    } else {
      UnsellableClose(s, aid, if a.TimedClose? then OpenUntil(a.now) else OpenAny(), a.now);
    }
  }

  lemma SameOrders(m: Market, m': Market, aid: AuctionId)
    requires m'.orders == m.orders
    ensures ActiveOrders(m', aid) == ActiveOrders(m, aid) && (HadOrder(m', aid) <==> HadOrder(m, aid))
  {
  }

  /** One sale per auction: once an order of an auction is cancelled, no run ever gives it an active order
      again (as long as the auction is not deleted). */
  lemma {:induction false} NeverSoldAgain(s: Sys, acts: seq<Action>, aid: AuctionId)
    requires Inv(s) && Unsellable(s.db.market, aid)
    requires aid in Exec(s, acts).db.market.auctions
    ensures Unsellable(Exec(s, acts).db.market, aid)
  {
    if acts == [] {
    } else {
      StillThere(s, acts, aid);
      NeverSoldAgain(s, acts[..|acts| - 1], aid);
      InvBefore(s, acts);
      UnsellableStep(Exec(s, acts[..|acts| - 1]), acts[|acts| - 1], aid);
    }
  }

  lemma UnsellableStep(s: Sys, a: Action, aid: AuctionId)
    requires Inv(s) && Unsellable(s.db.market, aid) && aid in Apply(s, a).db.market.auctions
    ensures Unsellable(Apply(s, a).db.market, aid)
  {
    if Target(a) == Some(aid) {
      UnsellableHere(s, a, aid);
      SameOrders(s.db.market, Apply(s, a).db.market, aid);
      KeepsIndex(s, a);
    } else {
      UnsellableElsewhere(s, a, aid);
    }
  }

  lemma KeepsIndex(s: Sys, a: Action)
    requires Inv(s)
    ensures Apply(s, a).db.market.uniqueOrder == s.db.market.uniqueOrder
  {
    ApplyGood(s, a);
  }

  // ---------------------------------------------------------------- stuck for ever

  /** A stuck auction takes new bids, edits and nothing else: it stays open and its live bids stay live. */
  lemma StuckHere(s: Sys, a: Action, aid: AuctionId)
    requires Inv(s) && IsStuck(s.db.market, aid) && Target(a) == Some(aid)
    ensures IsOpen(Apply(s, a).db.market, aid)
    ensures forall i: BidId :: Live(s.db.market.bids, aid, i) ==> Live(Apply(s, a).db.market.bids, aid, i)
  {
    var m := s.db.market;
    if Plain(a) {
      StuckPlain(s, a, aid);
    } else if OnTask(a) {
      if a.task in s.tasks {
        OpenIsUnsellable(m, |s.db.wallet.balance|, aid);
        UnsellableWork(s, a, aid);
      }
    } else {
      if a.TimedClose? && Locks(m, aid, OpenUntil(a.now)) {
        CloseFailsIff(s.db, aid, OpenUntil(a.now), a.now);
      } else if a.AdminClose? {
        CloseFailsIff(s.db, aid, OpenAny(), a.now);
      }
    }
  }

  lemma OpenIsUnsellable(m: Market, users: nat, aid: AuctionId)
    requires MarketInv(m, users) && IsStuck(m, aid)
    ensures Unsellable(m, aid)
  {
    assert AuctionInv(m, users, aid);
  }

  lemma StuckPlain(s: Sys, a: Action, aid: AuctionId)
    requires Inv(s) && IsStuck(s.db.market, aid) && Plain(a) && Target(a) == Some(aid)
    ensures IsOpen(Apply(s, a).db.market, aid)
    ensures forall i: BidId :: Live(s.db.market.bids, aid, i) ==> Live(Apply(s, a).db.market.bids, aid, i)
  {
    HeadIsMember(LiveBids(s.db.market.bids, aid));
    if a.Buy? {
      BuyFailsAfterOrder(s.db, aid, a.user, a.price, a.now);
    } else if a.Delete? {
      assert HasBids(s.db.market.bids, aid);
    }
  }

  lemma StuckStep(s: Sys, a: Action, aid: AuctionId)
    requires Inv(s) && IsStuck(s.db.market, aid)
    ensures IsStuck(Apply(s, a).db.market, aid)
    ensures forall i: BidId :: Live(s.db.market.bids, aid, i) ==> Live(Apply(s, a).db.market.bids, aid, i)
  {
    var m, m' := s.db.market, Apply(s, a).db.market;
    HeadIsMember(LiveBids(m.bids, aid));
    OpenIsUnsellable(m, |s.db.wallet.balance|, aid);
    if Target(a) == Some(aid) {
      StuckHere(s, a, aid);
    } else {
      ElsewhereStep(s, a, aid);
      ActionLocal(s, a, aid);
    }
    UnsellableStep(s, a, aid);
    assert LiveBids(m.bids, aid)[0] in LiveBids(m'.bids, aid);
  }

  /** A stuck auction stays stuck in every run: it never closes, and no live bid on it ever gets its money
      back. */
  lemma {:induction false} StuckForever(s: Sys, acts: seq<Action>, aid: AuctionId, i: BidId)
    requires Inv(s) && IsStuck(s.db.market, aid) && Live(s.db.market.bids, aid, i)
    ensures IsStuck(Exec(s, acts).db.market, aid) && Live(Exec(s, acts).db.market.bids, aid, i)
    ensures Releases(Exec(s, acts).db.wallet.ledger, i) == 0
  {
    if acts == [] {
    } else {
      StuckForever(s, acts[..|acts| - 1], aid, i);
      InvBefore(s, acts);
      StuckStep(Exec(s, acts[..|acts| - 1]), acts[|acts| - 1], aid);
    }
    RunInv(s, acts);
    LiveUnreleased(Exec(s, acts).db.market.bids, Exec(s, acts).db.wallet, i);
  }

  /** How an auction gets stuck: under the index, a reopening leaves it stuck exactly when the CHECK admits the
      reopened row and a live bid is left; otherwise the next accepted bid does. */
  lemma ReopeningSticks(db: Db, o: OrderRef, now: Millis)
    requires DbInv(db) && RefOk(db.market, o) && Reopens(db.market, o) && db.market.uniqueOrder
    ensures var m, m' := db.market, ReopenAuction(db, o, now).db.market;
      IsStuck(m', o.auctionId) <==>
        ReopenRowOk(m, o, now) && |LiveBids(m.bids, o.auctionId)| > (if IsAuctionWinner(m.bids, o) then 1 else 0)
  {
    hide RowOk, BaselinePrice, DbInv;
    var m := db.market;
    if ReopenRowOk(m, o, now) {
      var m' := ReopenedMarket(m, o, now);
      assert o.id in m'.orders && m'.orders[o.id].auctionId == o.auctionId;
      if IsAuctionWinner(m.bids, o) {
        LiveLeft(m.bids, o.auctionId, now);
      }
    }
  }

  lemma LiveLeft(bids: seq<Bid>, aid: AuctionId, now: Millis)
    requires LiveBids(bids, aid) != []
    ensures var live := LiveBids(bids, aid);
      LiveBids(Disqualify(bids, [live[0]], now), aid) != [] <==> |live| > 1
  {
    var live := LiveBids(bids, aid);
    var bids' := Disqualify(bids, [live[0]], now);
    assert live[0] in live;
    if |live| > 1 {
      assert live[1] in live && live[1] != live[0];
      assert live[1] in LiveBids(bids', aid);
    } else {
      forall i: BidId ensures !Live(bids', aid, i) {
        assert Live(bids', aid, i) ==> Live(bids, aid, i) && i in live;
      }
      NoneLive(bids', aid);
    }
  }

  lemma BuyStep(s: Sys, aid: AuctionId, user: UserId, price: int, now: Millis)
    requires BuyNow(s.db, aid, user, price, now).result.Ok?
    ensures var m, m1 := s.db.market, Apply(s, Buy(aid, user, price, now)).db.market;
      && aid in m.auctions && m1.bids == m.bids && m1.uniqueOrder == m.uniqueOrder && Pending(m1, m.nextOrder)
      && aid in m1.auctions && m1.auctions[aid].status == CLOSED && m1.orders[m.nextOrder].auctionId == aid
      && OrderRefOf(m1, m.nextOrder) == OrderRef(m.nextOrder, aid, user, price, m.auctions[aid].sellerUserId)
  {
  }

  lemma ExpireStep(s: Sys, oid: OrderId)
    requires Pending(s.db.market, oid) && s.db.market.orders[oid].auctionId in s.db.market.auctions
    ensures Apply(s, Expire(oid)).db == s.db
    ensures Reopening(OrderRefOf(s.db.market, oid)) in Apply(s, Expire(oid)).tasks
  {
  }

  /** What a buy-now by somebody else than the leader comes to if it is not paid: under the index, any auction
      with live bids is stuck afterwards. */
  lemma FailedBuyNowSticks(s: Sys, aid: AuctionId, user: UserId, price: int, now: Millis, later: Millis)
    requires Inv(s) && s.db.market.uniqueOrder && BuyNow(s.db, aid, user, price, now).result.Ok?
    requires LiveBids(s.db.market.bids, aid) != [] && Leader(s.db.market.bids, aid) != Some(user)
    requires !Jammed(s.db.market, aid)
    ensures exists s' :: Reaches(s, s') && IsStuck(s'.db.market, aid)
  {
    var buy, m := Buy(aid, user, price, now), s.db.market;
    var s1 := Apply(s, buy);
    BuyStep(s, aid, user, price, now);
    InvAfter(s, buy);
    var o := OrderRefOf(s1.db.market, m.nextOrder);
    var s2 := Apply(s1, Expire(o.id));
    ExpireStep(s1, o.id);
    ReopenStep(s2, o, later);
    assert ReopenRowOk(s1.db.market, o, later) by { BoughtReopens(s.db, aid, user, price, now, later); }
    ReopeningSticks(s1.db, o, later);
    ReachesTwo(s, buy, Expire(o.id));
    ReachesNext(s, s2, Reopen(Reopening(o), later));
  }

  lemma InvAfter(s: Sys, a: Action)
    requires Inv(s) && a.Buy?
    ensures Inv(Apply(s, a))
  {
    BuyGood(s, a);
  }

  /** When a buy-now commits: the price it read beforehand only has to lie between the start and the buy-now
      price as they are now; no live bid is looked at. */
  lemma BuyNowCommitsIff(db: Db, aid: AuctionId, user: UserId, price: int, now: Millis)
    requires DbInv(db) && Locks(db.market, aid, OpenAfter(now))
    ensures var row := db.market.auctions[aid];
      BuyNow(db, aid, user, price, now).result.Ok? <==>
        && row.startPrice <= price && (row.buyNowPrice.Some? ==> price <= row.buyNowPrice.value)
        && user < |db.wallet.balance| && OrderInsertOk(db.market, aid)
  {
    assert AuctionInv(db.market, |db.wallet.balance|, aid);
  }
}
