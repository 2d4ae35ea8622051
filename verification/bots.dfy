/** The bots' bid price, and what a bot bid costs when its hold fails after the row is inserted. */
module Bots {
  import opened Schema
  import opened WalletMoves
  import opened Transactions
  import opened MarketInvariant
  import opened DatabaseInvariant
  import opened Service
  import opened Runs
  import opened Finalize
  import Payload

  datatype Bot = Bot(maxBidMultiplier: real, bidUnit: int, balance: int)

  /** The draw is the random number in [0, 1), scaled to the size of the range and rounded down. */
  function RandInt(min: int, max: int, draw: real): int {
    (draw * (max - min + 1) as real).Floor + min
  }

  lemma Scaled(draw: real, n: real)
    requires 0.0 <= draw < 1.0 && 0.0 < n
    ensures 0.0 <= draw * n < n
  {
  }

  lemma FloorIs(x: real, k: int)
    ensures x.Floor == k <==> k as real <= x < (k + 1) as real
  {
  }

  lemma FloorRange(x: real, n: int)
    requires 0.0 <= x < n as real
    ensures 0 <= x.Floor < n
  {
  }

  lemma RandIntIs(min: int, max: int, draw: real, v: int)
    requires min <= max && 0.0 <= draw < 1.0
    ensures min <= RandInt(min, max, draw) <= max
    ensures RandInt(min, max, draw) == v <==>
      (v - min) as real <= draw * (max - min + 1) as real < (v - min + 1) as real
  {
    var n := max - min + 1;
    var x := draw * n as real;
    Scaled(draw, n as real);
    FloorRange(x, n);
    FloorIs(x, v - min);
    assert RandInt(min, max, draw) == x.Floor + min;
  }

  /** Each value between the bounds is returned for its own slice of the draws, all slices equally long. */
  lemma RandIntUniform(min: int, max: int, draw: real, v: int)
    requires min <= v <= max && 0.0 <= draw < 1.0
    ensures min <= RandInt(min, max, draw) <= max
    ensures RandInt(min, max, draw) == v <==>
      (v - min) as real / (max - min + 1) as real <= draw < (v - min + 1) as real / (max - min + 1) as real
  {
    RandIntIs(min, max, draw, v);
    Slice(draw, (max - min + 1) as real, (v - min) as real);
    Slice(draw, (max - min + 1) as real, (v - min + 1) as real);
  }

  lemma Slice(draw: real, n: real, k: real)
    requires 0.0 < n
    ensures k / n <= draw <==> k <= draw * n
  {
    assert k == (k / n) * n;
    if k / n <= draw {
      assert (k / n) * n <= draw * n;
    } else {
      assert draw * n < (k / n) * n;
    }
  }

  function Min(a: int, b: int): int { if a <= b then a else b }

  function MaxByMultiplier(row: Auction, bot: Bot): int { (row.startPrice as real * bot.maxBidMultiplier).Floor }

  function ComputeBidPrice(row: Auction, bot: Bot, draw: real): Option<int> {
    var minBid := row.currentPrice + row.minimumIncrement;
    var maxBid := Min(MaxByMultiplier(row, bot), bot.balance);
    if minBid > maxBid then None
    else Some(minBid + RandInt(0, Min(bot.bidUnit, maxBid - minBid), draw))
  }

  lemma NegativeRange(max: int, draw: real)
    requires 0.0 <= draw < 1.0 && max <= -1
    ensures RandInt(0, max, draw) <= 0
    ensures max == -1 ==> RandInt(0, max, draw) == 0
    ensures max < -1 && draw > 0.0 ==> RandInt(0, max, draw) < 0
  {
    var n := (max + 1) as real;
    if max < -1 {
      assert draw * n <= 0.0;
      assert draw > 0.0 ==> draw * n < 0.0;
    }
  }

  /** Whatever the draw, the price respects the multiplier cap and the balance the bot was read with. */
  lemma BidWithinCaps(row: Auction, bot: Bot, draw: real)
    requires 0.0 <= draw < 1.0 && ComputeBidPrice(row, bot, draw).Some?
    ensures var p := ComputeBidPrice(row, bot, draw).value;
      p as real <= row.startPrice as real * bot.maxBidMultiplier && p <= bot.balance
  {
    var minBid, maxBid := row.currentPrice + row.minimumIncrement, Min(MaxByMultiplier(row, bot), bot.balance);
    var span := Min(bot.bidUnit, maxBid - minBid);
    if 0 <= span {
      RandIntUniform(0, span, draw, 0);
    } else {
      NegativeRange(span, draw);
    }
  }

  /** The price also reaches the minimum bid for every draw exactly when the bid unit is at least -1; the
      schema puts no CHECK on it, and a lower one makes almost every draw bid too little. */
  lemma BidReachesMinimum(row: Auction, bot: Bot)
    requires ComputeBidPrice(row, bot, 0.5).Some?
    ensures -1 <= bot.bidUnit <==>
      forall draw {:trigger ComputeBidPrice(row, bot, draw)} :: 0.0 <= draw < 1.0 ==>
        row.currentPrice + row.minimumIncrement <= ComputeBidPrice(row, bot, draw).value
  {
    var minBid, maxBid := row.currentPrice + row.minimumIncrement, Min(MaxByMultiplier(row, bot), bot.balance);
    var span := Min(bot.bidUnit, maxBid - minBid);
    if -1 <= bot.bidUnit {
      forall draw | 0.0 <= draw < 1.0 ensures minBid <= ComputeBidPrice(row, bot, draw).value {
        if 0 <= span {
          RandIntUniform(0, span, draw, 0);
        } else {
          NegativeRange(span, draw);
        }
      }
    } else {
      NegativeRange(span, 0.5);
      assert ComputeBidPrice(row, bot, 0.5).value < minBid;
    }
  }

  lemma Below(k: int, n: int)
    requires 0 <= k < n
    ensures 0.0 <= k as real / n as real < (k + 1) as real / n as real && k as real / n as real < 1.0
  {
    assert k as real / n as real * n as real == k as real;
    assert (k + 1) as real / n as real * n as real == (k + 1) as real;
  }

  /** What a bot may bid: the minimum bid or up to one bid unit more, no more than the multiplier of the start price
      and than the balance. */
  predicate Affordable(row: Auction, bot: Bot, p: int) {
    && row.currentPrice + row.minimumIncrement <= p <= row.currentPrice + row.minimumIncrement + bot.bidUnit
    && p as real <= row.startPrice as real * bot.maxBidMultiplier && p <= bot.balance
  }

  lemma BelowCap(row: Auction, bot: Bot, p: int)
    ensures p <= MaxByMultiplier(row, bot) <==> p as real <= row.startPrice as real * bot.maxBidMultiplier
  {
    FloorIs(row.startPrice as real * bot.maxBidMultiplier, MaxByMultiplier(row, bot));
  }

  /** The draw that gives `k`. */
  lemma DrawFor(span: int, k: int) returns (draw: real)
    requires 0 <= k <= span
    ensures 0.0 <= draw < 1.0 && RandInt(0, span, draw) == k
  {
    draw := k as real / (span + 1) as real;
    Slice(draw, (span + 1) as real, k as real);
    Slice(0.0, (span + 1) as real, k as real);
    Below(k, span + 1);
    RandIntUniform(0, span, draw, k);
  }

  lemma DrawsWithin(span: int, draw: real)
    requires 0 <= span && 0.0 <= draw < 1.0
    ensures 0 <= RandInt(0, span, draw) <= span
  {
    RandIntUniform(0, span, draw, 0);
  }

  /** The price is the minimum bid plus a random number up to the span, if there is one. */
  lemma ComputesFrom(row: Auction, bot: Bot, draw: real)
    ensures var minBid, maxBid := row.currentPrice + row.minimumIncrement, Min(MaxByMultiplier(row, bot), bot.balance);
      ComputeBidPrice(row, bot, draw) ==
      if minBid > maxBid then None else Some(minBid + RandInt(0, Min(bot.bidUnit, maxBid - minBid), draw))
  {
    hide RandInt, MaxByMultiplier, Min;
  }

  /** Each of these prices has its draw, and a bot whose unit is not negative computes no other. */
  lemma EveryPriceIsDrawn(row: Auction, bot: Bot, p: int)
    ensures Affordable(row, bot, p) ==> exists draw :: 0.0 <= draw < 1.0 && ComputeBidPrice(row, bot, draw) == Some(p)
    ensures 0 <= bot.bidUnit ==>
      forall draw :: 0.0 <= draw < 1.0 && ComputeBidPrice(row, bot, draw) == Some(p) ==> Affordable(row, bot, p)
  {
    hide RandInt, MaxByMultiplier, ComputeBidPrice;
    var minBid, maxBid := row.currentPrice + row.minimumIncrement, Min(MaxByMultiplier(row, bot), bot.balance);
    var span := Min(bot.bidUnit, maxBid - minBid);
    BelowCap(row, bot, p);
    if 0 <= bot.bidUnit {
      forall draw | 0.0 <= draw < 1.0 && ComputeBidPrice(row, bot, draw) == Some(p) ensures Affordable(row, bot, p) {
        ComputesFrom(row, bot, draw);
        DrawsWithin(span, draw);
      }
    }
    if Affordable(row, bot, p) {
      var draw := DrawFor(span, p - minBid);
      ComputesFrom(row, bot, draw);
    }
  }

  /** A bot bids nothing exactly if even the minimum bid is above a cap. */
  lemma NoBidIff(row: Auction, bot: Bot, draw: real)
    ensures var minBid := row.currentPrice + row.minimumIncrement;
      ComputeBidPrice(row, bot, draw).None? <==>
        minBid as real > row.startPrice as real * bot.maxBidMultiplier || minBid > bot.balance
  {
    BelowCap(row, bot, row.currentPrice + row.minimumIncrement);
  }

  /** A bot's hold goes through in any database where the bot has at least the balance its price was computed
      with, whatever happened to the auction since. */
  lemma ComputedBidIsHeld(row: Auction, bot: Bot, draw: real, db: Db, aid: AuctionId, user: UserId, now: Millis)
    requires 0.0 <= draw < 1.0 && ComputeBidPrice(row, bot, draw).Some?
    requires user < |db.wallet.balance| && bot.balance <= db.wallet.balance[user]
    ensures !BotHoldFails(db, aid, user, ComputeBidPrice(row, bot, draw).value, now)
  {
    BidWithinCaps(row, bot, draw);
  }

  // ---------------------------------------------------------------- what mints money

  lemma OwnedIs(db: Db)
    requires DbInv(db)
    ensures Owned(db) == TotalMoney(db) + AllMinted(db)
  {
    ClaimsSplit(db.market.bids, db.wallet);
  }

  /** A release creates money exactly if it is the first of a bid that was never held, and then its price. */
  lemma ReleaseMints(db: Db, l: LosingBid)
    requires DbInv(db) && LosingOk(db.market.bids, l)
    ensures var db' := db.(wallet := ReleaseBidHold(db.wallet, l.userId, l.bidPrice, l.id));
      Owned(db') == Owned(db) +
        if l.id !in HoldRefs(db.wallet.ledger) && Releases(db.wallet.ledger, l.id) == 0 then l.bidPrice else 0
  {
    hide MarketInv, ReleaseBidHold, WalletInv, MintedAll, Unexplained, Wealth, LosingOk;
    var bids, w := db.market.bids, db.wallet;
    ReleaseKeeps(bids, w, l);
    ClaimsSplit(bids, w);
    ClaimsSplit(bids, ReleaseBidHold(w, l.userId, l.bidPrice, l.id));
    ReleaseMinted(bids, w, l);
    assert Wealth(bids, w) == Sum(w.balance) + Sum(WithheldAll(bids, w.ledger)) - Sum(MintedAll(bids, w.ledger));
  }

  lemma ReleaseMinted(bids: seq<Bid>, w: Wallet, l: LosingBid)
    requires WalletInv(bids, w) && LosingOk(bids, l)
    ensures Sum(MintedAll(bids, ReleaseBidHold(w, l.userId, l.bidPrice, l.id).ledger)) ==
      Sum(MintedAll(bids, w.ledger)) +
        if l.id !in HoldRefs(w.ledger) && Releases(w.ledger, l.id) == 0 then l.bidPrice else 0
  {
    hide ReleaseBidHold, Wealth, Unexplained, EntryOk, Ascending;
    var w' := ReleaseBidHold(w, l.userId, l.bidPrice, l.id);
    ReleaseKeeps(bids, w, l);
    ReleaseKeepsRefs(w, l);
    var before := MintedAll(bids, w.ledger);
    var after := Minted(bids, w'.ledger, l.id);
    assert MintedAll(bids, w'.ledger) == before[l.id := after];
    SumUpdate(before, l.id, after);
  }

  lemma ReleaseKeepsRefs(w: Wallet, l: LosingBid)
    ensures HoldRefs(ReleaseBidHold(w, l.userId, l.bidPrice, l.id).ledger) == HoldRefs(w.ledger)
  {
    LedgerAppend(w.ledger, Entry(l.userId, l.bidPrice, BID_RELEASE, l.id), 0, 0);
  }

  /** A payment by conversion creates money exactly if the bid it converts was never held. */
  lemma ConversionMints(db: Db, o: OrderRef, now: Millis)
    requires DbInv(db) && RefOk(db.market, o) && Pending(db.market, o.id) && IsAuctionWinner(db.market.bids, o)
    ensures var paid := PayOrder(db, o, true, now);
      && paid.result == Ok(())
      && Owned(paid.db) == Owned(db) +
           if LiveBids(db.market.bids, o.auctionId)[0] !in HoldRefs(db.wallet.ledger) then o.finalPrice else 0
  {
    hide DbInv, SameMoney, Evolves, PayOrder, Owned, AllMinted, TotalMoney;
    PayByHoldKeeps(db, o, now);
    OwnedIs(db);
    OwnedIs(PayOrder(db, o, true, now).db);
    SameTotal(db, PayOrder(db, o, true, now).db);
    ConvertedMinted(db, o, now);
  }

  lemma SameTotal(db1: Db, db2: Db)
    requires SameMoney(db1, db2)
    ensures TotalMoney(db2) == TotalMoney(db1)
  {
  }

  lemma ConvertedMinted(db: Db, o: OrderRef, now: Millis)
    requires DbInv(db) && RefOk(db.market, o) && Pending(db.market, o.id) && IsAuctionWinner(db.market.bids, o)
    ensures PayOrder(db, o, true, now).result == Ok(())
    ensures AllMinted(PayOrder(db, o, true, now).db) == AllMinted(db) +
      if LiveBids(db.market.bids, o.auctionId)[0] !in HoldRefs(db.wallet.ledger) then o.finalPrice else 0
  {
    hide MarketInv, WalletInv, LiveBids;
    var bids, w, t := db.market.bids, db.wallet, LiveBids(db.market.bids, o.auctionId)[0];
    var w1 := ConvertHoldToPayment(w, o.buyerUserId, o.finalPrice, o.id);
    OrderEntryFrames(bids, w.ledger, Entry(o.buyerUserId, -o.finalPrice, PAYMENT, o.id));
    OrderEntryFrames(bids, w1.ledger, Entry(o.sellerUserId, o.finalPrice, ADJUSTMENT, o.id));
    var db' := PayOrder(db, o, true, now).db;
    var before := MintedAll(bids, w.ledger);
    assert t < |bids| && bids[t].disqualifiedAt.None? && !bids[t].converted by {
      PendingMeans(db.market, |w.balance|, o.id);
      assert t in LiveBids(bids, o.auctionId);
    }
    LiveUnreleased(bids, w, t);
    var after := Minted(db'.market.bids, db'.wallet.ledger, t);
    assert MintedAll(db'.market.bids, db'.wallet.ledger) == before[t := after];
    SumUpdate(before, t, after);
  }

  // ---------------------------------------------------------------- the bid without a hold

  lemma {:induction false} UnheldForever(s: Sys, acts: seq<Action>, b: BidId)
    requires Inv(s) && b < |s.db.market.bids| && b !in HoldRefs(s.db.wallet.ledger)
    ensures b < |Exec(s, acts).db.market.bids| && b !in HoldRefs(Exec(s, acts).db.wallet.ledger)
    ensures Exec(s, acts).db.market.bids[b].bidPrice == s.db.market.bids[b].bidPrice
  {
    hide Apply, Inv, HoldRefs;
    if acts == [] {
    } else {
      var n := |acts| - 1;
      RunInv(s, acts[..n]);
      UnheldForever(s, acts[..n], b);
      ApplyGood(Exec(s, acts[..n]), acts[n]);
      UnheldStep(Exec(s, acts[..n]), acts[n], b);
    }
  }

  /** A hold is only ever taken for the bid just inserted. */
  lemma UnheldStep(s: Sys, a: Action, b: BidId)
    requires b < |s.db.market.bids| && b !in HoldRefs(s.db.wallet.ledger)
    ensures b !in HoldRefs(Apply(s, a).db.wallet.ledger)
  {
    hide RowOk, BidError, HasBids, OrderInsertOk, ActiveOrders, CloseBy, Work, HoldRefs, ClosedMarket, CloseResultOf;
    hide Payload.ParseSpec;
    if a.PlaceBidBy? || a.BotBidBy? {
      LedgerAppend(s.db.wallet.ledger, Entry(a.user, -a.price, BID_HOLD, |s.db.market.bids|), 0, 0);
    } else if OnTask(a) {
      WorkHoldsNothing(s, a);
    } else if a.TimedClose? || a.AdminClose? {
      CloseByShape(s, a.aid, if a.TimedClose? then OpenUntil(a.now) else OpenAny(), a.now);
    }
  }

  lemma {:induction false} ReleaseAllHoldsNothing(w: Wallet, ls: seq<LosingBid>)
    ensures HoldRefs(ReleaseAll(w, ls).ledger) == HoldRefs(w.ledger)
  {
    if ls == [] {
    } else {
      var n := |ls| - 1;
      ReleaseAllHoldsNothing(w, ls[..n]);
      ReleaseKeepsRefs(ReleaseAll(w, ls[..n]), ls[n]);
    }
  }

  lemma PayHoldsNothing(db: Db, o: OrderRef, winner: bool, now: Millis)
    ensures HoldRefs(PayOrder(db, o, winner, now).db.wallet.ledger) == HoldRefs(db.wallet.ledger)
  {
    hide HoldRefs, PaidMarket, Credit, ReleaseAll, LiveBids, Releases, LedgerSum, Listed;
    var w, e1 := db.wallet, Entry(o.buyerUserId, -o.finalPrice, PAYMENT, o.id);
    var e2 := Entry(o.sellerUserId, o.finalPrice, ADJUSTMENT, o.id);
    LedgerAppend(w.ledger, e1, 0, 0);
    if winner {
      LedgerAppend(w.ledger + [e1], e2, 0, 0);
    } else {
      var ls := Listed(db.market.bids, LiveBids(db.market.bids, o.auctionId));
      ReleaseAllHoldsNothing(Post(w, e1), ls);
      LedgerAppend(ReleaseAll(Post(w, e1), ls).ledger, e2, 0, 0);
    }
  }

  lemma WorkHoldsNothing(s: Sys, a: Action)
    requires OnTask(a)
    ensures HoldRefs(Work(s, a).db.wallet.ledger) == HoldRefs(s.db.wallet.ledger)
  {
    hide HoldRefs, PayOrder, ReopenedMarket, IsAuctionWinner, RowOk, SetPayload, ReleaseAll, Payload.ToDbPayload;
    if a.Release? && a.task.Finalizing? {
      ReleaseAllHoldsNothing(s.db.wallet, a.task.r.losingBids);
    } else if a.Commit? && a.task.Decided? {
      PayHoldsNothing(s.db, a.task.o, a.task.isAuctionWinner, a.now);
    } else if a.Reopen? && a.task.Reopening? {
      ReopenHoldsNothing(s.db, a.task.o, a.now);
    }
  }

  lemma ReopenHoldsNothing(db: Db, o: OrderRef, now: Millis)
    ensures HoldRefs(ReopenAuction(db, o, now).db.wallet.ledger) == HoldRefs(db.wallet.ledger)
  {
    hide HoldRefs, ReopenedMarket, RowOk, ReleaseBidHold;
    var live := LiveBids(db.market.bids, o.auctionId);
    HeadIsMember(live);
    if live != [] {
      var b := db.market.bids[live[0]];
      ReleaseKeepsRefs(db.wallet, LosingBid(b.userId, b.bidPrice, live[0]));
    }
  }

  /** The failed hold mints money: the inserted row is never held later, so over any run it creates its price
      exactly if it is ever released or converted into a payment. */
  lemma FailedHoldMintsMoney(s: Sys, bid: Action, acts: seq<Action>)
    requires Inv(s) && bid.BotBidBy? && BotHoldFails(s.db, bid.aid, bid.user, bid.price, bid.now)
    ensures var s', b := Exec(Apply(s, bid), acts), |s.db.market.bids|;
      && b < |s'.db.market.bids|
      && Minted(s'.db.market.bids, s'.db.wallet.ledger, b) ==
           if Releases(s'.db.wallet.ledger, b) > 0 || s'.db.market.bids[b].converted then bid.price else 0
  {
    hide HoldRefs, Exec, Inv, BidError;
    var s1, b := Apply(s, bid), |s.db.market.bids|;
    assert s1.db == Db(WithBid(s.db.market, NewBid(bid.aid, bid.user, bid.price)), s.db.wallet);
    assert b !in HoldRefs(s.db.wallet.ledger) by {
      InvWallet(s);
      if b in HoldRefs(s.db.wallet.ledger) { HeldInside(s.db.market.bids, s.db.wallet, b); }
    }
    ApplyGood(s, bid);
    UnheldForever(s1, acts, b);
  }

  lemma InvWallet(s: Sys)
    requires Inv(s)
    ensures WalletInv(s.db.market.bids, s.db.wallet)
  {
  }

  /** The order a close creates for a bid that leads without a hold. */
  function UnheldOrder(m: Market, aid: AuctionId, bot: UserId, price: int): OrderRef
    requires aid in m.auctions
  {
    OrderRef(m.nextOrder, aid, bot, price, m.auctions[aid].sellerUserId)
  }

  /** One way it does: nobody outbids the row, the close sells to the bot, and the payment converts a hold that
      was never taken, so that the seller is paid with money nobody gave up. */
  lemma UnheldWinnerMints(db: Db, aid: AuctionId, bot: UserId, price: int, now: Millis, closing: Millis,
                          paying: Millis)
    requires DbInv(db) && BotHoldFails(db, aid, bot, price, now) && PriceInv(db.market, aid)
    requires RowOk(BidUpdate(db.market.auctions[aid], now, price)) && OrderInsertOk(db.market, aid)
    ensures var close := ExecuteClose(PlaceBidAsBot(db, aid, bot, price, now).db, aid, OpenAny(), closing);
      var o := UnheldOrder(db.market, aid, bot, price);
      && close.result.Ok? && close.result.value.Some? && IsAuctionWinner(close.db.market.bids, o)
      && var paid := PayOrder(close.db, o, true, paying);
         paid.result == Ok(()) && Owned(paid.db) == Owned(db) + price
  {
    var m, b, o := db.market, |db.market.bids|, UnheldOrder(db.market, aid, bot, price);
    var db1 := Db(WithBid(m, NewBid(aid, bot, price)), db.wallet);
    var db2 := Db(ClosedMarket(db1.market, aid, closing), db.wallet);
    UnheldOwned(db, aid, bot, price, now);
    UnheldWins(db, aid, bot, price, now, closing);
    CloseOwned(db1, aid, OpenAny(), closing);
    ConversionMints(db2, o, paying);
  }

  lemma UnheldOwned(db: Db, aid: AuctionId, bot: UserId, price: int, now: Millis)
    requires DbInv(db) && BotHoldFails(db, aid, bot, price, now)
    ensures var db1 := Db(WithBid(db.market, NewBid(aid, bot, price)), db.wallet);
      && PlaceBidAsBot(db, aid, bot, price, now) == Tx(db1, Ok(None)) && DbInv(db1) && Owned(db1) == Owned(db)
      && |db.market.bids| !in HoldRefs(db.wallet.ledger)
  {
    hide MarketInv;
    var bids, w, b := db.market.bids, db.wallet, |db.market.bids|;
    BotKeeps(db, aid, bot, price, now);
    if b in HoldRefs(w.ledger) { HeldInside(bids, w, b); }
    assert WithheldAll(bids + [NewBid(aid, bot, price)], w.ledger) == WithheldAll(bids, w.ledger) + [0];
    SumAppend(WithheldAll(bids, w.ledger), 0);
  }

  /** A close moves no balance and no hold. */
  lemma CloseOwned(db: Db, aid: AuctionId, options: LockOptions, now: Millis)
    requires DbInv(db) && options.statusOpen
    ensures Owned(ExecuteClose(db, aid, options, now).db) == Owned(db) && DbInv(ExecuteClose(db, aid, options, now).db)
  {
    hide DbInv, SameMoney, Evolves, CloseResultOf, ClosedMarket, RowOk, OrderInsertOk;
    CloseKeepsDb(db, aid, options, now);
    if Locks(db.market, aid, options) && ExecuteClose(db, aid, options, now).result.Ok? {
      CloseWithholds(db.market, db.wallet.ledger, aid, now);
    }
  }

  lemma CloseWithholds(m: Market, ledger: seq<Entry>, aid: AuctionId, now: Millis)
    requires aid in m.auctions
    ensures WithheldAll(ClosedMarket(m, aid, now).bids, ledger) == WithheldAll(m.bids, ledger)
  {
    hide ClosedMarket, HoldRefs, Releases;
    CloseBids(m, aid, now);
  }

  /** A close leaves the leading bid on top. */
  lemma TopStays(m: Market, aid: AuctionId, t: BidId, closing: Millis)
    requires aid in m.auctions && LiveBids(m.bids, aid) != [] && LiveBids(m.bids, aid)[0] == t
    requires forall i: BidId :: Live(m.bids, aid, i) && i != t ==> m.bids[i].bidPrice < m.bids[t].bidPrice
    ensures var bids' := ClosedMarket(m, aid, closing).bids;
      && |bids'| == |m.bids| && LiveBids(bids', aid) != [] && LiveBids(bids', aid)[0] == t
      && forall i :: 0 <= i < |m.bids| ==> bids'[i] == m.bids[i].(disqualifiedAt := bids'[i].disqualifiedAt)
  {
    hide ClosedMarket, LiveBids, CloseResultOf;
    CloseBids(m, aid, closing);
    LeaderIs(m.bids, aid);
    HeadIs(ClosedMarket(m, aid, closing).bids, aid, t);
  }

  lemma UnheldTops(m: Market, users: nat, aid: AuctionId, bot: UserId, price: int, now: Millis, closing: Millis)
    requires aid in m.auctions && AuctionInv(m, users, aid) && PriceInv(m, aid)
    requires BidError(m, aid, bot, price, now).None?
    ensures var m1, o := WithBid(m, NewBid(aid, bot, price)), UnheldOrder(m, aid, bot, price);
      var m2 := ClosedMarket(m1, aid, closing);
      && CloseResultOf(m1, aid).winnerUserId == Some(bot) && CloseResultOf(m1, aid).finalPrice == price
      && IsAuctionWinner(m2.bids, o) && LiveBids(m2.bids, aid) != [] && LiveBids(m2.bids, aid)[0] == |m.bids|
  {
    hide Settled, Coupled, PriceInv;
    var m1 := WithBid(m, NewBid(aid, bot, price));
    UnheldLeads(m, aid, bot, price, now);
    TopStays(m1, aid, |m.bids|, closing);
  }

  /** The failed hold and a close: the unheld bid won and still leads. */
  lemma UnheldWins(db: Db, aid: AuctionId, bot: UserId, price: int, now: Millis, closing: Millis)
    requires DbInv(db) && BotHoldFails(db, aid, bot, price, now) && PriceInv(db.market, aid)
    requires RowOk(BidUpdate(db.market.auctions[aid], now, price)) && OrderInsertOk(db.market, aid)
    ensures var m, b, o := db.market, |db.market.bids|, UnheldOrder(db.market, aid, bot, price);
      var m1 := WithBid(m, NewBid(aid, bot, price)); var m2 := ClosedMarket(m1, aid, closing);
      && ExecuteClose(Db(m1, db.wallet), aid, OpenAny(), closing)
           == Tx(Db(m2, db.wallet), Ok(Some(CloseResultOf(m1, aid))))
      && RefOk(m2, o) && Pending(m2, o.id) && IsAuctionWinner(m2.bids, o)
      && LiveBids(m2.bids, aid) != [] && LiveBids(m2.bids, aid)[0] == b
  {
    hide WalletInv, Settled, Coupled, BidsAboveStart, PriceInv, CloseResultOf, ClosedMarket, IsAuctionWinner, LiveBids;
    var m1 := WithBid(db.market, NewBid(aid, bot, price));
    assert AuctionInv(db.market, |db.wallet.balance|, aid);
    UnheldTops(db.market, |db.wallet.balance|, aid, bot, price, now, closing);
    CloseOrders(m1, aid, closing);
    var m2 := ClosedMarket(m1, aid, closing);
    assert ExecuteClose(Db(m1, db.wallet), aid, OpenAny(), closing).result.Ok?;
    assert RefOk(m2, UnheldOrder(db.market, aid, bot, price));
  }

  /** The other way: somebody outbids the row, the close lists it among the losers, and finalizing refunds a
      price that was never withheld.  If all other bids were held, exactly this price is created. */
  lemma UnheldLoserMints(db: Db, r: CloseResult, b: BidId)
    requires DbInv(db) && ResultOk(db.market, r) && Lists(r, b) && Releases(db.wallet.ledger, b) == 0
    requires forall k :: 0 <= k < |r.losingBids| ==>
      (r.losingBids[k].id in HoldRefs(db.wallet.ledger) <==> r.losingBids[k].id != b)
    ensures Owned(ReleaseLosers(db, r)) == Owned(db) + db.market.bids[b].bidPrice
  {
    hide DbInv, SameMoney, Evolves, Owned, AllMinted, TotalMoney, ReleaseLosers;
    var db' := ReleaseLosers(db, r);
    ReleaseKeepsDb(db, r);
    SameTotal(db, db');
    OwnedIs(db);
    OwnedIs(db');
    assert AllMinted(db') == AllMinted(db) + db.market.bids[b].bidPrice by { LoserMinted(db, r, b); }
  }

  lemma LoserMinted(db: Db, r: CloseResult, b: BidId)
    requires DbInv(db) && ResultOk(db.market, r) && Lists(r, b) && Releases(db.wallet.ledger, b) == 0
    requires forall k :: 0 <= k < |r.losingBids| ==>
      (r.losingBids[k].id in HoldRefs(db.wallet.ledger) <==> r.losingBids[k].id != b)
    ensures b < |db.market.bids| && AllMinted(ReleaseLosers(db, r)) == AllMinted(db) + db.market.bids[b].bidPrice
  {
    hide MarketInv, ReleaseAll;
    var bids, w, ls := db.market.bids, db.wallet, r.losingBids;
    var w' := ReleaseAll(w, ls);
    ReleaseAllKeeps(bids, w, ls);
    ReleaseAllHoldsNothing(w, ls);
    var j :| 0 <= j < |ls| && ls[j].id == b;
    assert LosingOk(bids, ls[j]);
    forall i: BidId | i < |bids| && i != b ensures Minted(bids, w'.ledger, i) == Minted(bids, w.ledger, i) {
      if k :| 0 <= k < |ls| && ls[k].id == i {
        assert i in HoldRefs(w.ledger);
      }
    }
    var before := MintedAll(bids, w.ledger);
    assert MintedAll(bids, w'.ledger) == before[b := bids[b].bidPrice];
    SumUpdate(before, b, bids[b].bidPrice);
  }
}
