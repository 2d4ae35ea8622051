/** Bidding over whole runs: the auction as an ascending auction, and how far bids can move its end. */
module Bidding {
  import opened Schema
  import opened WalletMoves
  import opened Transactions
  import opened MarketInvariant
  import opened DatabaseInvariant
  import opened Service
  import opened Runs
  import opened Locality
  import opened Finalize
  import opened Prices
  import opened Outcomes
  import Payload

  // ---------------------------------------------------------------- the ascending auction

  /** What an ascending auction is about: who leads, at what price, and who may not bid. */
  datatype Ascending = Ascending(leader: Option<UserId>, price: int, seller: UserId)

  /** A raise, and the increment in force when it came. */
  datatype Raise = Raise(user: UserId, price: int, increment: int)

  /** The rule of the ascending auction. */
  predicate May(x: Ascending, r: Raise) {
    x.leader != Some(r.user) && r.user != x.seller && 0 < r.increment && x.price + r.increment <= r.price
  }

  function Raised(x: Ascending, r: Raise): Ascending { x.(leader := Some(r.user), price := r.price) }

  function Replay(x: Ascending, log: seq<Raise>): Ascending {
    if log == [] then x else Raised(Replay(x, log[..|log| - 1]), log[|log| - 1])
  }

  /** Every raise of the list obeyed the rule when it came. */
  predicate Legal(x: Ascending, log: seq<Raise>) {
    log == [] || (Legal(x, log[..|log| - 1]) && May(Replay(x, log[..|log| - 1]), log[|log| - 1]))
  }

  function View(m: Market, aid: AuctionId): Ascending
    requires aid in m.auctions
  {
    Ascending(Leader(m.bids, aid), m.auctions[aid].currentPrice, m.auctions[aid].sellerUserId)
  }

  predicate IsBid(a: Action, aid: AuctionId) { (a.PlaceBidBy? || a.BotBidBy?) && a.aid == aid }

  /** A bid, an edit that leaves the start price alone, or anything that works on other auctions. */
  predicate OnlyBids(a: Action, aid: AuctionId) {
    Target(a) != Some(aid) || IsBid(a, aid) || (a.Edit? && a.p.startPrice.None?)
  }

  predicate AllOnlyBids(acts: seq<Action>, aid: AuctionId) {
    acts == [] || (AllOnlyBids(acts[..|acts| - 1], aid) && OnlyBids(acts[|acts| - 1], aid))
  }

  /** The raise an action makes, if the service accepts it: a bid whose row was inserted. */
  function RaiseBy(s: Sys, a: Action, aid: AuctionId): seq<Raise> {
    if IsBid(a, aid) && aid in s.db.market.auctions && |Apply(s, a).db.market.bids| > |s.db.market.bids|
    then [Raise(a.user, a.price, s.db.market.auctions[aid].minimumIncrement)] else []
  }

  /** The raises on `aid` that a run makes, in order. */
  function Log(s: Sys, acts: seq<Action>, aid: AuctionId): seq<Raise> {
    if acts == [] then []
    else Log(s, acts[..|acts| - 1], aid) + RaiseBy(Exec(s, acts[..|acts| - 1]), acts[|acts| - 1], aid)
  }

  lemma BidStep(s: Sys, a: Action, aid: AuctionId)
    requires Inv(s) && HoldGoesThrough(s, a, aid) && IsOpen(s.db.market, aid) && PriceInv(s.db.market, aid)
    requires IsBid(a, aid)
    ensures AscendsBy(s.db.market, Apply(s, a).db.market, aid, RaiseBy(s, a, aid))
  {
    hide WalletInv, Coupled, Settled, DistinctPrices, BidsBelowBuyNow;
    var m := s.db.market;
    assert AuctionInv(m, |s.db.wallet.balance|, aid);
    if BidError(m, aid, a.user, a.price, a.now).None? && RowOk(BidUpdate(m.auctions[aid], a.now, a.price)) {
      BidLeads(m, aid, a.user, a.price, a.now);
    }
  }

  /** One step of the ascending auction, at most one raise long. */
  predicate AscendsBy(m: Market, m': Market, aid: AuctionId, raises: seq<Raise>)
    requires aid in m.auctions
  {
    && IsOpen(m', aid)
    && if raises == [] then View(m', aid) == View(m, aid)
       else |raises| == 1 && May(View(m, aid), raises[0]) && View(m', aid) == Raised(View(m, aid), raises[0])
  }

  lemma ElsewhereStep(s: Sys, a: Action, aid: AuctionId)
    requires Inv(s) && IsOpen(s.db.market, aid) && Target(a) != Some(aid)
    ensures IsOpen(Apply(s, a).db.market, aid) && View(Apply(s, a).db.market, aid) == View(s.db.market, aid)
  {
    ActionLocal(s, a, aid);
    UntouchedViews(s.db.market, Apply(s, a).db.market, aid);
    HeadIsMember(LiveBids(s.db.market.bids, aid));
  }

  lemma AscendStep(s: Sys, a: Action, aid: AuctionId)
    requires Inv(s) && HoldGoesThrough(s, a, aid) && IsOpen(s.db.market, aid) && PriceInv(s.db.market, aid)
    requires OnlyBids(a, aid)
    ensures AscendsBy(s.db.market, Apply(s, a).db.market, aid, RaiseBy(s, a, aid))
  {
    if IsBid(a, aid) {
      BidStep(s, a, aid);
    } else if Target(a) != Some(aid) {
      ElsewhereStep(s, a, aid);
    }
  }

  lemma InvBefore(s: Sys, acts: seq<Action>)
    requires Inv(s) && acts != []
    ensures Inv(Exec(s, acts[..|acts| - 1]))
  {
    RunInv(s, acts[..|acts| - 1]);
  }

  lemma ReplayStep(x: Ascending, log: seq<Raise>, x': Ascending, raises: seq<Raise>, x'': Ascending)
    requires Legal(x, log) && x' == Replay(x, log)
    requires if raises == [] then x'' == x' else |raises| == 1 && May(x', raises[0]) && x'' == Raised(x', raises[0])
    ensures Legal(x, log + raises) && x'' == Replay(x, log + raises)
  {
    if raises == [] {
      assert log + raises == log;
    } else {
      assert (log + raises)[..|log + raises| - 1] == log;
    }
  }

  /** Every run of bids refines the ascending auction: all accepted bids are legal raises, and leader and price
      are those of the last one.  Other auctions may be worked on in between, and the increment edited. */
  lemma {:induction false} RunAscends(s: Sys, acts: seq<Action>, aid: AuctionId)
    requires Inv(s) && IsOpen(s.db.market, aid) && PriceInv(s.db.market, aid)
    requires HoldsGoThrough(s, acts, aid) && AllOnlyBids(acts, aid)
    ensures IsOpen(Exec(s, acts).db.market, aid) && Legal(View(s.db.market, aid), Log(s, acts, aid))
    ensures View(Exec(s, acts).db.market, aid) == Replay(View(s.db.market, aid), Log(s, acts, aid))
  {
    hide Apply, Inv, PriceInv;
    if acts == [] {
    } else {
      var n := |acts| - 1;
      RunAscends(s, acts[..n], aid);
      InvBefore(s, acts);
      RunPrices(s, acts[..n], aid);
      AscendOnce(Exec(s, acts[..n]), acts[n], aid, View(s.db.market, aid), Log(s, acts[..n], aid));
    }
  }

  lemma AscendOnce(s: Sys, a: Action, aid: AuctionId, x: Ascending, log: seq<Raise>)
    requires Inv(s) && HoldGoesThrough(s, a, aid) && IsOpen(s.db.market, aid) && PriceInv(s.db.market, aid)
    requires OnlyBids(a, aid) && Legal(x, log) && View(s.db.market, aid) == Replay(x, log)
    ensures IsOpen(Apply(s, a).db.market, aid) && Legal(x, log + RaiseBy(s, a, aid))
    ensures View(Apply(s, a).db.market, aid) == Replay(x, log + RaiseBy(s, a, aid))
  {
    AscendStep(s, a, aid);
    ReplayStep(x, log, View(s.db.market, aid), RaiseBy(s, a, aid), View(Apply(s, a).db.market, aid));
  }

  /** The auction sold to `leader` at `price`, or closed unsold at it: row, order and close result agree. */
  predicate SoldTo(m: Market, m': Market, aid: AuctionId, r: CloseResult, leader: Option<UserId>, price: int,
                   now: Millis)
  {
    && r.auctionId == aid && r.winnerUserId == leader && r.finalPrice == price
    && aid in m'.auctions && m'.auctions[aid].currentPrice == price && m'.auctions[aid].winnerUserId == leader
    && m'.auctions[aid].status == CLOSED && m'.auctions[aid].closedAt == Some(now)
    && m'.auctions[aid].postCloseFinalizePayload.None?
    && (leader.None? ==> m'.orders == m.orders)
    && (leader.Some? ==> m.nextOrder in m'.orders && m'.orders[m.nextOrder] == Order(aid, leader.value, price, PENDING))
  }

  lemma CloseSellsToLeader(db: Db, aid: AuctionId, options: LockOptions, now: Millis)
    requires IsOpen(db.market, aid) && PriceInv(db.market, aid)
    requires var tx := ExecuteClose(db, aid, options, now); tx.result.Ok? && tx.result.value.Some?
    ensures var tx, x := ExecuteClose(db, aid, options, now), View(db.market, aid);
      SoldTo(db.market, tx.db.market, aid, tx.result.value.value, x.leader, x.price, now)
  {
    ClosePrice(db.market, aid);
    CloseOrders(db.market, aid, now);
  }

  /** The close after such a run sells to the last accepted bidder at the last accepted price, which is also
      the current price it finds; without any accepted bid, to whoever led before the run. */
  lemma CloseSellsToLast(s: Sys, acts: seq<Action>, aid: AuctionId, options: LockOptions, now: Millis)
    requires Inv(s) && IsOpen(s.db.market, aid) && PriceInv(s.db.market, aid)
    requires HoldsGoThrough(s, acts, aid) && AllOnlyBids(acts, aid)
    requires var tx := ExecuteClose(Exec(s, acts).db, aid, options, now); tx.result.Ok? && tx.result.value.Some?
    ensures var end, db := Replay(View(s.db.market, aid), Log(s, acts, aid)), Exec(s, acts).db;
      var tx := ExecuteClose(db, aid, options, now);
      && aid in db.market.auctions && db.market.auctions[aid].currentPrice == end.price
      && SoldTo(db.market, tx.db.market, aid, tx.result.value.value, end.leader, end.price, now)
  {
    RunPrices(s, acts, aid) by { RunAscends(s, acts, aid); }
    RunAscends(s, acts, aid);
    CloseSellsToLeader(Exec(s, acts).db, aid, options, now);
  }

  /** Exactly which bids are accepted.  The last condition is no check of the service: the CHECK constraint on
      the buy-now price aborts a bid above it. */
  lemma BidAcceptedIff(db: Db, aid: AuctionId, user: UserId, price: int, now: Millis)
    requires DbInv(db) && aid in db.market.auctions
    ensures var row := db.market.auctions[aid];
      PlaceBid(db, aid, user, price, now).result.Ok? <==>
        && row.status == OPEN && now < row.endTime
        && user != row.sellerUserId && Leader(db.market.bids, aid) != Some(user)
        && row.currentPrice + row.minimumIncrement <= price && Covers(db.wallet, user, price)
        && (row.buyNowPrice.Some? ==> price <= row.buyNowPrice.value)
  {
    assert AuctionInv(db.market, |db.wallet.balance|, aid);
    assert RowOk(db.market.auctions[aid]);
  }

  /** A new auction takes bids from the moment it is created and until the end it was given, from anybody but its
      seller. */
  lemma NewAuctionTakesBids(db: Db, a: NewAuction, seller: UserId, now: Millis, user: UserId, price: int, at: Millis)
    requires DbInv(db) && CreateAuction(db, a, seller, now).result.Ok?
    ensures var created := CreateAuction(db, a, seller, now);
      PlaceBid(created.db, created.result.value, user, price, at).result.Ok? <==>
        && at < a.endTime && user != seller && a.startPrice + a.minimumIncrement <= price
        && Covers(db.wallet, user, price) && (a.buyNowPrice.Some? ==> price <= a.buyNowPrice.value)
  {
    var created := CreateAuction(db, a, seller, now);
    CreateKeepsDb(db, a, seller, now);
    assert created.db.wallet == db.wallet && created.db.market.bids == db.market.bids;
    NoneLive(db.market.bids, created.result.value);
    BidAcceptedIff(created.db, created.result.value, user, price, at);
  }

  /** A deletion is the seller's or an administrator's, of an auction nobody bid on or is buying: it commits exactly
      then, and takes that auction and its cancelled orders away and nothing else. */
  lemma DeletesOwnUnsoldOnly(db: Db, aid: AuctionId, user: UserId, admin: bool)
    ensures var m, tx := db.market, DeleteAuction(db, aid, user, admin);
      && (tx.result.Ok? <==>
            && aid in m.auctions && (admin || m.auctions[aid].sellerUserId == user)
            && (forall i :: 0 <= i < |m.bids| ==> m.bids[i].auctionId != aid)
            && (forall o :: o in m.orders && m.orders[o].auctionId == aid ==> m.orders[o].status == CANCELLED))
      && (tx.result.Ok? ==>
            && aid !in tx.db.market.auctions
            && (forall o :: o in tx.db.market.orders ==> tx.db.market.orders[o].auctionId != aid)
            && tx.db.market.bids == m.bids && tx.db.wallet == db.wallet
            && forall x :: x in m.auctions && x != aid ==> Untouched(m, tx.db.market, x))
  {
    hide DeleteAuction;
    DeleteOutcome(db, aid, user, admin);
  }

  // ---------------------------------------------------------------- the soft close

  /** The three columns of the soft close. */
  datatype Clock = Clock(endTime: Millis, extendCount: int, lastExtendedAt: Option<Millis>)

  function ClockOf(m: Market, aid: AuctionId): Clock
    requires aid in m.auctions
  {
    Clock(m.auctions[aid].endTime, m.auctions[aid].extendCount, m.auctions[aid].lastExtendedAt)
  }

  /** The actions that set an end time instead of extending it. */
  predicate SetsEnd(a: Action, aid: AuctionId) {
    (a.Edit? && a.aid == aid && a.p.endTime.Some?) || (a.Reopen? && Target(a) == Some(aid))
  }

  /** The end it sets: the one of the edit, or an hour after the reopening. */
  function EndSet(a: Action): Millis
    requires (a.Edit? && a.p.endTime.Some?) || a.Reopen?
  {
    if a.Edit? then a.p.endTime.value else a.now + 3_600_000
  }

  /** A bid that gets through: its hold is in the ledger. */
  predicate Lands(s: Sys, a: Action, aid: AuctionId) {
    IsBid(a, aid) && aid in s.db.market.auctions && |Apply(s, a).db.wallet.ledger| > |s.db.wallet.ledger|
  }

  /** One that gets through no more than ten seconds before the end of an auction with an extension left. */
  predicate Extends(s: Sys, a: Action, aid: AuctionId) {
    && Lands(s, a, aid)
    && var c := ClockOf(s.db.market, aid); c.endTime - a.now <= 10_000 && c.extendCount < 3
  }

  function Extended(c: Clock, now: Millis): Clock { Clock(c.endTime + 300_000, c.extendCount + 1, Some(now)) }

  lemma BidWrites(s: Sys, a: Action, aid: AuctionId)
    requires Inv(s) && IsBid(a, aid) && aid in s.db.market.auctions
    ensures if Lands(s, a, aid)
            then Open(s.db.market, aid, a.now) && Bids(s.db, Apply(s, a).db, aid, a.user, a.price, a.now)
            else Apply(s, a).db.market.auctions == s.db.market.auctions
  {
    hide DbInv, LiveBids, Moves, RowAfterBid, PlaceBid, PlaceBidAsBot, Work, CloseBy, LiveBids;
    if a.PlaceBidBy? {
      BidOutcome(s.db, aid, a.user, a.price, a.now);
    } else {
      BotBidOutcome(s.db, aid, a.user, a.price, a.now);
    }
  }

  /** The soft close: a bid that gets through moves the clock if and only if it comes no more than ten seconds before
      the end and fewer than three extensions were made, and then by five minutes, one extension and its time. */
  lemma BidClockIff(s: Sys, a: Action, aid: AuctionId)
    requires Inv(s) && Lands(s, a, aid)
    ensures aid in Apply(s, a).db.market.auctions
    ensures var c, c' := ClockOf(s.db.market, aid), ClockOf(Apply(s, a).db.market, aid);
      && (c' != c <==> c.endTime - a.now <= 10_000 && c.extendCount < 3)
      && (c' != c ==> c' == Clock(c.endTime + 300_000, c.extendCount + 1, Some(a.now)))
  {
    hide Inv, Apply, Moves;
    BidWrites(s, a, aid);
  }

  lemma ReopenClock(db: Db, o: OrderRef, now: Millis, aid: AuctionId)
    requires aid in db.market.auctions && aid in ReopenAuction(db, o, now).db.market.auctions
    ensures var c, c' := ClockOf(db.market, aid), ClockOf(ReopenAuction(db, o, now).db.market, aid);
      c' == c || (o.auctionId == aid && c' == c.(endTime := now + 3_600_000))
  {
    hide IsAuctionWinner, BaselinePrice, RowOk, ReleaseBidHold;
  }

  /** Only a reopening touches the end of an auction among the work on tasks. */
  lemma WorkClock(s: Sys, a: Action, aid: AuctionId)
    requires OnTask(a) && a.task in s.tasks && aid in s.db.market.auctions && aid in Work(s, a).db.market.auctions
    ensures var c, c' := ClockOf(s.db.market, aid), ClockOf(Work(s, a).db.market, aid);
      c' == c || (SetsEnd(a, aid) && c' == c.(endTime := EndSet(a)))
  {
    hide FinishPayment, ReopenAuction, ReleaseAll, IsAuctionWinner, Payload.ToDbPayload;
    if a.Commit? && a.task.Decided? {
      CommitRows(s, a.task.o, a.task.isAuctionWinner, a.now);
    } else if a.Reopen? && a.task.Reopening? {
      ReopenClock(s.db, a.task.o, a.now, aid);
    }
  }

  lemma CloseClock(s: Sys, t: AuctionId, options: LockOptions, now: Millis, aid: AuctionId)
    requires options.statusOpen && aid in s.db.market.auctions
    ensures aid in CloseBy(s, t, options, now).db.market.auctions
    ensures ClockOf(CloseBy(s, t, options, now).db.market, aid) == ClockOf(s.db.market, aid)
  {
    hide ExecuteClose, ClosedMarket;
    CloseByShape(s, t, options, now);
    if t in s.db.market.auctions {
      CloseOrders(s.db.market, t, now);
    }
  }

  lemma JobClock(s: Sys, a: Action, aid: AuctionId)
    requires !Plain(a) && !OnTask(a) && aid in s.db.market.auctions && aid in Apply(s, a).db.market.auctions
    ensures ClockOf(Apply(s, a).db.market, aid) == ClockOf(s.db.market, aid)
  {
    hide CloseBy;
    if a.TimedClose? {
      CloseClock(s, a.aid, OpenUntil(a.now), a.now, aid);
    } else if a.AdminClose? {
      CloseClock(s, a.aid, OpenAny(), a.now, aid);
    }
  }

  lemma PlainClock(s: Sys, a: Action, aid: AuctionId)
    requires References(s.db.market, |s.db.wallet.balance|) && Plain(a) && !IsBid(a, aid)
    requires aid in s.db.market.auctions && aid in Apply(s, a).db.market.auctions
    ensures var c, c' := ClockOf(s.db.market, aid), ClockOf(Apply(s, a).db.market, aid);
      c' == c || (SetsEnd(a, aid) && c' == c.(endTime := EndSet(a)))
  {
    hide RowOk, HasBids, OrderInsertOk, HoldForBid, LiveBids, ActiveOrders;
  }

  /** What any action does to the end of an auction: a late bid that gets through extends it, an edit or a reopening
      may set it, and nothing else touches it. */
  lemma ClockStep(s: Sys, a: Action, aid: AuctionId)
    requires Inv(s) && aid in s.db.market.auctions && aid in Apply(s, a).db.market.auctions
    ensures var c, c' := ClockOf(s.db.market, aid), ClockOf(Apply(s, a).db.market, aid);
      if Extends(s, a, aid) then c' == Extended(c, a.now)
      else c' == c || (SetsEnd(a, aid) && c' == c.(endTime := EndSet(a)))
  {
    hide Inv, Apply, Moves, Work;
    if IsBid(a, aid) {
      BidWrites(s, a, aid);
    } else if Plain(a) {
      assert References(s.db.market, |s.db.wallet.balance|) by { InvReferences(s); }
      PlainClock(s, a, aid);
    } else if OnTask(a) {
      TaskApplies(s, a);
      if a.task in s.tasks {
        WorkClock(s, a, aid);
      }
    } else {
      JobClock(s, a, aid);
    }
  }

  lemma InvReferences(s: Sys)
    requires Inv(s)
    ensures References(s.db.market, |s.db.wallet.balance|)
  {
  }

  lemma TaskApplies(s: Sys, a: Action)
    requires OnTask(a)
    ensures Apply(s, a) == if a.task in s.tasks then Work(s, a) else s
  {
    hide Work;
  }

  /** No action of the run sets the end. */
  predicate EndLeftAlone(acts: seq<Action>, aid: AuctionId) {
    acts == [] || (EndLeftAlone(acts[..|acts| - 1], aid) && !SetsEnd(acts[|acts| - 1], aid))
  }

  /** How many bids of a run extended the auction. */
  function Extensions(s: Sys, acts: seq<Action>, aid: AuctionId): nat {
    if acts == [] then 0
    else
      Extensions(s, acts[..|acts| - 1], aid) +
      if Extends(Exec(s, acts[..|acts| - 1]), acts[|acts| - 1], aid) then 1 else 0
  }

  /** An auction has three extensions for life: edits and reopenings never give one back. */
  lemma {:induction false} ExtensionsBounded(s: Sys, acts: seq<Action>, aid: AuctionId)
    requires Inv(s) && aid in s.db.market.auctions && aid in Exec(s, acts).db.market.auctions
    ensures ClockOf(Exec(s, acts).db.market, aid).extendCount ==
      ClockOf(s.db.market, aid).extendCount + Extensions(s, acts, aid) <= 3
  {
    hide IsBid, SetsEnd, Apply;
    RunInv(s, acts);
    assert AuctionInv(Exec(s, acts).db.market, |s.db.wallet.balance|, aid);
    if acts == [] {
    } else {
      var n := |acts| - 1;
      StillThere(s, acts, aid);
      ExtensionsBounded(s, acts[..n], aid);
      RunInv(s, acts[..n]);
      ClockStep(Exec(s, acts[..n]), acts[n], aid);
    }
  }

  lemma StillThere(s: Sys, acts: seq<Action>, aid: AuctionId)
    requires Inv(s) && acts != []
    requires aid in s.db.market.auctions && aid in Exec(s, acts).db.market.auctions
    ensures aid in Exec(s, acts[..|acts| - 1]).db.market.auctions
  {
    RunInv(s, acts[..|acts| - 1]);
    ApplyGood(Exec(s, acts[..|acts| - 1]), acts[|acts| - 1]);
  }

  /** The time of `n` extensions of five minutes. */
  function ExtensionSpan(n: int): (r: Millis)
    ensures n == 1 ==> r == 300_000
  {
    n * 300_000
  }

  /** Without an edit of the end or a reopening, the end moves by five minutes per extension and not
      otherwise. */
  lemma {:induction false} EndMoves(s: Sys, acts: seq<Action>, aid: AuctionId)
    requires Inv(s) && aid in s.db.market.auctions && aid in Exec(s, acts).db.market.auctions
    requires EndLeftAlone(acts, aid)
    ensures ClockOf(Exec(s, acts).db.market, aid).endTime ==
      ClockOf(s.db.market, aid).endTime + ExtensionSpan(Extensions(s, acts, aid))
  {
    if acts == [] {
    } else {
      var n := |acts| - 1;
      StillThere(s, acts, aid);
      EndMoves(s, acts[..n], aid);
      InvBefore(s, acts);
      ClockStep(Exec(s, acts[..n]), acts[n], aid);
    }
  }

  /** So bids alone never move the end past the old end plus five minutes for each extension left. */
  lemma EndBounded(s: Sys, acts: seq<Action>, aid: AuctionId)
    requires Inv(s) && aid in s.db.market.auctions && aid in Exec(s, acts).db.market.auctions
    requires EndLeftAlone(acts, aid)
    ensures var c, c' := ClockOf(s.db.market, aid), ClockOf(Exec(s, acts).db.market, aid);
      c.endTime <= c'.endTime <= c.endTime + ExtensionSpan(3 - c.extendCount)
  {
    ExtensionsBounded(s, acts, aid);
    EndMoves(s, acts, aid);
  }

  /** After an extension at `t` and until the end is set anew, the end lies more than five minutes after the
      last extension. */
  lemma {:induction false} EndAfterExtension(s: Sys, first: Action, acts: seq<Action>, aid: AuctionId)
    requires Inv(s) && aid in s.db.market.auctions
    requires aid in Apply(s, first).db.market.auctions && aid in Exec(Apply(s, first), acts).db.market.auctions
    requires Extends(s, first, aid)
    requires EndLeftAlone(acts, aid)
    ensures ClockOf(Exec(Apply(s, first), acts).db.market, aid).endTime > first.now + 300_000
  {
    hide Apply, Inv, Lands, DbInv;
    StepInvAfter(s, first);
    ClockStep(s, first, aid);
    LandsBefore(s, first, aid);
    EndBounded(Apply(s, first), acts, aid);
  }

  lemma StepInvAfter(s: Sys, a: Action)
    requires Inv(s)
    ensures Inv(Apply(s, a))
  {
    hide Apply, Inv;
    ApplyGood(s, a);
  }

  lemma LandsBefore(s: Sys, a: Action, aid: AuctionId)
    requires Inv(s) && Lands(s, a, aid)
    ensures a.now < s.db.market.auctions[aid].endTime
  {
    hide Apply, Inv, Bids;
    BidWrites(s, a, aid);
  }

  /** Two extensions by bids, with no edit of the end and no reopening in between, lie more than five minutes
      minus ten seconds apart. */
  lemma ExtensionsApart(s: Sys, first: Action, acts: seq<Action>, second: Action, aid: AuctionId)
    requires Inv(s) && aid in s.db.market.auctions
    requires var s1 := Apply(s, first); var s2 := Exec(s1, acts);
      && aid in s1.db.market.auctions && aid in s2.db.market.auctions && aid in Apply(s2, second).db.market.auctions
      && Extends(s, first, aid) && Extends(s2, second, aid)
    requires EndLeftAlone(acts, aid)
    ensures second.now - first.now > 290_000
  {
    EndAfterExtension(s, first, acts, aid);
  }

  // ---------------------------------------------------------------- who ends an auction, and when

  lemma CloseEnds(s: Sys, t: AuctionId, options: LockOptions, now: Millis, aid: AuctionId)
    requires options.statusOpen && IsOpen(s.db.market, aid) && IsClosed(CloseBy(s, t, options, now).db.market, aid)
    ensures t == aid && Locks(s.db.market, aid, options)
  {
    hide CloseResultOf, CloseRowOk;
    CloseOutcome(s.db, t, options, now);
  }

  lemma PlainEnds(s: Sys, a: Action, aid: AuctionId)
    requires Inv(s) && Plain(a) && IsOpen(s.db.market, aid) && IsClosed(Apply(s, a).db.market, aid)
    ensures a.Buy? && a.aid == aid && a.now < s.db.market.auctions[aid].endTime
  {
    hide RowOk, HasBids, OrderInsertOk, HoldForBid, LiveBids, ActiveOrders, DbInv;
    InvReferences(s);
  }

  lemma WorkEndsNothing(s: Sys, a: Action, aid: AuctionId)
    requires OnTask(a) && a.task in s.tasks && IsOpen(s.db.market, aid)
    ensures !IsClosed(Work(s, a).db.market, aid)
  {
    hide RowOk, IsAuctionWinner, BaselinePrice, ReleaseAll, LiveBids, Payload.ToDbPayload, ReopenRowOk, Pay;
  }

  /** An auction ends by its timer, and then not before its end time; by an administrator, at any time; or by a
      buy-now, and then before its end time.  Nothing else ends it. */
  lemma EndsOnlyBy(s: Sys, a: Action, aid: AuctionId)
    requires Inv(s) && IsOpen(s.db.market, aid) && IsClosed(Apply(s, a).db.market, aid)
    ensures var end := s.db.market.auctions[aid].endTime;
      || (a.TimedClose? && a.aid == aid && end <= a.now)
      || (a.AdminClose? && a.aid == aid)
      || (a.Buy? && a.aid == aid && a.now < end)
  {
    hide Inv, CloseBy, Work;
    if Plain(a) {
      PlainEnds(s, a, aid);
    } else if OnTask(a) {
      if a.task in s.tasks {
        WorkEndsNothing(s, a, aid);
      }
    } else if a.TimedClose? {
      CloseEnds(s, a.aid, OpenUntil(a.now), a.now, aid);
      LocksAre(s.db.market, aid, a.now);
    } else if a.AdminClose? {
      CloseEnds(s, a.aid, OpenAny(), a.now, aid);
    }
  }
}
