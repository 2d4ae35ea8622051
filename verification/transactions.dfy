/** Every transaction of the auction and order services as a function of the database: what it leaves behind
    and what it returns.  An `Err` is a thrown exception, so the database is the one it started from. */
module Transactions {
  import opened Schema
  import opened WalletMoves
  import Payload

  const SOFT_CLOSE_EXTEND_THRESHOLD_SEC := 10
  const SOFT_CLOSE_EXTEND_BY_MINUTES := 5
  const SOFT_CLOSE_MAX_EXTEND_COUNT := 3
  const REOPEN_AUCTION_DURATION_HOURS := 1

  const THRESHOLD_MS: Millis := SOFT_CLOSE_EXTEND_THRESHOLD_SEC * 1000
  const EXTENSION_MS: Millis := SOFT_CLOSE_EXTEND_BY_MINUTES * 60 * 1000
  const REOPEN_MS: Millis := REOPEN_AUCTION_DURATION_HOURS * 3600 * 1000

  datatype Result<+T> = Ok(value: T) | Err(error: Error)

  /** The database after BEGIN ... COMMIT or ROLLBACK, and what the transaction function returned or threw. */
  datatype Tx<+T> = Tx(db: Db, result: Result<T>)

  // ---------------------------------------------------------------- the row lock

  datatype LockOptions = LockOptions(statusOpen: bool, endTimeLte: Option<Millis>, endTimeGt: Option<Millis>)

  /** Which WHERE clause `lockAuctionForUpdate` picks; without the status the time bounds are ignored. */
  predicate LockGuard(row: Auction, options: LockOptions) {
    if options.statusOpen && options.endTimeLte.Some? then
      row.status == OPEN && row.endTime <= options.endTimeLte.value
    else if options.statusOpen && options.endTimeGt.Some? then
      row.status == OPEN && row.endTime > options.endTimeGt.value
    else options.statusOpen ==> row.status == OPEN
  }

  predicate Locks(m: Market, aid: AuctionId, options: LockOptions) {
    aid in m.auctions && LockGuard(m.auctions[aid], options)
  }

  function OpenAfter(now: Millis): LockOptions { LockOptions(true, None, Some(now)) }
  function OpenUntil(deadline: Millis): LockOptions { LockOptions(true, Some(deadline), None) }
  function OpenAny(): LockOptions { LockOptions(true, None, None) }
  function AnyRow(): LockOptions { LockOptions(false, None, None) }

  // ---------------------------------------------------------------- bidding

  function BidUpdate(row: Auction, now: Millis, bidPrice: int): Auction {
    if row.endTime - now <= THRESHOLD_MS && row.extendCount < SOFT_CLOSE_MAX_EXTEND_COUNT then
      row.(currentPrice := bidPrice, endTime := row.endTime + EXTENSION_MS,
           lastExtendedAt := Some(now), extendCount := row.extendCount + 1)
    else row.(currentPrice := bidPrice)
  }

  function Leader(bids: seq<Bid>, aid: AuctionId): Option<UserId> {
    var live := LiveBids(bids, aid);
    if live == [] then None else Some(bids[live[0]].userId)
  }

  /** The first guard of `placeBid` that a bid fails, in the order of the code. */
  function BidError(m: Market, aid: AuctionId, user: UserId, price: int, now: Millis): Option<Error> {
    if !Locks(m, aid, OpenAfter(now)) then Some(NotFound)
    else
      var row := m.auctions[aid];
      if row.sellerUserId == user then Some(BadRequest)
      else if Leader(m.bids, aid) == Some(user) then Some(BadRequest)
      else if price < row.currentPrice + row.minimumIncrement then Some(BadRequest)
      else None
  }

  function NewBid(aid: AuctionId, user: UserId, price: int): Bid {
    Bid(aid, user, price, None, false)
  }

  function WithBid(m: Market, b: Bid): Market { m.(bids := m.bids + [b]) }

  function BidMarket(m: Market, aid: AuctionId, user: UserId, price: int, now: Millis): Market
    requires aid in m.auctions
  {
    WithAuction(WithBid(m, NewBid(aid, user, price)), aid, BidUpdate(m.auctions[aid], now, price))
  }

  /** The insert's foreign key and CHECK: the bidder exists and the price is positive. */
  predicate BidInsertOk(w: Wallet, user: UserId, price: int) { user < |w.balance| && 0 < price }

  function PlaceBid(db: Db, aid: AuctionId, user: UserId, price: int, now: Millis): Tx<BidId> {
    var m, w := db.market, db.wallet;
    var error := BidError(m, aid, user, price, now);
    if error.Some? then Tx(db, Err(error.value))
    else if !BidInsertOk(w, user, price) then Tx(db, Err(ConstraintViolation))
    else
      var held := HoldForBid(w, user, price, |m.bids|);
      if held.None? then Tx(db, Err(BadRequest))
      else if !RowOk(BidUpdate(m.auctions[aid], now, price)) then Tx(db, Err(ConstraintViolation))
      else Tx(Db(BidMarket(m, aid, user, price, now), held.value), Ok(|m.bids|))
  }

  /** As `placeBid`, but a refusal returns null, and so does a hold that fails after the row was inserted:
      that transaction commits with the row in it. */
  function PlaceBidAsBot(db: Db, aid: AuctionId, bot: UserId, price: int, now: Millis): Tx<Option<BidId>> {
    var m, w := db.market, db.wallet;
    if BidError(m, aid, bot, price, now).Some? then Tx(db, Ok(None))
    else if !BidInsertOk(w, bot, price) then Tx(db, Err(ConstraintViolation))
    else
      var held := HoldForBid(w, bot, price, |m.bids|);
      if held.None? then Tx(Db(WithBid(m, NewBid(aid, bot, price)), w), Ok(None))
      else if !RowOk(BidUpdate(m.auctions[aid], now, price)) then Tx(db, Err(ConstraintViolation))
      else Tx(Db(BidMarket(m, aid, bot, price, now), held.value), Ok(Some(|m.bids|)))
  }

  // ---------------------------------------------------------------- the seller's transactions

  datatype NewAuction = NewAuction(startPrice: int, buyNowPrice: Option<int>, minimumIncrement: int, endTime: Millis)

  function FreshRow(a: NewAuction, seller: UserId): Auction {
    Auction(a.startPrice, a.startPrice, a.buyNowPrice, a.minimumIncrement, OPEN, a.endTime, None, None, None, 0,
            seller, None)
  }

  function CreateAuction(db: Db, a: NewAuction, seller: UserId, now: Millis): Tx<AuctionId> {
    var m := db.market;
    if a.buyNowPrice.Some? && a.buyNowPrice.value < a.startPrice then Tx(db, Err(BadRequest))
    else if a.endTime <= now then Tx(db, Err(BadRequest))
    else if seller >= |db.wallet.balance| then Tx(db, Err(BadRequest))
    else if !RowOk(FreshRow(a, seller)) then Tx(db, Err(ConstraintViolation))
    else
      var id := m.nextAuction;
      Tx(db.(market := m.(auctions := m.auctions[id := FreshRow(a, seller)], nextAuction := id + 1)), Ok(id))
  }

  datatype Patch = Patch(
    startPrice: Option<int>, buyNowPrice: Option<int>, minimumIncrement: Option<int>, endTime: Option<Millis>)

  function Patched(row: Auction, p: Patch): Auction {
    row.(startPrice := if p.startPrice.Some? then p.startPrice.value else row.startPrice,
         currentPrice := if p.startPrice.Some? then p.startPrice.value else row.currentPrice,
         buyNowPrice := if p.buyNowPrice.Some? then p.buyNowPrice else row.buyNowPrice,
         minimumIncrement := if p.minimumIncrement.Some? then p.minimumIncrement.value else row.minimumIncrement,
         endTime := if p.endTime.Some? then p.endTime.value else row.endTime)
  }

  predicate HasBids(bids: seq<Bid>, aid: AuctionId) { exists i :: 0 <= i < |bids| && bids[i].auctionId == aid }

  /** The transaction of `patchAuctions`.  The checks before it read an unlocked row and only refuse more. */
  function PatchAuction(db: Db, aid: AuctionId, p: Patch, now: Millis): Tx<()> {
    var m := db.market;
    if !Locks(m, aid, OpenAfter(now)) then Tx(db, Err(BadRequest))
    else if HasBids(m.bids, aid) && (p.startPrice.Some? || p.buyNowPrice.Some?) then Tx(db, Err(BadRequest))
    else if !RowOk(Patched(m.auctions[aid], p)) then Tx(db, Err(ConstraintViolation))
    else Tx(db.(market := WithAuction(m, aid, Patched(m.auctions[aid], p))), Ok(()))
  }

  function DeleteAuction(db: Db, aid: AuctionId, user: UserId, admin: bool): Tx<()> {
    var m := db.market;
    if aid !in m.auctions then Tx(db, Err(NotFound))
    else if !admin && m.auctions[aid].sellerUserId != user then Tx(db, Err(Forbidden))
    else if HasBids(m.bids, aid) then Tx(db, Err(BadRequest))
    else if ActiveOrders(m, aid) != {} then Tx(db, Err(BadRequest))
    else Tx(db.(market := m.(auctions := m.auctions - {aid},
                             orders := map o | o in m.orders && m.orders[o].auctionId != aid :: m.orders[o])), Ok(()))
  }

  // ---------------------------------------------------------------- closing and buying

  /** The orders of an auction that are pending or paid. */
  function ActiveOrders(m: Market, aid: AuctionId): set<OrderId> {
    set o | o in m.orders && m.orders[o].auctionId == aid && m.orders[o].status != CANCELLED
  }

  function Listed(bids: seq<Bid>, ids: seq<BidId>): seq<LosingBid>
    requires Rows(bids, ids)
  {
    seq(|ids|, k requires 0 <= k < |ids| => LosingBid(bids[ids[k]].userId, bids[ids[k]].bidPrice, ids[k]))
  }

  /** The listed bids of everybody but the winner, in their order. */
  function LosingIds(bids: seq<Bid>, ids: seq<BidId>, winner: Option<UserId>): (r: seq<BidId>)
    requires Rows(bids, ids)
    ensures Rows(bids, r)
    ensures forall i: BidId :: i in r <==> i in ids && i < |bids| && Some(bids[i].userId) != winner
  {
    if ids == [] then []
    else
      var n := |ids| - 1;
      assert ids == ids[..n] + [ids[n]];
      LosingIds(bids, ids[..n], winner) + if Some(bids[ids[n]].userId) != winner then [ids[n]] else []
  }

  function CloseResultOf(m: Market, aid: AuctionId): CloseResult
    requires aid in m.auctions
  {
    var live := LiveBids(m.bids, aid);
    CloseResult(
      aid,
      Leader(m.bids, aid),
      if live == [] then m.auctions[aid].currentPrice else m.bids[live[0]].bidPrice,
      Listed(m.bids, LosingIds(m.bids, live, Leader(m.bids, aid))))
  }

  /** The row of a closed auction: `closedAt`, winner and price set, no payload left. */
  function ClosedRow(row: Auction, winner: Option<UserId>, price: int, now: Millis): Auction {
    row.(status := CLOSED, closedAt := Some(now), winnerUserId := winner, currentPrice := price,
         postCloseFinalizePayload := None)
  }

  function WithOrder(m: Market, o: Order): Market {
    m.(orders := m.orders[m.nextOrder := o], nextOrder := m.nextOrder + 1)
  }

  function ClosedMarket(m: Market, aid: AuctionId, now: Millis): Market
    requires aid in m.auctions
  {
    var r := CloseResultOf(m, aid);
    var m1 := WithAuction(m, aid, ClosedRow(m.auctions[aid], r.winnerUserId, r.finalPrice, now));
    var m2 := if r.winnerUserId.Some? then WithOrder(m1, Order(aid, r.winnerUserId.value, r.finalPrice, PENDING))
              else m1;
    m2.(bids := Disqualify(m.bids, LosingIds(m.bids, LiveBids(m.bids, aid), r.winnerUserId), now))
  }

  /** The CHECK constraints that the closed row has to meet. */
  predicate CloseRowOk(m: Market, aid: AuctionId, now: Millis)
    requires aid in m.auctions
  {
    var r := CloseResultOf(m, aid);
    RowOk(ClosedRow(m.auctions[aid], r.winnerUserId, r.finalPrice, now))
  }

  /** `executeCloseInTransaction`, shared by the timed and the admin close. */
  function ExecuteClose(db: Db, aid: AuctionId, options: LockOptions, now: Millis): Tx<Option<CloseResult>> {
    var m := db.market;
    if !Locks(m, aid, options) then Tx(db, Ok(None))
    else
      var r := CloseResultOf(m, aid);
      if !CloseRowOk(m, aid, now) then Tx(db, Err(ConstraintViolation))
      else if r.winnerUserId.Some? && !OrderInsertOk(m, aid) then Tx(db, Err(ConstraintViolation))
      else Tx(db.(market := ClosedMarket(m, aid, now)), Ok(Some(r)))
  }

  function BoughtMarket(m: Market, aid: AuctionId, user: UserId, price: int, now: Millis): Market
    requires aid in m.auctions
  {
    WithOrder(WithAuction(m, aid, ClosedRow(m.auctions[aid], Some(user), price, now)), Order(aid, user, price, PENDING))
  }

  /** The transaction of `buyNow`; `price` is the buy-now price read before the lock. */
  function BuyNow(db: Db, aid: AuctionId, user: UserId, price: int, now: Millis): Tx<OrderId> {
    var m := db.market;
    if !Locks(m, aid, OpenAfter(now)) then Tx(db, Err(BadRequest))
    else if !RowOk(ClosedRow(m.auctions[aid], Some(user), price, now)) || user >= |db.wallet.balance| then
      Tx(db, Err(ConstraintViolation))
    else if !OrderInsertOk(m, aid) then Tx(db, Err(ConstraintViolation))
    else Tx(db.(market := BoughtMarket(m, aid, user, price, now)), Ok(m.nextOrder))
  }

  /** `buyNow` from its reads on: `seen` is the auction and `funds` the balance it read before its transaction. */
  function BuyNowRequest(db: Db, aid: AuctionId, user: UserId, seen: Option<Auction>, funds: Option<int>, now: Millis)
    : Tx<OrderId>
  {
    if seen.None? then Tx(db, Err(NotFound))
    else if seen.value.status != OPEN || seen.value.endTime <= now then Tx(db, Err(BadRequest))
    else if seen.value.buyNowPrice.None? || seen.value.buyNowPrice.value == 0 then Tx(db, Err(BadRequest))
    else if funds.None? || funds.value < seen.value.buyNowPrice.value then Tx(db, Err(BadRequest))
    else BuyNow(db, aid, user, seen.value.buyNowPrice.value, now)
  }

  /** The order a buy-now on `aid` creates next, joined with its seller. */
  function BoughtOrder(m: Market, aid: AuctionId, user: UserId, price: int): OrderRef
    requires aid in m.auctions
  {
    OrderRef(m.nextOrder, aid, user, price, m.auctions[aid].sellerUserId)
  }

  // ---------------------------------------------------------------- after the close

  function SetPayload(m: Market, aid: AuctionId, payload: Option<Json>): Market {
    if aid in m.auctions then WithAuction(m, aid, m.auctions[aid].(postCloseFinalizePayload := payload)) else m
  }

  function ReleaseLosers(db: Db, r: CloseResult): Db { db.(wallet := ReleaseAll(db.wallet, r.losingBids)) }

  /** What can go wrong in `finalizeAuctionClose`: the read before it, its release transaction at some loser (or
      at its commit), or the clearing of the payload. */
  datatype Fault = NoFault | HistoryFails | ReleaseFails(at: nat) | ClearFails

  /** Finalize throws before it released anybody; a failing clear is only logged. */
  predicate FinalizeFails(r: CloseResult, fault: Fault) {
    fault.HistoryFails? || (fault.ReleaseFails? && r.losingBids != [])
  }

  function Finalized(db: Db, r: CloseResult, fault: Fault): Db {
    if FinalizeFails(r, fault) then db
    else
      var released := ReleaseLosers(db, r);
      if fault.ClearFails? then released
      else released.(market := SetPayload(db.market, r.auctionId, None))
  }

  function Persisted(db: Db, r: CloseResult): Db {
    db.(market := SetPayload(db.market, r.auctionId, Some(Payload.ToDbPayload(r))))
  }

  /** `safeFinalizeAuctionClose`: a finalize that throws leaves a payload for the retry job, if that can be
      written. */
  function SafelyFinalized(db: Db, r: CloseResult, fault: Fault, persistFails: bool): Db {
    if !FinalizeFails(r, fault) then Finalized(db, r, fault)
    else if persistFails then db
    else Persisted(db, r)
  }

  // ---------------------------------------------------------------- paying and reopening

  /** There is a highest live bid, it is the buyer's, and its price is the order's. */
  predicate IsAuctionWinner(bids: seq<Bid>, o: OrderRef) {
    var live := LiveBids(bids, o.auctionId);
    live != [] && bids[live[0]].userId == o.buyerUserId && bids[live[0]].bidPrice == o.finalPrice
  }

  predicate Pending(m: Market, o: OrderId) { o in m.orders && m.orders[o].status == PENDING }

  function WithStatus(m: Market, o: OrderId, status: OrderStatus): Market
    requires o in m.orders
  {
    m.(orders := m.orders[o := m.orders[o].(status := status)])
  }

  /** History only: the highest live bid is the one whose hold became the payment. */
  function MarkConverted(bids: seq<Bid>, aid: AuctionId): seq<Bid> {
    var live := LiveBids(bids, aid);
    if live == [] then bids else Converted(bids, live[0])
  }

  function PaidMarket(m: Market, o: OrderRef, isAuctionWinner: bool, now: Millis): Market
    requires o.id in m.orders
  {
    WithStatus(m, o.id, PAID).(bids :=
      if isAuctionWinner then MarkConverted(m.bids, o.auctionId)
      else Disqualify(m.bids, LiveBids(m.bids, o.auctionId), now))
  }

  /** The transaction of `payOrder`, with the decision taken outside it. */
  function PayOrder(db: Db, o: OrderRef, isAuctionWinner: bool, now: Millis): Tx<()> {
    var m, w := db.market, db.wallet;
    if !Pending(m, o.id) then Tx(db, Err(Conflict))
    else
      var m' := PaidMarket(m, o, isAuctionWinner, now);
      if isAuctionWinner then
        Tx(Db(m', SettleSeller(ConvertHoldToPayment(w, o.buyerUserId, o.finalPrice, o.id),
                               o.sellerUserId, o.finalPrice, o.id)), Ok(()))
      else
        var paid := Pay(w, o.buyerUserId, o.finalPrice, o.id);
        if paid.None? then Tx(db, Err(BadRequest))
        else
          var released := ReleaseAll(paid.value, Listed(m.bids, LiveBids(m.bids, o.auctionId)));
          Tx(Db(m', SettleSeller(released, o.sellerUserId, o.finalPrice, o.id)), Ok(()))
  }

  function ReopenedRow(row: Auction, price: int, now: Millis): Auction {
    row.(status := OPEN, winnerUserId := None, closedAt := None, endTime := now + REOPEN_MS, currentPrice := price,
         postCloseFinalizePayload := None)
  }

  function BaselinePrice(bids: seq<Bid>, o: OrderRef, startPrice: int): int {
    var live := LiveBids(bids, o.auctionId);
    if IsAuctionWinner(bids, o) then (if |live| > 1 then bids[live[1]].bidPrice else startPrice)
    else (if |live| > 0 then bids[live[0]].bidPrice else startPrice)
  }

  predicate Reopens(m: Market, o: OrderRef) {
    o.auctionId in m.auctions && m.auctions[o.auctionId].status == CLOSED && Pending(m, o.id)
  }

  function ReopenedMarket(m: Market, o: OrderRef, now: Millis): Market
    requires Reopens(m, o)
  {
    var row := m.auctions[o.auctionId];
    WithAuction(WithStatus(m, o.id, CANCELLED), o.auctionId,
                ReopenedRow(row, BaselinePrice(m.bids, o, row.startPrice), now))
    .(bids := if IsAuctionWinner(m.bids, o) then Disqualify(m.bids, [LiveBids(m.bids, o.auctionId)[0]], now)
              else m.bids)
  }

  /** The CHECK constraints that the reopened row has to meet. */
  predicate ReopenRowOk(m: Market, o: OrderRef, now: Millis)
    requires Reopens(m, o)
  {
    var row := m.auctions[o.auctionId];
    RowOk(ReopenedRow(row, BaselinePrice(m.bids, o, row.startPrice), now))
  }

  /** `reopenAuctionForFailedPayment` and one round of `cancelExpiredPendingOrders`: the two transactions
      differ only in the failure reason they write. */
  function ReopenAuction(db: Db, o: OrderRef, now: Millis): Tx<bool> {
    var m := db.market;
    if !Reopens(m, o) then Tx(db, Ok(false))
    else if !ReopenRowOk(m, o, now) then Tx(db, Err(ConstraintViolation))
    else
      var w := if IsAuctionWinner(m.bids, o) then
                 var t := LiveBids(m.bids, o.auctionId)[0];
                 ReleaseBidHold(db.wallet, m.bids[t].userId, m.bids[t].bidPrice, t)
               else db.wallet;
      Tx(Db(ReopenedMarket(m, o, now), w), Ok(true))
  }

  function TopUp(db: Db, user: UserId, amount: nat): Db {
    db.(wallet := db.wallet.(balance := Credit(db.wallet.balance, user, amount)))
  }
}
