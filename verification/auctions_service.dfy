/** The auction service's transactions as statements between BEGIN and COMMIT or ROLLBACK, each proved against
    its function of the database. */
module AuctionServices {
  import opened Schema
  import opened WalletMoves
  import opened Transactions
  import opened Statements
  import opened Storage
  import opened WalletServices

  class AuctionsService {
    const db: Database
    const wallet: WalletService

    constructor (wallet: WalletService)
      ensures this.wallet == wallet && db == wallet.db
    {
      this.wallet := wallet;
      this.db := wallet.db;
    }

    /** An exception inside a transaction. */
    method Throw<T>(e: Error) returns (r: Result<T>)
      requires db.saved.Some? && db.saved.value.market.uniqueOrder == db.uniqueOrder
      modifies db
      ensures db.Quiet() && db.View() == old(db.saved.value) && r == Err(e)
    {
      db.Rollback();
      r := Err(e);
    }

    /** The lock and the guards of `placeBid`, in its order: the error of the first one that fails. */
    method BidRefusal(aid: AuctionId, user: UserId, price: int, now: Millis) returns (e: Option<Error>)
      modifies db`locked
      ensures e == BidError(db.View().market, aid, user, price, now)
    {
      var lock := db.LockAuctionForUpdate(aid, true, None, Some(now));
      if lock != Ok(true) {
        return Some(NotFound);
      }
      var row, live := db.FindAuction(aid);
      if row.None? {
        return Some(NotFound);
      }
      if row.value.sellerUserId == user {
        return Some(BadRequest);
      }
      if live != [] && db.bids[live[0]].userId == user {
        return Some(BadRequest);
      }
      if row.value.status != OPEN || row.value.endTime <= now {
        return Some(BadRequest);
      }
      if price < row.value.currentPrice + row.value.minimumIncrement {
        return Some(BadRequest);
      }
      e := None;
    }

    method PlaceBid(aid: AuctionId, user: UserId, price: int, now: Millis) returns (r: Result<BidId>)
      requires db.Quiet() && wallet.db == db
      modifies db
      ensures db.Quiet() && Tx(db.View(), r) == Transactions.PlaceBid(old(db.View()), aid, user, price, now)
    {
      db.Begin();
      var refusal := BidRefusal(aid, user, price, now);
      if refusal.Some? {
        r := Throw(refusal.value);
        return;
      }
      var row := db.auctions[aid];
      var bid := db.CreateBid(NewBid(aid, user, price));
      if bid.None? {
        r := Throw(ConstraintViolation);
        return;
      }
      var held := wallet.HoldForBid(user, price, bid.value);
      if !held {
        r := Throw(BadRequest);
        return;
      }
      BidColumnsUpdate(row, now, price);
      var ok := db.UpdateAuction(aid, BidColumnsOf(row, now, price));
      if !ok {
        r := Throw(ConstraintViolation);
        return;
      }
      db.Commit();
      r := Ok(bid.value);
    }

    /** The guards of the bot path are those of `placeBid` in another order, and all end alike. */
    method PlaceBidAsBot(aid: AuctionId, bot: UserId, price: int, now: Millis) returns (r: Result<Option<BidId>>)
      requires db.Quiet() && wallet.db == db
      modifies db
      ensures db.Quiet() && Tx(db.View(), r) == Transactions.PlaceBidAsBot(old(db.View()), aid, bot, price, now)
    {
      db.Begin();
      var refusal := BidRefusal(aid, bot, price, now);
      if refusal.Some? {
        db.Commit();
        return Ok(None);
      }
      var row := db.auctions[aid];
      var bid := db.CreateBid(NewBid(aid, bot, price));
      if bid.None? {
        r := Throw(ConstraintViolation);
        return;
      }
      var held := wallet.HoldForBid(bot, price, bid.value);
      if !held {
        db.Commit();
        return Ok(None);
      }
      BidColumnsUpdate(row, now, price);
      var ok := db.UpdateAuction(aid, BidColumnsOf(row, now, price));
      if !ok {
        r := Throw(ConstraintViolation);
        return;
      }
      db.Commit();
      r := Ok(bid);
    }

    /** Whether brand and size are among the allowed ones, and whether the end time is a date, are inputs; the
        sneaker row is not modelled. */
    method CreateAuction(brandAllowed: bool, sizeAllowed: bool, validDate: bool, a: NewAuction, seller: UserId,
                         now: Millis)
      returns (r: Result<AuctionId>)
      requires db.Quiet()
      modifies db
      ensures db.Quiet()
      ensures if brandAllowed && sizeAllowed && validDate
              then Tx(db.View(), r) == Transactions.CreateAuction(old(db.View()), a, seller, now)
              else db.View() == old(db.View()) && r == Err(BadRequest)
    {
      if !brandAllowed {
        return Err(BadRequest);
      }
      if !sizeAllowed {
        return Err(BadRequest);
      }
      if a.buyNowPrice.Some? && a.buyNowPrice.value < a.startPrice {
        return Err(BadRequest);
      }
      if !validDate || a.endTime <= now {
        return Err(BadRequest);
      }
      db.Begin();
      var user := db.FindBalance(seller);
      if user.None? {
        r := Throw(BadRequest);
        return;
      }
      var id := db.CreateAuction(FreshRow(a, seller));
      if id.None? {
        r := Throw(ConstraintViolation);
        return;
      }
      db.Commit();
      r := Ok(id.value);
    }

    /** The transaction of `patchAuctions`. */
    method PatchAuction(aid: AuctionId, p: Patch, now: Millis) returns (r: Result<()>)
      requires db.Quiet()
      modifies db
      ensures db.Quiet() && Tx(db.View(), r) == Transactions.PatchAuction(old(db.View()), aid, p, now)
    {
      db.Begin();
      var lock := db.LockAuctionForUpdate(aid, true, None, Some(now));
      if lock != Ok(true) {
        r := Throw(BadRequest);
        return;
      }
      var count := db.CountBids(aid);
      if count > 0 && (p.startPrice.Some? || p.buyNowPrice.Some?) {
        r := Throw(BadRequest);
        return;
      }
      var ok := db.UpdateAuction(aid, PatchColumns(p));
      if !ok {
        r := Throw(ConstraintViolation);
        return;
      }
      db.Commit();
      r := Ok(());
    }

    /** The lock and the guards of `deleteAuction`: the error of the first one that fails. */
    method DeleteRefusal(aid: AuctionId, user: UserId, admin: bool) returns (e: Option<Error>)
      modifies db`locked
      ensures var m := db.View().market;
        if e.Some? then
          forall w: Wallet :: Transactions.DeleteAuction(Db(m, w), aid, user, admin) == Tx(Db(m, w), Err(e.value))
        else aid in m.auctions && (admin || m.auctions[aid].sellerUserId == user)
             && !HasBids(m.bids, aid) && ActiveOrders(m, aid) == {}
    {
      var lock := db.LockAuctionForUpdate(aid, false, None, None);
      if lock != Ok(true) {
        return Some(NotFound);
      }
      if !admin && db.auctions[aid].sellerUserId != user {
        return Some(Forbidden);
      }
      var bidCount := db.CountBids(aid);
      if bidCount > 0 {
        return Some(BadRequest);
      }
      var activeOrders := db.CountBlockingOrders(aid);
      if activeOrders > 0 {
        return Some(BadRequest);
      }
      e := None;
    }

    method DeleteAuction(aid: AuctionId, user: UserId, admin: bool) returns (r: Result<()>)
      requires db.Quiet()
      modifies db
      ensures db.Quiet() && Tx(db.View(), r) == Transactions.DeleteAuction(old(db.View()), aid, user, admin)
    {
      db.Begin();
      var refusal := DeleteRefusal(aid, user, admin);
      if refusal.Some? {
        r := Throw(refusal.value);
        return;
      }
      db.DeleteOrders(aid);
      db.DeleteAuction(aid);
      db.Commit();
      r := Ok(());
    }
  }
}
