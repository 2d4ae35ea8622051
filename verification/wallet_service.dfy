/** The wallet service: the five moves as statements on the tables, each proved against its function. */
module WalletServices {
  import opened Schema
  import opened WalletMoves
  import opened Storage

  class WalletService {
    const db: Database

    constructor (db: Database)
      ensures this.db == db
    {
      this.db := db;
    }

    method HoldForBid(user: UserId, amount: int, bid: BidId) returns (held: bool)
      modifies db`balance, db`ledger
      ensures held == WalletMoves.HoldForBid(old(db.View()).wallet, user, amount, bid).Some?
      ensures db.View().wallet == if held then WalletMoves.HoldForBid(old(db.View()).wallet, user, amount, bid).value
                                  else old(db.View()).wallet
    {
      var funds := db.FindBalance(user);
      if funds.None? || funds.value < amount {
        return false;
      }
      db.Decrement(user, amount);
      db.CreateWalletTransaction(Entry(user, -amount, BID_HOLD, bid));
      held := true;
    }

    method ReleaseBidHold(user: UserId, amount: int, bid: BidId)
      modifies db`balance, db`ledger
      ensures db.View().wallet == WalletMoves.ReleaseBidHold(old(db.View()).wallet, user, amount, bid)
    {
      var releases := db.CountBidReleases(bid);
      if releases > 0 {
        return;
      }
      db.Increment(user, amount);
      db.CreateWalletTransaction(Entry(user, amount, BID_RELEASE, bid));
    }

    method Pay(user: UserId, amount: int, order: OrderId) returns (paid: bool)
      modifies db`balance, db`ledger
      ensures paid == WalletMoves.Pay(old(db.View()).wallet, user, amount, order).Some?
      ensures db.View().wallet == if paid then WalletMoves.Pay(old(db.View()).wallet, user, amount, order).value
                                  else old(db.View()).wallet
    {
      var funds := db.FindBalance(user);
      if funds.None? || funds.value < amount {
        return false;
      }
      db.Decrement(user, amount);
      db.CreateWalletTransaction(Entry(user, -amount, PAYMENT, order));
      paid := true;
    }

    method SettleSeller(seller: UserId, amount: int, order: OrderId)
      modifies db`balance, db`ledger
      ensures db.View().wallet == WalletMoves.SettleSeller(old(db.View()).wallet, seller, amount, order)
    {
      db.Increment(seller, amount);
      db.CreateWalletTransaction(Entry(seller, amount, ADJUSTMENT, order));
    }

    method ConvertHoldToPayment(user: UserId, amount: int, order: OrderId)
      modifies db`ledger
      ensures db.View().wallet == WalletMoves.ConvertHoldToPayment(old(db.View()).wallet, user, amount, order)
    {
      db.CreateWalletTransaction(Entry(user, -amount, PAYMENT, order));
    }
  }
}
