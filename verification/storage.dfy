/** The database as the services drive it: tables that statements update in place, and transactions that keep
    or undo what their statements did. */
module Storage {
  import opened Schema
  import opened WalletMoves
  import opened Transactions
  import opened Statements

  class Database {
    const uniqueOrder: bool
    var auctions: map<AuctionId, Auction>
    var bids: seq<Bid>
    var orders: map<OrderId, Order>
    var nextAuction: AuctionId
    var nextOrder: OrderId
    var balance: seq<int>
    var ledger: seq<Entry>

    /** What ROLLBACK goes back to, inside a transaction. */
    var saved: Option<Db>
    /** The auction rows this transaction has locked. */
    var locked: set<AuctionId>

    function View(): Db
      reads this
    {
      Db(Market(auctions, bids, orders, nextAuction, nextOrder, uniqueOrder), Wallet(balance, ledger))
    }

    /** Outside a transaction. */
    predicate Quiet()
      reads this
    {
      saved.None? && locked == {}
    }

    constructor (opening: seq<int>, uniqueOrder: bool)
      ensures Quiet()
      ensures View() == Db(Market(map[], [], map[], 0, 0, uniqueOrder), Wallet(opening, []))
    {
      this.uniqueOrder := uniqueOrder;
      auctions, bids, orders, nextAuction, nextOrder := map[], [], map[], 0, 0;
      balance, ledger := opening, [];
      saved, locked := None, {};
    }

    // -------------------------------------------------------------- BEGIN, COMMIT, ROLLBACK

    method Begin()
      requires Quiet()
      modifies `saved
      ensures saved == Some(View())
    {
      saved := Some(View());
    }

    method Commit()
      requires saved.Some?
      modifies `saved, `locked
      ensures Quiet()
    {
      saved, locked := None, {};
    }

    method Rollback()
      requires saved.Some? && saved.value.market.uniqueOrder == uniqueOrder
      modifies this
      ensures Quiet() && View() == old(saved.value)
    {
      var m, w := saved.value.market, saved.value.wallet;
      auctions, bids, orders, nextAuction, nextOrder := m.auctions, m.bids, m.orders, m.nextAuction, m.nextOrder;
      balance, ledger := w.balance, w.ledger;
      saved, locked := None, {};
    }

    // -------------------------------------------------------------- users and the ledger

    method FindBalance(user: UserId) returns (r: Option<int>)
      ensures r == if user < |balance| then Some(balance[user]) else None
    {
      r := if user < |balance| then Some(balance[user]) else None;
    }

    method Increment(user: UserId, amount: int)
      modifies `balance
      ensures balance == Credit(old(balance), user, amount)
    {
      if user < |balance| {
        balance := balance[user := balance[user] + amount];
      }
    }

    method Decrement(user: UserId, amount: int)
      modifies `balance
      ensures balance == Credit(old(balance), user, -amount)
    {
      if user < |balance| {
        balance := balance[user := balance[user] - amount];
      }
    }

    method CreateWalletTransaction(e: Entry)
      modifies `ledger
      ensures ledger == old(ledger) + [e]
    {
      ledger := ledger + [e];
    }

    method CountBidReleases(bid: BidId) returns (n: nat)
      ensures n == Releases(ledger, bid)
    {
      n := 0;
      for k := 0 to |ledger|
        invariant n == Releases(ledger[..k], bid)
      {
        assert ledger[..k + 1][..k] == ledger[..k];
        if ledger[k].kind == BID_RELEASE && ledger[k].refId == bid {
          n := n + 1;
        }
      }
      assert ledger[..|ledger|] == ledger;
    }

    // -------------------------------------------------------------- auctions

    /** The branches of `lockAuctionForUpdate`: which WHERE clause goes with FOR UPDATE. */
    method LockAuctionForUpdate(aid: AuctionId, statusOpen: bool, endTimeLte: Option<Millis>, endTimeGt: Option<Millis>)
      returns (r: Result<bool>)
      modifies `locked
      ensures endTimeLte.Some? && endTimeGt.Some? ==> r == Err(LockOptionsClash) && locked == old(locked)
      ensures !(endTimeLte.Some? && endTimeGt.Some?) ==>
        && r == Ok(Locks(View().market, aid, LockOptions(statusOpen, endTimeLte, endTimeGt)))
        && locked == old(locked) + if r.value then {aid} else {}
    {
      if endTimeLte.Some? && endTimeGt.Some? {
        return Err(LockOptionsClash);
      }
      var found := false;
      if aid in auctions {
        var row := auctions[aid];
        if statusOpen && endTimeLte.Some? {
          found := row.status == OPEN && row.endTime <= endTimeLte.value;
        } else if statusOpen && endTimeGt.Some? {
          found := row.status == OPEN && row.endTime > endTimeGt.value;
        } else if statusOpen {
          found := row.status == OPEN;
        } else {
          found := true;
        }
      }
      if found {
        locked := locked + {aid};
      }
      r := Ok(found);
    }

    /** `findUnique` with its bids: the row, and the live bids by price downwards. */
    method FindAuction(aid: AuctionId) returns (row: Option<Auction>, live: seq<BidId>)
      ensures row == if aid in auctions then Some(auctions[aid]) else None
      ensures live == LiveBids(bids, aid)
    {
      row := if aid in auctions then Some(auctions[aid]) else None;
      live := LiveBids(bids, aid);
    }

    method CreateAuction(row: Auction) returns (id: Option<AuctionId>)
      modifies `auctions, `nextAuction
      ensures id == if RowOk(row) then Some(old(nextAuction)) else None
      ensures id.Some? ==> auctions == old(auctions)[id.value := row] && nextAuction == id.value + 1
      ensures id.None? ==> auctions == old(auctions) && nextAuction == old(nextAuction)
    {
      if !RowOk(row) {
        return None;
      }
      id := Some(nextAuction);
      auctions := auctions[nextAuction := row];
      nextAuction := nextAuction + 1;
    }

    /** False if a CHECK constraint refuses the new row; a missing row is no error. */
    method UpdateAuction(aid: AuctionId, c: Columns) returns (ok: bool)
      modifies `auctions
      ensures ok == (aid in old(auctions) ==> RowOk(SetColumns(old(auctions)[aid], c)))
      ensures auctions == if ok && aid in old(auctions)
                          then old(auctions)[aid := SetColumns(old(auctions)[aid], c)] else old(auctions)
    {
      if aid !in auctions {
        return true;
      }
      var row := SetColumns(auctions[aid], c);
      if !RowOk(row) {
        return false;
      }
      auctions := auctions[aid := row];
      ok := true;
    }

    method DeleteAuction(aid: AuctionId)
      modifies `auctions
      ensures auctions == old(auctions) - {aid}
    {
      auctions := auctions - {aid};
    }

    // -------------------------------------------------------------- bids

    /** None if the foreign key on the user or the CHECK on the price refuses the row. */
    method CreateBid(b: Bid) returns (id: Option<BidId>)
      modifies `bids
      ensures id == if BidInsertOk(View().wallet, b.userId, b.bidPrice) then Some(|old(bids)|) else None
      ensures bids == if id.Some? then old(bids) + [b] else old(bids)
    {
      if b.userId >= |balance| || b.bidPrice <= 0 {
        return None;
      }
      id := Some(|bids|);
      bids := bids + [b];
    }

    method DisqualifyBid(id: BidId, now: Millis)
      modifies `bids
      ensures bids == if id < |old(bids)| then old(bids)[id := old(bids)[id].(disqualifiedAt := Some(now))] else old(bids)
    {
      if id < |bids| {
        bids := bids[id := bids[id].(disqualifiedAt := Some(now))];
      }
    }

    method CountBids(aid: AuctionId) returns (n: nat)
      ensures n > 0 <==> HasBids(bids, aid)
    {
      n := 0;
      for k := 0 to |bids|
        invariant n > 0 <==> exists i :: 0 <= i < k && bids[i].auctionId == aid
      {
        if bids[k].auctionId == aid {
          n := n + 1;
        }
      }
    }

    // -------------------------------------------------------------- orders

    /** None if the unique index on the auction refuses the row. */
    method CreateOrder(o: Order) returns (id: Option<OrderId>)
      modifies `orders, `nextOrder
      ensures id == if OrderInsertOk(old(View()).market, o.auctionId) then Some(old(nextOrder)) else None
      ensures id.Some? ==> orders == old(orders)[id.value := o] && nextOrder == id.value + 1
      ensures id.None? ==> orders == old(orders) && nextOrder == old(nextOrder)
    {
      if !OrderInsertOk(View().market, o.auctionId) {
        return None;
      }
      id := Some(nextOrder);
      orders := orders[nextOrder := o];
      nextOrder := nextOrder + 1;
    }

    /** `updateMany` with id and status in the WHERE clause: a compare-and-set. */
    method UpdateOrderWhere(id: OrderId, was: OrderStatus, status: OrderStatus) returns (count: nat)
      modifies `orders
      ensures count == if id in old(orders) && old(orders)[id].status == was then 1 else 0
      ensures orders == if count == 1 then old(orders)[id := old(orders)[id].(status := status)] else old(orders)
    {
      if id !in orders || orders[id].status != was {
        return 0;
      }
      orders := orders[id := orders[id].(status := status)];
      count := 1;
    }

    method CountBlockingOrders(aid: AuctionId) returns (n: nat)
      ensures n == |ActiveOrders(View().market, aid)| && (n > 0 <==> ActiveOrders(View().market, aid) != {})
    {
      n := |ActiveOrders(View().market, aid)|;
    }

    method DeleteOrders(aid: AuctionId)
      modifies `orders
      ensures orders == map o | o in old(orders) && old(orders)[o].auctionId != aid :: old(orders)[o]
    {
      orders := map o | o in orders && orders[o].auctionId != aid :: orders[o];
    }

    // -------------------------------------------------------------- history

    /** Not a statement of the service: marks the bid whose hold became the payment. */
    method MarkConvertedBid(aid: AuctionId)
      modifies `bids
      ensures bids == MarkConverted(old(bids), aid)
    {
      bids := MarkConverted(bids, aid);
    }
  }
}
