/** The order service: closing, finalizing, buying, paying and reopening as statements and loops on the tables,
    each proved against its function of the database. */
module OrderServices {
  import opened Schema
  import opened WalletMoves
  import opened Transactions
  import opened Statements
  import opened Storage
  import opened WalletServices
  import opened Jobs
  import Service
  import Payload

  /** The CHECK constraints hold of the rows that are there. */
  predicate RowsOk(m: Market) { forall a :: a in m.auctions ==> RowOk(m.auctions[a]) }

  /** The tables after a close that names `r` and disqualifies `losers`. */
  function ClosedTables(m: Market, aid: AuctionId, r: CloseResult, losers: seq<BidId>, now: Millis): Market
    requires aid in m.auctions && Rows(m.bids, losers)
  {
    m.(auctions := m.auctions[aid := ClosedRow(m.auctions[aid], r.winnerUserId, r.finalPrice, now)],
       orders := if r.winnerUserId.Some?
                 then m.orders[m.nextOrder := Order(aid, r.winnerUserId.value, r.finalPrice, PENDING)] else m.orders,
       nextOrder := if r.winnerUserId.Some? then m.nextOrder + 1 else m.nextOrder,
       bids := Disqualify(m.bids, losers, now))
  }

  lemma ClosedIsTables(m: Market, aid: AuctionId, now: Millis)
    requires aid in m.auctions
    ensures ClosedMarket(m, aid, now)
      == ClosedTables(m, aid, CloseResultOf(m, aid), LosingIds(m.bids, LiveBids(m.bids, aid), Leader(m.bids, aid)), now)
  {
  }

  lemma CloseByTables(db: Db, aid: AuctionId, options: LockOptions, now: Millis)
    requires Locks(db.market, aid, options)
    ensures var m := db.market;
      var r, losers := CloseResultOf(m, aid), LosingIds(m.bids, LiveBids(m.bids, aid), Leader(m.bids, aid));
      ExecuteClose(db, aid, options, now) ==
      if RowOk(ClosedRow(m.auctions[aid], r.winnerUserId, r.finalPrice, now))
         && (r.winnerUserId.Some? ==> OrderInsertOk(m, aid))
      then Tx(db.(market := ClosedTables(m, aid, r, losers, now)), Ok(Some(r)))
      else Tx(db, Err(ConstraintViolation))
  {
    ClosedIsTables(db.market, aid, now);
  }

  lemma CloseKeepsRowsOk(db: Db, aid: AuctionId, options: LockOptions, now: Millis)
    ensures var tx := ExecuteClose(db, aid, options, now);
      && (tx.result.Err? || tx.result == Ok(None) ==> tx.db == db)
      && (RowsOk(db.market) ==> RowsOk(tx.db.market))
  {
    hide CloseResultOf, OrderInsertOk;
  }

  lemma ReopenedTables(m: Market, o: OrderRef, now: Millis)
    requires Reopens(m, o)
    ensures var row := m.auctions[o.auctionId];
      ReopenedMarket(m, o, now) == m.(
        auctions := m.auctions[o.auctionId := ReopenedRow(row, BaselinePrice(m.bids, o, row.startPrice), now)],
        orders := m.orders[o.id := m.orders[o.id].(status := CANCELLED)],
        bids := if IsAuctionWinner(m.bids, o) then Disqualify(m.bids, [LiveBids(m.bids, o.auctionId)[0]], now)
                else m.bids)
  {
  }

  class OrdersService {
    const db: Database
    const wallet: WalletService

    constructor (wallet: WalletService)
      ensures this.wallet == wallet && db == wallet.db
    {
      this.wallet := wallet;
      this.db := wallet.db;
    }

    predicate InTransaction()
      reads db
    {
      db.saved.Some? && db.saved.value.market.uniqueOrder == db.uniqueOrder
    }

    method Throw<T>(e: Error) returns (r: Result<T>)
      requires InTransaction()
      modifies db
      ensures db.Quiet() && db.View() == old(db.saved.value) && r == Err(e)
    {
      db.Rollback();
      r := Err(e);
    }

    // -------------------------------------------------------------- closing

    /** The loop over the losing bids of a close. */
    method DisqualifyLosers(losers: seq<BidId>, now: Millis)
      requires Rows(db.bids, losers)
      modifies db`bids
      ensures db.bids == Disqualify(old(db.bids), losers, now)
    {
      ghost var before := db.bids;
      for k := 0 to |losers|
        invariant db.bids == Disqualify(before, losers[..k], now)
      {
        DisqualifyNext(before, losers, k, now);
        db.DisqualifyBid(losers[k], now);
      }
      assert losers[..|losers|] == losers;
    }

    /** The writes of a close, in their order; false if a constraint refuses one. */
    method WriteClose(aid: AuctionId, r: CloseResult, losers: seq<BidId>, now: Millis) returns (ok: bool)
      requires aid in db.auctions && Rows(db.bids, losers)
      modifies db`auctions, db`bids, db`orders, db`nextOrder
      ensures var m := old(db.View()).market;
        && ok == (RowOk(ClosedRow(m.auctions[aid], r.winnerUserId, r.finalPrice, now))
                  && (r.winnerUserId.Some? ==> OrderInsertOk(m, aid)))
        && (ok ==> db.View().market == ClosedTables(m, aid, r, losers, now))
    {
      ok := db.UpdateAuction(aid, CloseColumns(now, r.winnerUserId, r.finalPrice));
      if !ok {
        return;
      }
      if r.winnerUserId.Some? {
        var order := db.CreateOrder(Order(aid, r.winnerUserId.value, r.finalPrice, PENDING));
        if order.None? {
          return false;
        }
      }
      DisqualifyLosers(losers, now);
    }

    /** Runs inside the caller's transaction; after an error the caller rolls back. */
    method ExecuteCloseInTransaction(aid: AuctionId, endTimeLte: Option<Millis>, now: Millis)
      returns (r: Result<Option<CloseResult>>)
      modifies db`auctions, db`bids, db`orders, db`nextOrder, db`locked
      ensures var tx := ExecuteClose(old(db.View()), aid, LockOptions(true, endTimeLte, None), now);
        r == tx.result && (r.Ok? ==> db.View() == tx.db)
    {
      var lock := db.LockAuctionForUpdate(aid, true, endTimeLte, None);
      if lock != Ok(true) {
        return Ok(None);
      }
      var row, live := db.FindAuction(aid);
      if row.None? {
        return Ok(None);
      }
      var winner: Option<UserId> := None;
      var finalPrice := row.value.currentPrice;
      if live != [] {
        winner := Some(db.bids[live[0]].userId);
        finalPrice := db.bids[live[0]].bidPrice;
      }
      var losers := LosingIds(db.bids, live, winner);
      var result := CloseResult(aid, winner, finalPrice, Listed(db.bids, losers));
      CloseByTables(db.View(), aid, LockOptions(true, endTimeLte, None), now);
      var ok := WriteClose(aid, result, losers, now);
      r := if ok then Ok(Some(result)) else Err(ConstraintViolation);
    }

    method CloseInOwnTransaction(aid: AuctionId, endTimeLte: Option<Millis>, now: Millis)
      returns (r: Result<Option<CloseResult>>)
      requires db.Quiet()
      modifies db
      ensures db.Quiet()
      ensures Tx(db.View(), r) == ExecuteClose(old(db.View()), aid, LockOptions(true, endTimeLte, None), now)
      ensures r.Err? || r == Ok(None) ==> db.View() == old(db.View())
      ensures RowsOk(old(db.View()).market) ==> RowsOk(db.View().market)
    {
      hide ExecuteClose, RowsOk;
      CloseKeepsRowsOk(db.View(), aid, LockOptions(true, endTimeLte, None), now);
      db.Begin();
      r := ExecuteCloseInTransaction(aid, endTimeLte, now);
      if r.Err? {
        r := Throw(r.error);
        return;
      }
      db.Commit();
    }

    // -------------------------------------------------------------- finalizing

    method SetPayloadInTransaction(aid: AuctionId, payload: Option<Json>)
      requires db.Quiet() && RowsOk(db.View().market)
      modifies db
      ensures db.Quiet() && RowsOk(db.View().market)
      ensures db.View() == old(db.View()).(market := SetPayload(old(db.View()).market, aid, payload))
    {
      db.Begin();
      var ok := db.UpdateAuction(aid, PayloadColumns(payload));
      assert ok;
      db.Commit();
    }

    /** The release transaction; it throws at loser `fault.at`, or at its commit. */
    method ReleaseLosingBids(r: CloseResult, fault: Fault) returns (threw: bool)
      requires db.Quiet() && wallet.db == db
      modifies db
      ensures db.Quiet() && threw == fault.ReleaseFails?
      ensures db.View() == if threw then old(db.View()) else ReleaseLosers(old(db.View()), r)
    {
      db.Begin();
      ghost var before := db.View();
      for k := 0 to |r.losingBids|
        invariant db.saved == Some(before) && db.View().market == before.market
        invariant db.View().wallet == ReleaseAll(before.wallet, r.losingBids[..k])
      {
        if fault == ReleaseFails(k) {
          db.Rollback();
          return true;
        }
        var l := r.losingBids[k];
        wallet.ReleaseBidHold(l.userId, l.bidPrice, l.id);
        ReleaseNext(before.wallet, r.losingBids, k);
      }
      assert r.losingBids[..|r.losingBids|] == r.losingBids;
      if fault.ReleaseFails? {
        db.Rollback();
        return true;
      }
      db.Commit();
      threw := false;
    }

    method FinalizeAuctionClose(r: CloseResult, fault: Fault) returns (threw: bool)
      requires db.Quiet() && wallet.db == db && RowsOk(db.View().market)
      modifies db
      ensures db.Quiet() && RowsOk(db.View().market)
      ensures threw == FinalizeFails(r, fault) && db.View() == Finalized(old(db.View()), r, fault)
    {
      if fault.HistoryFails? {
        return true;
      }
      if |r.losingBids| > 0 {
        var failed := ReleaseLosingBids(r, fault);
        if failed {
          return true;
        }
      }
      assert db.View() == ReleaseLosers(old(db.View()), r);
      if !fault.ClearFails? {
        SetPayloadInTransaction(r.auctionId, None);
      }
      threw := false;
    }

    method SafeFinalizeAuctionClose(r: CloseResult, fault: Fault, persistFails: bool)
      requires db.Quiet() && wallet.db == db && RowsOk(db.View().market)
      modifies db
      ensures db.Quiet() && RowsOk(db.View().market)
      ensures db.View() == SafelyFinalized(old(db.View()), r, fault, persistFails)
    {
      var threw := FinalizeAuctionClose(r, fault);
      if threw && !persistFails {
        SetPayloadInTransaction(r.auctionId, Some(Payload.ToDbPayload(r)));
      }
    }

    /** The retry job over the rows its query returned.  It stops, throwing, only where dropping an invalid
        payload fails; `done` is how many rows it finished. */
    method ProcessPendingPostCloseFinalizes(rows: seq<(AuctionId, Json)>, faults: seq<Fault>) returns (done: nat)
      requires db.Quiet() && wallet.db == db && RowsOk(db.View().market) && |rows| == |faults|
      modifies db
      ensures db.Quiet() && RowsOk(db.View().market) && done <= |rows|
      ensures db.View() == RetriedUpTo(old(db.View()), rows, faults, done)
      ensures done < |rows| ==> RetryThrows(rows[done], faults[done])
      ensures forall k :: 0 <= k < done ==> !RetryThrows(rows[k], faults[k])
    {
      done := 0;
      while done < |rows|
        invariant done <= |rows| && db.Quiet() && RowsOk(db.View().market)
        invariant db.View() == RetriedUpTo(old(db.View()), rows, faults, done)
        invariant forall k :: 0 <= k < done ==> !RetryThrows(rows[k], faults[k])
      {
        var (aid, payload) := rows[done];
        var parsed := Payload.ParseCloseResultFromPayload(aid, payload);
        if parsed.None? {
          if faults[done].ClearFails? {
            return;
          }
          SetPayloadInTransaction(aid, None);
        } else {
          var _ := FinalizeAuctionClose(parsed.value, faults[done]);
        }
        done := done + 1;
      }
    }

    method CloseAuctionForAdmin(aid: AuctionId, now: Millis, fault: Fault, persistFails: bool) returns (r: Result<bool>)
      requires db.Quiet() && wallet.db == db && RowsOk(db.View().market)
      modifies db
      ensures db.Quiet()
      ensures var tx := ExecuteClose(old(db.View()), aid, OpenAny(), now);
        match tx.result
        case Err(e) => r == Err(e) && db.View() == old(db.View())
        case Ok(None) => r == Ok(false) && db.View() == old(db.View())
        case Ok(Some(closed)) => r == Ok(true) && db.View() == SafelyFinalized(tx.db, closed, fault, persistFails)
    {
      hide ExecuteClose, SafelyFinalized;
      var closed := CloseInOwnTransaction(aid, None, now);
      if closed.Err? {
        return Err(closed.error);
      }
      if closed.value.Some? {
        SafeFinalizeAuctionClose(closed.value.value, fault, persistFails);
      }
      r := Ok(closed.value.Some?);
    }

    /** One id of the closing job; an exception of the close is not caught. */
    method CloseOneExpired(aid: AuctionId, now: Millis, fault: Fault, persistFails: bool) returns (error: Option<Error>)
      requires db.Quiet() && wallet.db == db && RowsOk(db.View().market)
      modifies db
      ensures db.Quiet() && RowsOk(db.View().market)
      ensures error.None? ==> Round(old(db.View()), aid, now, (fault, persistFails), db.View())
      ensures error.Some? ==> Throws(old(db.View()), aid, now) && db.View() == old(db.View())
    {
      hide ExecuteClose, SafelyFinalized;
      var closed := CloseInOwnTransaction(aid, Some(now), now);
      if closed.Err? {
        return Some(closed.error);
      }
      if closed.value.Some? {
        SafeFinalizeAuctionClose(closed.value.value, fault, persistFails);
      }
      error := None;
    }

    /** The rounds of the closing job over the ids its query returned, `budget` of them at most: the databases
        between the rounds, and the exception that ended them, if any. */
    method CloseEach(ids: seq<AuctionId>, now: Millis, faults: seq<(Fault, bool)>, budget: nat)
      returns (error: Option<Error>, ghost dbs: seq<Db>)
      requires db.Quiet() && wallet.db == db && RowsOk(db.View().market) && |ids| == |faults|
      modifies db
      ensures db.Quiet() && Rounds(dbs, ids, now, faults) && dbs[0] == old(db.View()) && db.View() == dbs[|dbs| - 1]
      ensures error.None? ==> |dbs| == (if budget < |ids| then budget else |ids|) + 1
      ensures error.Some? ==> |dbs| <= |ids| && Throws(db.View(), ids[|dbs| - 1], now)
    {
      hide Rounds, Round, Throws, RowsOk;
      NoRounds(db.View(), ids, now, faults);
      dbs := [db.View()];
      var k := 0;
      while k < |ids|
        invariant k <= |ids| && k <= budget && db.Quiet() && RowsOk(db.View().market)
        invariant |dbs| == k + 1 && Rounds(dbs, ids, now, faults) && dbs[0] == old(db.View()) && db.View() == dbs[k]
      {
        if k >= budget {
          break;
        }
        error := CloseOneExpired(ids[k], now, faults[k].0, faults[k].1);
        if error.Some? {
          return;
        }
        RoundsAppend(dbs, ids, now, faults, db.View());
        dbs := dbs + [db.View()];
        k := k + 1;
      }
      error := None;
    }

    /** The closing job: the retry pass over `rows`, then the rounds over `ids`.  An exception of the pass ends
        the job before its first round. */
    method CloseExpiredAuctions(rows: seq<(AuctionId, Json)>, retryFaults: seq<Fault>, ids: seq<AuctionId>,
                                now: Millis, faults: seq<(Fault, bool)>, budget: nat)
      returns (done: nat, error: Option<Error>, ghost dbs: seq<Db>)
      requires db.Quiet() && wallet.db == db && RowsOk(db.View().market)
      requires |rows| == |retryFaults| && |ids| == |faults|
      modifies db
      ensures db.Quiet() && Rounds(dbs, ids, now, faults) && db.View() == dbs[|dbs| - 1]
      ensures done <= |rows| && dbs[0] == RetriedUpTo(old(db.View()), rows, retryFaults, done)
      ensures done < |rows| ==> error.Some? && |dbs| == 1 && RetryThrows(rows[done], retryFaults[done])
      ensures forall k :: 0 <= k < done ==> !RetryThrows(rows[k], retryFaults[k])
      ensures error.None? ==> |dbs| == (if budget < |ids| then budget else |ids|) + 1
      ensures done == |rows| && error.Some? ==> |dbs| <= |ids| && Throws(db.View(), ids[|dbs| - 1], now)
    {
      hide Rounds, RetryThrows, Throws, RowsOk, RetriedUpTo, Round;
      done := ProcessPendingPostCloseFinalizes(rows, retryFaults);
      if done < |rows| {
        NoRounds(db.View(), ids, now, faults);
        return done, Some(ConstraintViolation), [db.View()];
      }
      error, dbs := CloseEach(ids, now, faults, budget);
    }

    // -------------------------------------------------------------- buying

    method BuyNow(aid: AuctionId, user: UserId, seen: Option<Auction>, funds: Option<int>, now: Millis)
      returns (r: Result<OrderId>)
      requires db.Quiet()
      modifies db
      ensures db.Quiet() && Tx(db.View(), r) == BuyNowRequest(old(db.View()), aid, user, seen, funds, now)
    {
      hide LockGuard, RowOk;
      if seen.None? {
        return Err(NotFound);
      }
      if seen.value.status != OPEN {
        return Err(BadRequest);
      }
      if seen.value.endTime <= now {
        return Err(BadRequest);
      }
      if seen.value.buyNowPrice.None? || seen.value.buyNowPrice.value == 0 {
        return Err(BadRequest);
      }
      var price := seen.value.buyNowPrice.value;
      if funds.None? || funds.value < price {
        return Err(BadRequest);
      }
      db.Begin();
      var lock := db.LockAuctionForUpdate(aid, true, None, Some(now));
      if lock != Ok(true) {
        r := Throw(BadRequest);
        return;
      }
      var buyer := db.FindBalance(user);
      var ok := db.UpdateAuction(aid, CloseColumns(now, Some(user), price));
      if !ok || buyer.None? {
        r := Throw(ConstraintViolation);
        return;
      }
      var order := db.CreateOrder(Order(aid, user, price, PENDING));
      if order.None? {
        r := Throw(ConstraintViolation);
        return;
      }
      db.Commit();
      r := Ok(order.value);
    }

    // -------------------------------------------------------------- paying and reopening

    /** The loop of a direct payment: each live bid is disqualified and released before the next one. */
    method ReleaseLiveBids(live: seq<BidId>, now: Millis)
      requires wallet.db == db && Rows(db.bids, live)
      modifies db`bids, db`balance, db`ledger
      ensures db.bids == Disqualify(old(db.bids), live, now)
      ensures db.View().wallet == ReleaseAll(old(db.View()).wallet, Listed(old(db.bids), live))
    {
      ghost var bids, w := db.bids, db.View().wallet;
      for k := 0 to |live|
        invariant db.bids == Disqualify(bids, live[..k], now)
        invariant db.View().wallet == ReleaseAll(w, Listed(bids, live)[..k])
      {
        var bid := db.bids[live[k]];
        assert Listed(bids, live)[k] == LosingBid(bid.userId, bid.bidPrice, live[k]);
        DisqualifyNext(bids, live, k, now);
        ReleaseNext(w, Listed(bids, live), k);
        db.DisqualifyBid(live[k], now);
        wallet.ReleaseBidHold(bid.userId, bid.bidPrice, live[k]);
      }
      assert live[..|live|] == live && Listed(bids, live)[..|live|] == Listed(bids, live);
    }

    /** The transaction of `payOrder`, with the winner decision taken before it. */
    method PayInTransaction(o: OrderRef, isAuctionWinner: bool, now: Millis) returns (r: Result<()>)
      requires db.Quiet() && wallet.db == db
      modifies db
      ensures db.Quiet() && Tx(db.View(), r) == Transactions.PayOrder(old(db.View()), o, isAuctionWinner, now)
    {
      hide Disqualify, ReleaseAll, Listed, Credit;
      db.Begin();
      var claimed := db.UpdateOrderWhere(o.id, PENDING, PAID);
      if claimed == 0 {
        r := Throw(Conflict);
        return;
      }
      if isAuctionWinner {
        wallet.ConvertHoldToPayment(o.buyerUserId, o.finalPrice, o.id);
        db.MarkConvertedBid(o.auctionId);
      } else {
        var paid := wallet.Pay(o.buyerUserId, o.finalPrice, o.id);
        if !paid {
          r := Throw(BadRequest);
          return;
        }
        var _, live := db.FindAuction(o.auctionId);
        ReleaseLiveBids(live, now);
      }
      wallet.SettleSeller(o.sellerUserId, o.finalPrice, o.id);
      db.Commit();
      r := Ok(());
    }

    method ReleaseWinningBid(id: BidId, now: Millis)
      requires wallet.db == db && id < |db.bids|
      modifies db`bids, db`balance, db`ledger
      ensures db.bids == Disqualify(old(db.bids), [id], now)
      ensures var b := old(db.bids)[id];
        db.View().wallet == ReleaseBidHold(old(db.View()).wallet, b.userId, b.bidPrice, id)
    {
      var b := db.bids[id];
      DisqualifyOne(db.bids, id, now);
      db.DisqualifyBid(id, now);
      wallet.ReleaseBidHold(b.userId, b.bidPrice, id);
    }

    /** The part of a reopening after the order was cancelled. */
    method WriteReopen(o: OrderRef, row: Auction, live: seq<BidId>, now: Millis) returns (ok: bool)
      requires wallet.db == db && o.auctionId in db.auctions && row == db.auctions[o.auctionId]
      requires live == LiveBids(db.bids, o.auctionId)
      modifies db`auctions, db`bids, db`balance, db`ledger
      ensures var bids, w := old(db.bids), old(db.View()).wallet;
        var row' := ReopenedRow(row, BaselinePrice(bids, o, row.startPrice), now);
        && ok == RowOk(row')
        && (ok ==>
              && db.auctions == old(db.auctions)[o.auctionId := row']
              && if IsAuctionWinner(bids, o)
                 then db.bids == Disqualify(bids, [live[0]], now)
                      && db.View().wallet == ReleaseBidHold(w, bids[live[0]].userId, bids[live[0]].bidPrice, live[0])
                 else db.bids == bids && db.View().wallet == w)
    {
      hide Disqualify, ReleaseBidHold, RowOk;
      var bids := db.bids;
      var isAuctionWinner :=
        live != [] && bids[live[0]].userId == o.buyerUserId && bids[live[0]].bidPrice == o.finalPrice;
      if isAuctionWinner {
        ReleaseWinningBid(live[0], now);
      }
      var baselinePrice :=
        if isAuctionWinner then (if |live| > 1 then bids[live[1]].bidPrice else row.startPrice)
        else (if |live| > 0 then bids[live[0]].bidPrice else row.startPrice);
      ok := db.UpdateAuction(o.auctionId, ReopenColumns(now + REOPEN_MS, baselinePrice));
    }

    /** `reopenAuctionForFailedPayment`, and one order's transaction in the timeout job. */
    method ReopenInTransaction(o: OrderRef, now: Millis) returns (r: Result<bool>)
      requires db.Quiet() && wallet.db == db
      modifies db
      ensures db.Quiet() && Tx(db.View(), r) == ReopenAuction(old(db.View()), o, now)
    {
      hide Disqualify, RowOk;
      db.Begin();
      var lock := db.LockAuctionForUpdate(o.auctionId, false, None, None);
      if lock != Ok(true) {
        db.Commit();
        return Ok(false);
      }
      var row, live := db.FindAuction(o.auctionId);
      if row.None? || row.value.status != CLOSED {
        db.Commit();
        return Ok(false);
      }
      var cancelled := db.UpdateOrderWhere(o.id, PENDING, CANCELLED);
      if cancelled == 0 {
        db.Commit();
        return Ok(false);
      }
      ReopenedTables(old(db.View()).market, o, now);
      var reopened := WriteReopen(o, row.value, live, now);
      if !reopened {
        r := Throw(ConstraintViolation);
        return;
      }
      db.Commit();
      r := Ok(true);
    }

    /** The timeout job over the orders its query returned; an order whose transaction throws ends it. */
    method CancelExpiredPendingOrders(expired: seq<OrderRef>, times: seq<Millis>) returns (done: nat)
      requires db.Quiet() && wallet.db == db && |expired| == |times|
      modifies db
      ensures db.Quiet() && done <= |expired|
      ensures db.View() == ReopenedUpTo(old(db.View()), expired, times, done)
      ensures StopsAfter(old(db.View()), expired, times, done)
    {
      done := 0;
      while done < |expired|
        invariant done <= |expired| && db.Quiet()
        invariant db.View() == ReopenedUpTo(old(db.View()), expired, times, done)
        invariant forall j: nat :: j < done ==> !ThrowsAt(old(db.View()), expired, times, j)
      {
        var r := ReopenInTransaction(expired[done], times[done]);
        if r.Err? {
          return;
        }
        done := done + 1;
      }
    }

    /** `payOrder` with nothing else running between its reads and its transactions. */
    method PayOrder(oid: OrderId, user: UserId, now: Millis, later: Millis) returns (r: Result<()>)
      requires db.Quiet() && wallet.db == db
      modifies db
      ensures db.Quiet() && Tx(db.View(), r) == Service.PayRequest(old(db.View()), oid, user, now, later)
    {
      if oid !in db.orders || db.orders[oid].auctionId !in db.auctions {
        return Err(NotFound);
      }
      var order := db.orders[oid];
      if order.buyerUserId != user {
        return Err(Forbidden);
      }
      if order.status != PENDING {
        return Err(BadRequest);
      }
      var o := OrderRef(oid, order.auctionId, user, order.finalPrice, db.auctions[order.auctionId].sellerUserId);
      var _, live := db.FindAuction(o.auctionId);
      var isAuctionWinner :=
        live != [] && db.bids[live[0]].userId == user && db.bids[live[0]].bidPrice == o.finalPrice;
      r := PayInTransaction(o, isAuctionWinner, now);
      if r.Ok? || r.error == Conflict {
        return;
      }
      var _ := ReopenInTransaction(o, later);
    }
  }
}
