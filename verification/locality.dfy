/** Which auction an action works on, and that it leaves every other auction alone. */
module Locality {
  import opened Schema
  import opened Transactions
  import opened MarketInvariant
  import opened Service
  import Payload

  function Target(a: Action): Option<AuctionId> {
    match a
    case PlaceBidBy(aid, _, _, _) => Some(aid)
    case BotBidBy(aid, _, _, _) => Some(aid)
    case TimedClose(aid, _) => Some(aid)
    case AdminClose(aid, _) => Some(aid)
    case Buy(aid, _, _, _) => Some(aid)
    case Edit(aid, _, _) => Some(aid)
    case Delete(aid, _, _) => Some(aid)
    case Commit(t, _) => if t.Decided? then Some(t.o.auctionId) else None
    case Reopen(t, _) => if t.Reopening? then Some(t.o.auctionId) else None
    case _ => None
  }

  lemma Itself(m: Market, aid: AuctionId)
    requires aid in m.auctions
    ensures Untouched(m, m, aid)
  {
  }

  lemma PayloadLocal(m: Market, t: AuctionId, payload: Option<Json>, aid: AuctionId)
    requires aid in m.auctions
    ensures Untouched(m, SetPayload(m, t, payload), aid)
  {
  }

  lemma BidLocal(m: Market, users: nat, t: AuctionId, user: UserId, price: int, now: Millis, aid: AuctionId)
    requires References(m, users) && t in m.auctions && aid in m.auctions && aid != t
    ensures Untouched(m, BidMarket(m, t, user, price, now), aid)
  {
    BidElsewhere(m, users, t, user, price, now);
  }

  lemma CloseLocal(s: Sys, t: AuctionId, options: LockOptions, now: Millis, aid: AuctionId)
    requires Inv(s) && options.statusOpen && aid in s.db.market.auctions && aid != t
    ensures Untouched(s.db.market, CloseBy(s, t, options, now).db.market, aid)
  {
    var m, users := s.db.market, |s.db.wallet.balance|;
    Itself(m, aid);
    if Locks(m, t, options) && ExecuteClose(s.db, t, options, now).result.Ok? {
      CloseElsewhere(m, users, t, now);
      CloseOrders(m, t, now);
    }
  }

  lemma SellerLocal(s: Sys, a: Action, aid: AuctionId)
    requires References(s.db.market, |s.db.wallet.balance|) && (a.Create? || a.Edit? || a.Delete? || a.Buy?)
    requires aid in s.db.market.auctions && Target(a) != Some(aid)
    ensures Untouched(s.db.market, Apply(s, a).db.market, aid)
  {
    hide RowOk, HasBids, OrderInsertOk, LockGuard, CloseBy, Work;
  }

  lemma CommitLocal(s: Sys, o: OrderRef, winner: bool, now: Millis, aid: AuctionId)
    requires Inv(s) && RefOk(s.db.market, o) && aid in s.db.market.auctions && aid != o.auctionId
    ensures Untouched(s.db.market, FinishPayment(s, o, winner, now).db.market, aid)
  {
    var m := s.db.market;
    Itself(m, aid);
    if Pending(m, o.id) {
      PayElsewhere(m, |s.db.wallet.balance|, o, winner, now);
      assert aid in PaidMarket(m, o, winner, now).auctions;
    }
  }

  lemma ReopenLocal(s: Sys, o: OrderRef, now: Millis, aid: AuctionId)
    requires Inv(s) && RefOk(s.db.market, o) && aid in s.db.market.auctions && aid != o.auctionId
    ensures Untouched(s.db.market, ReopenAuction(s.db, o, now).db.market, aid)
  {
    var m := s.db.market;
    Itself(m, aid);
    if Reopens(m, o) {
      ReopenElsewhere(m, |s.db.wallet.balance|, o, now);
      assert aid in ReopenedMarket(m, o, now).auctions;
    }
  }

  lemma WorkLocal(s: Sys, a: Action, aid: AuctionId)
    requires Inv(s) && OnTask(a) && a.task in s.tasks && aid in s.db.market.auctions && Target(a) != Some(aid)
    ensures Untouched(s.db.market, Work(s, a).db.market, aid)
  {
    var m, t := s.db.market, a.task;
    assert TaskOk(m, t);
    Itself(m, aid);
    if a.Clear? && t.Clearing? {
      PayloadLocal(m, t.auctionId, None, aid);
    } else if a.Persist? && t.Persisting? {
      PayloadLocal(m, t.r.auctionId, Some(Payload.ToDbPayload(t.r)), aid);
    } else if a.Commit? && t.Decided? {
      CommitLocal(s, t.o, t.isAuctionWinner, a.now, aid);
    } else if a.Reopen? && t.Reopening? {
      ReopenLocal(s, t.o, a.now, aid);
    }
  }

  lemma BidActionLocal(s: Sys, a: Action, aid: AuctionId)
    requires Inv(s) && (a.PlaceBidBy? || a.BotBidBy?) && aid in s.db.market.auctions && Target(a) != Some(aid)
    ensures Untouched(s.db.market, Apply(s, a).db.market, aid)
  {
    var m := s.db.market;
    Itself(m, aid);
    if a.aid in m.auctions {
      BidLocal(m, |s.db.wallet.balance|, a.aid, a.user, a.price, a.now, aid);
    }
  }

  lemma PlainLocal(s: Sys, a: Action, aid: AuctionId)
    requires Inv(s) && Plain(a) && aid in s.db.market.auctions && Target(a) != Some(aid)
    ensures Untouched(s.db.market, Apply(s, a).db.market, aid)
  {
    Itself(s.db.market, aid);
    if a.PlaceBidBy? || a.BotBidBy? {
      BidActionLocal(s, a, aid);
    } else if !a.Deposit? {
      SellerLocal(s, a, aid);
    }
  }

  /** An auction the action does not target keeps its row (but for the payload), its bids and its orders. */
  lemma ActionLocal(s: Sys, a: Action, aid: AuctionId)
    requires Inv(s) && aid in s.db.market.auctions && Target(a) != Some(aid)
    ensures Untouched(s.db.market, Apply(s, a).db.market, aid)
  {
    var m := s.db.market;
    Itself(m, aid);
    if Plain(a) {
      PlainLocal(s, a, aid);
    } else if OnTask(a) {
      if a.task in s.tasks {
        WorkLocal(s, a, aid);
      }
    } else {
      match a
      case TimedClose(t, now) => CloseLocal(s, t, OpenUntil(now), now, aid);
      case AdminClose(t, now) => CloseLocal(s, t, OpenAny(), now, aid);
      case Retry(t) => PayloadLocal(m, t, None, aid);
      case _ =>
    }
  }
}
