/** A buy-now request over runs: it reads the auction and the balance, the service goes on, and its transaction
    comes later. */
module BuyNows {
  import opened Schema
  import opened WalletMoves
  import opened Transactions
  import opened MarketInvariant
  import opened Service
  import opened Runs
  import opened Bidding
  import opened Outcomes
  import Payload

  // ---------------------------------------------------------------- the buy-now price

  predicate SetsAsked(a: Action, aid: AuctionId) { a.Edit? && a.aid == aid && a.p.buyNowPrice.Some? }

  function Asked(m: Market, aid: AuctionId): Option<int>
    requires aid in m.auctions
  {
    m.auctions[aid].buyNowPrice
  }

  lemma PlainAsked(s: Sys, a: Action, aid: AuctionId)
    requires References(s.db.market, |s.db.wallet.balance|) && Plain(a) && !SetsAsked(a, aid)
    requires aid in s.db.market.auctions && aid in Apply(s, a).db.market.auctions
    ensures Asked(Apply(s, a).db.market, aid) == Asked(s.db.market, aid)
  {
    hide RowOk, HasBids, OrderInsertOk, HoldForBid, LiveBids, ActiveOrders;
  }

  lemma WorkAsked(s: Sys, a: Action, aid: AuctionId)
    requires OnTask(a) && a.task in s.tasks && aid in s.db.market.auctions && aid in Work(s, a).db.market.auctions
    ensures Asked(Work(s, a).db.market, aid) == Asked(s.db.market, aid)
  {
    hide RowOk, IsAuctionWinner, BaselinePrice, ReleaseAll, LiveBids, Payload.ToDbPayload, ReopenRowOk, Pay;
  }

  lemma CloseAsked(s: Sys, t: AuctionId, options: LockOptions, now: Millis, aid: AuctionId)
    requires options.statusOpen && aid in s.db.market.auctions
    ensures aid in CloseBy(s, t, options, now).db.market.auctions
    ensures Asked(CloseBy(s, t, options, now).db.market, aid) == Asked(s.db.market, aid)
  {
    hide ExecuteClose, ClosedMarket;
    CloseByShape(s, t, options, now);
    if t in s.db.market.auctions {
      CloseOrders(s.db.market, t, now);
    }
  }

  /** Only an edit of it changes an auction's buy-now price. */
  lemma AskedStep(s: Sys, a: Action, aid: AuctionId)
    requires Inv(s) && !SetsAsked(a, aid)
    requires aid in s.db.market.auctions && aid in Apply(s, a).db.market.auctions
    ensures Asked(Apply(s, a).db.market, aid) == Asked(s.db.market, aid)
  {
    hide Work, CloseBy, Transact;
    if Plain(a) {
      PlainAsked(s, a, aid);
    } else if OnTask(a) {
      if a.task in s.tasks {
        WorkAsked(s, a, aid);
      }
    } else if a.TimedClose? || a.AdminClose? {
      CloseAsked(s, a.aid, if a.TimedClose? then OpenUntil(a.now) else OpenAny(), a.now, aid);
    }
  }

  predicate AskedLeftAlone(acts: seq<Action>, aid: AuctionId) {
    forall k :: 0 <= k < |acts| ==> !SetsAsked(acts[k], aid)
  }

  lemma {:induction false} AskedStands(s: Sys, acts: seq<Action>, aid: AuctionId)
    requires Inv(s) && AskedLeftAlone(acts, aid)
    requires aid in s.db.market.auctions && aid in Exec(s, acts).db.market.auctions
    ensures Asked(Exec(s, acts).db.market, aid) == Asked(s.db.market, aid)
  {
    hide Apply, Inv;
    if acts == [] {
    } else {
      StillThere(s, acts, aid);
      AskedStands(s, acts[..|acts| - 1], aid);
      InvBefore(s, acts);
      AskedStep(Exec(s, acts[..|acts| - 1]), acts[|acts| - 1], aid);
    }
  }

  // ---------------------------------------------------------------- the request

  /** The request that read the auction and the balance in `s`, as its transaction finds the database `db`. */
  function Request(s: Sys, db: Db, aid: AuctionId, user: UserId, now: Millis): Tx<OrderId> {
    BuyNowRequest(db, aid, user,
                  if aid in s.db.market.auctions then Some(s.db.market.auctions[aid]) else None,
                  if user < |s.db.wallet.balance| then Some(s.db.wallet.balance[user]) else None, now)
  }

  /** A request that read in one state and succeeds after any run is the buy-now step of the run model at the price
      it read.  Its order keeps auction, buyer and that price in every later run, and the price is still the
      auction's buy-now price at the sale unless it was edited in between. */
  lemma SoldAtPriceRead(s: Sys, acts: seq<Action>, aid: AuctionId, user: UserId, now: Millis, more: seq<Action>)
    requires Inv(s) && Request(s, Exec(s, acts).db, aid, user, now).result.Ok?
    ensures aid in s.db.market.auctions && s.db.market.auctions[aid].buyNowPrice.Some?
    ensures var s1, price := Exec(s, acts), s.db.market.auctions[aid].buyNowPrice.value;
      var s2, o := Apply(s1, Buy(aid, user, price, now)), s1.db.market.nextOrder;
      && s2 == s1.(db := Request(s, s1.db, aid, user, now).db)
      && o in s2.db.market.orders && s2.db.market.orders[o] == Order(aid, user, price, PENDING)
      && (AskedLeftAlone(acts, aid) ==> s1.db.market.auctions[aid].buyNowPrice == Some(price))
      && var m' := Exec(s2, more).db.market;
         o in m'.orders ==> m'.orders[o] == Order(aid, user, price, m'.orders[o].status)
  {
    hide Inv, Apply, Exec, BuyNow;
    var s1, price := Exec(s, acts), s.db.market.auctions[aid].buyNowPrice.value;
    var s2 := Apply(s1, Buy(aid, user, price, now));
    RunInv(s, acts);
    BuyStep(s, s1, aid, user, now);
    if AskedLeftAlone(acts, aid) {
      AskedStands(s, acts, aid);
    }
    ApplyGood(s1, Buy(aid, user, price, now));
    RunInv(s2, more);
  }

  lemma BuyStep(s: Sys, s1: Sys, aid: AuctionId, user: UserId, now: Millis)
    requires Inv(s1) && Request(s, s1.db, aid, user, now).result.Ok?
    ensures aid in s.db.market.auctions && s.db.market.auctions[aid].buyNowPrice.Some?
    ensures aid in s1.db.market.auctions
    ensures var price := s.db.market.auctions[aid].buyNowPrice.value;
      var s2, o := Apply(s1, Buy(aid, user, price, now)), s1.db.market.nextOrder;
      && s2 == s1.(db := Request(s, s1.db, aid, user, now).db)
      && o in s2.db.market.orders && s2.db.market.orders[o] == Order(aid, user, price, PENDING)
      && s2.db.market.nextOrder == o + 1
  {
    hide WalletInv, MarketInv;
    var seen := if aid in s.db.market.auctions then Some(s.db.market.auctions[aid]) else None;
    var funds := if user < |s.db.wallet.balance| then Some(s.db.wallet.balance[user]) else None;
    BuyOutcome(s1.db, aid, user, seen, funds, now);
  }
}
