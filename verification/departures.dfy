/** How a bid leaves the live bids of its auction: with its money back in the same transaction, or on the list of a
    close that somebody is about to finalize. */
module Departures {
  import opened Schema
  import opened WalletMoves
  import opened Transactions
  import opened MarketInvariant
  import opened DatabaseInvariant
  import opened Service
  import opened Runs
  import opened Finalize
  import opened Prices
  import opened Outcomes
  import opened Payments
  import Payload

  /** Released by this action, for the first time. */
  predicate ReleasedNow(s: Sys, s': Sys, i: BidId) {
    Releases(s.db.wallet.ledger, i) == 0 && Releases(s'.db.wallet.ledger, i) == 1
  }

  /** Listed by a close that just committed and will be finalized. */
  predicate ListedNow(s: Sys, a: Action, i: BidId) {
    Closes(s, a) && var r := CloseResultOf(s.db.market, a.aid);
      Lists(r, i) && Finalizing(r, false) in Apply(s, a).tasks
  }

  lemma PlainKeepsLive(s: Sys, a: Action, aid: AuctionId, i: BidId)
    requires Plain(a) && Live(s.db.market.bids, aid, i)
    ensures Live(Apply(s, a).db.market.bids, aid, i)
  {
    hide RowOk, HasBids, OrderInsertOk, HoldForBid, BidError, LockGuard, ActiveOrders;
  }

  lemma CloseDeparts(s: Sys, a: Action, options: LockOptions, aid: AuctionId, i: BidId)
    requires (a.TimedClose? || a.AdminClose?) && options.statusOpen && Live(s.db.market.bids, aid, i)
    requires Apply(s, a) == CloseBy(s, a.aid, options, a.now) && !Live(Apply(s, a).db.market.bids, aid, i)
    ensures ListedNow(s, a, i)
  {
    hide ExecuteClose, ClosedMarket, CloseResultOf, Apply, Lists, CloseBy;
    CloseByShape(s, a.aid, options, a.now);
    CloseBids(s.db.market, a.aid, a.now);
    LoserIsListed(s.db.market, a.aid, i);
  }

  lemma ReopenDeparts(db: Db, o: OrderRef, now: Millis, aid: AuctionId, i: BidId)
    requires DbInv(db) && RefOk(db.market, o) && Live(db.market.bids, aid, i)
    requires !Live(ReopenAuction(db, o, now).db.market.bids, aid, i)
    ensures Releases(db.wallet.ledger, i) == 0 && Releases(ReopenAuction(db, o, now).db.wallet.ledger, i) == 1
  {
    hide DbInv, RefOk, ReopenAuction, LiveBids, Releases, AboveBuyNow, RowAfterReopening, Moves;
    ReopenOutcome(db, o, now);
    LiveIsUnreleased(db, aid, i);
  }

  lemma LiveIsUnreleased(db: Db, aid: AuctionId, i: BidId)
    requires DbInv(db) && Live(db.market.bids, aid, i)
    ensures Releases(db.wallet.ledger, i) == 0
  {
    LiveUnreleased(db.market.bids, db.wallet, i);
  }

  lemma PayDeparts(db: Db, o: OrderRef, winner: bool, now: Millis, aid: AuctionId, i: BidId)
    requires DbInv(db) && RefOk(db.market, o) && Live(db.market.bids, aid, i)
    requires Pending(db.market, o.id) ==> winner == IsAuctionWinner(db.market.bids, o)
    requires !Live(PayOrder(db, o, winner, now).db.market.bids, aid, i)
    ensures Releases(db.wallet.ledger, i) == 0 && Releases(PayOrder(db, o, winner, now).db.wallet.ledger, i) == 1
  {
    hide DbInv, RefOk, PayOrder, LiveBids, Releases, Moves, LivePrices;
    LiveIsUnreleased(db, aid, i);
    PayResults(db, o, winner, now);
    if winner {
      ConversionOutcome(db, o, now);
    } else {
      DirectPayment(db, o, now);
    }
  }

  lemma WorkDeparts(s: Sys, a: Action, aid: AuctionId, i: BidId)
    requires Inv(s) && OnTask(a) && a.task in s.tasks && Live(s.db.market.bids, aid, i)
    requires !Live(Work(s, a).db.market.bids, aid, i)
    ensures ReleasedNow(s, Work(s, a), i)
  {
    hide DbInv, RefOk, PayOrder, ReopenAuction, LiveBids, Releases, ReleaseAll, Payload.ToDbPayload, IsAuctionWinner;
    assert TaskOk(s.db.market, a.task);
    if a.Commit? && a.task.Decided? {
      FailedPayChangesNothing(s.db, a.task.o, a.task.isAuctionWinner, a.now);
      PayDeparts(s.db, a.task.o, a.task.isAuctionWinner, a.now, aid, i);
    } else if a.Reopen? && a.task.Reopening? {
      ReopenDeparts(s.db, a.task.o, a.now, aid, i);
    }
  }

  /** A live bid stays live unless the action releases it, or closes the auction and lists it for the finalize. */
  lemma LeavesOnlyBy(s: Sys, a: Action, aid: AuctionId, i: BidId)
    requires Inv(s) && Live(s.db.market.bids, aid, i) && !Live(Apply(s, a).db.market.bids, aid, i)
    ensures ReleasedNow(s, Apply(s, a), i) || ListedNow(s, a, i)
  {
    hide Inv, Work, CloseBy, ReleasedNow, ListedNow, Transact;
    if Plain(a) {
      PlainKeepsLive(s, a, aid, i);
    } else if OnTask(a) {
      if a.task in s.tasks {
        WorkDeparts(s, a, aid, i);
      }
    } else if a.TimedClose? {
      CloseDeparts(s, a, OpenUntil(a.now), aid, i);
    } else if a.AdminClose? {
      CloseDeparts(s, a, OpenAny(), aid, i);
    }
  }

  lemma NewBidIsLive(s: Sys, a: Action, i: BidId)
    requires |s.db.market.bids| <= i < |Apply(s, a).db.market.bids|
    ensures Apply(s, a).db.market.bids[i].disqualifiedAt.None?
  {
    hide Work, CloseBy, RowOk, LockGuard, Leader;
    if !a.PlaceBidBy? && !a.BotBidBy? {
      BidsGrowByBids(s, a);
    }
  }

  /** Some close of the run listed the bid, and its result was about to be finalized. */
  ghost predicate WasListed(s: Sys, acts: seq<Action>, i: BidId) {
    exists k :: 0 <= k < |acts| && ListedNow(Exec(s, acts[..k]), acts[k], i)
  }

  lemma ListedBefore(s: Sys, acts: seq<Action>, i: BidId)
    requires acts != [] && WasListed(s, acts[..|acts| - 1], i)
    ensures WasListed(s, acts, i)
  {
    hide ListedNow, Exec;
    var n := |acts| - 1;
    var k :| 0 <= k < n && ListedNow(Exec(s, acts[..n][..k]), acts[..n][k], i);
    assert acts[..n][..k] == acts[..k];
  }

  /** Over whole runs: every disqualified bid has its money back, once, or some close listed it. */
  lemma {:induction false} DisqualifiedWithReason(balance: seq<nat>, uniqueOrder: bool, acts: seq<Action>, i: BidId)
    requires var bids := Exec(Init(balance, uniqueOrder), acts).db.market.bids;
      i < |bids| && bids[i].disqualifiedAt.Some?
    ensures var s := Init(balance, uniqueOrder);
      Releases(Exec(s, acts).db.wallet.ledger, i) == 1 || WasListed(s, acts, i)
  {
    hide Apply, Init, Releases, ListedNow, WasListed, Inv;
    var s := Init(balance, uniqueOrder);
    InitInv(balance, uniqueOrder);
    RunInv(s, acts);
    if acts == [] {
      NoBidsYet(balance, uniqueOrder);
    } else {
      var n := |acts| - 1;
      var before := Exec(s, acts[..n]);
      RunInv(s, acts[..n]);
      if i < |before.db.market.bids| {
        if before.db.market.bids[i].disqualifiedAt.Some? {
          DisqualifiedWithReason(balance, uniqueOrder, acts[..n], i);
          if WasListed(s, acts[..n], i) {
            ListedBefore(s, acts, i);
          } else {
            StaysReleased(before, acts[n], i);
          }
        } else {
          LeftNow(s, acts, i);
        }
      } else {
        NewBidIsLive(before, acts[n], i);
      }
    }
  }

  lemma LeftNow(s: Sys, acts: seq<Action>, i: BidId)
    requires Inv(s) && acts != []
    requires var bids := Exec(s, acts[..|acts| - 1]).db.market.bids; i < |bids| && bids[i].disqualifiedAt.None?
    requires var bids := Exec(s, acts).db.market.bids; i < |bids| && bids[i].disqualifiedAt.Some?
    ensures Releases(Exec(s, acts).db.wallet.ledger, i) == 1 || WasListed(s, acts, i)
  {
    hide Apply, Releases, ListedNow, Inv;
    var n := |acts| - 1;
    var before := Exec(s, acts[..n]);
    RunInv(s, acts[..n]);
    LeavesOnlyBy(before, acts[n], before.db.market.bids[i].auctionId, i);
  }

  lemma StaysReleased(s: Sys, a: Action, i: BidId)
    requires Inv(s) && i < |s.db.market.bids| && Releases(s.db.wallet.ledger, i) == 1
    ensures Releases(Apply(s, a).db.wallet.ledger, i) == 1
  {
    hide Apply, Releases;
    ApplyGood(s, a);
    LedgerGrows(s, a);
    ReleasesMonotone(s.db.wallet.ledger, Apply(s, a).db.wallet.ledger, i);
  }

  lemma NoBidsYet(balance: seq<nat>, uniqueOrder: bool)
    ensures Init(balance, uniqueOrder).db.market.bids == []
  {
  }
}
