/** The finalize and retry protocol: which losing bids get their money back, and which never will. */
module Finalize {
  import opened Schema
  import opened WalletMoves
  import opened Transactions
  import opened MarketInvariant
  import opened DatabaseInvariant
  import opened Service
  import opened Runs
  import Payload

  // ---------------------------------------------------------------- the ledger only grows

  lemma {:induction false} ReleaseAllAppends(w: Wallet, ls: seq<LosingBid>)
    ensures w.ledger <= ReleaseAll(w, ls).ledger
  {
    if ls == [] {
    } else {
      ReleaseAllAppends(w, ls[..|ls| - 1]);
    }
  }

  lemma PayAppends(db: Db, o: OrderRef, winner: bool, now: Millis)
    ensures db.wallet.ledger <= PayOrder(db, o, winner, now).db.wallet.ledger
  {
    hide PaidMarket, LiveBids;
    var paid := Pay(db.wallet, o.buyerUserId, o.finalPrice, o.id);
    if paid.Some? {
      ReleaseAllAppends(paid.value, Listed(db.market.bids, LiveBids(db.market.bids, o.auctionId)));
    }
  }

  lemma WorkLedgerGrows(s: Sys, a: Action)
    requires OnTask(a)
    ensures s.db.wallet.ledger <= Work(s, a).db.wallet.ledger
  {
    hide PaidMarket, ReopenedMarket, IsAuctionWinner, RowOk, SetPayload, Payload.ToDbPayload;
    if a.Release? && a.task.Finalizing? {
      ReleaseAllAppends(s.db.wallet, a.task.r.losingBids);
    } else if a.Commit? && a.task.Decided? {
      PayAppends(s.db, a.task.o, a.task.isAuctionWinner, a.now);
    }
  }

  lemma LedgerGrows(s: Sys, a: Action)
    ensures s.db.wallet.ledger <= Apply(s, a).db.wallet.ledger
  {
    hide RowOk, BidError, CloseResultOf, ClosedMarket, BoughtMarket, BidMarket, Patched, ActiveOrders, HasBids;
    hide OrderInsertOk, LockGuard, FreshRow, Work, Credit;
    if OnTask(a) {
      WorkLedgerGrows(s, a);
    }
  }

  lemma {:induction false} ReleasesMonotone(l1: seq<Entry>, l2: seq<Entry>, b: BidId)
    requires l1 <= l2
    ensures Releases(l1, b) <= Releases(l2, b)
  {
    if |l1| < |l2| {
      ReleasesMonotone(l1, l2[..|l2| - 1], b);
    } else {
      assert l1 == l2;
    }
  }

  // ---------------------------------------------------------------- no loser is lost

  predicate AllReleased(s: Sys, r: CloseResult) {
    forall k :: 0 <= k < |r.losingBids| ==> Releases(s.db.wallet.ledger, r.losingBids[k].id) > 0
  }

  predicate HoldsPayload(m: Market, r: CloseResult) {
    r.auctionId in m.auctions && m.auctions[r.auctionId].postCloseFinalizePayload == Some(Payload.ToDbPayload(r))
  }

  /** The losers of a close are released, or some process is about to release or persist them, or the row
      holds them for the retry job. */
  predicate Accounted(s: Sys, r: CloseResult) {
    AllReleased(s, r) || Finalizing(r, false) in s.tasks || Persisting(r) in s.tasks || HoldsPayload(s.db.market, r)
  }

  predicate CarriesOf(t: Task, aid: AuctionId) { (t.Finalizing? || t.Persisting?) && t.r.auctionId == aid }

  /** No other close of the same auction is still being finalized. */
  ghost predicate OnlyResult(s: Sys, r: CloseResult) {
    && (forall t :: t in s.tasks && CarriesOf(t, r.auctionId) ==> t.r == r)
    && (Clearing(r.auctionId) in s.tasks ==> AllReleased(s, r))
    && (r.auctionId in s.db.market.auctions ==>
          var p := s.db.market.auctions[r.auctionId].postCloseFinalizePayload;
          p.None? || p == Some(Payload.ToDbPayload(r)))
  }

  /** The close result is not dropped before it reached the row: no crash and no failing persist. */
  predicate Keeps(a: Action, r: CloseResult) {
    a != Drop(Finalizing(r, false)) && a != Drop(Persisting(r))
  }

  // ---------------------------------------------------------------- where tasks and payloads come from

  /** A close that committed. */
  predicate Closes(s: Sys, a: Action) {
    && (a.TimedClose? || a.AdminClose?) && a.aid in s.db.market.auctions && s.db.market.auctions[a.aid].status == OPEN
    && Apply(s, a).db.market == ClosedMarket(s.db.market, a.aid, a.now)
  }

  /** How a task of the finalize protocol can appear. */
  predicate Origin(s: Sys, a: Action, t: Task) {
    || t.Paying? || t.Decided? || t.Reopening?
    || (a.Release? && a.task in s.tasks && a.task.Finalizing? && t == Clearing(a.task.r.auctionId))
    || (a.FinalizeThrows? && a.task in s.tasks && a.task.Finalizing? && t == Persisting(a.task.r))
    || (a.Retry? && IsClosed(s.db.market, a.aid) && t.Finalizing?
          && s.db.market.auctions[a.aid].postCloseFinalizePayload.Some?
          && Payload.ParseSpec(a.aid, s.db.market.auctions[a.aid].postCloseFinalizePayload.value) == Some(t.r))
    || (Closes(s, a) && t == Finalizing(CloseResultOf(s.db.market, a.aid), false))
  }

  lemma WorkNew(s: Sys, a: Action, t: Task)
    requires OnTask(a) && a.task in s.tasks && t in Work(s, a).tasks && t !in s.tasks
    ensures Origin(s, a, t)
  {
    hide PayOrder, ReopenAuction, ReleaseLosers, SetPayload, IsAuctionWinner, Payload.ToDbPayload, Closes;
  }

  lemma NewTask(s: Sys, a: Action, t: Task)
    requires t in Apply(s, a).tasks && t !in s.tasks
    ensures Origin(s, a, t)
  {
    if OnTask(a) {
      WorkNew(s, a, t);
    } else if a.TimedClose? {
      CloseByShape(s, a.aid, OpenUntil(a.now), a.now);
    } else if a.AdminClose? {
      CloseByShape(s, a.aid, OpenAny(), a.now);
    }
  }

  /** Payloads come from before or are cleared, closed rows stand, and a row that just closed has no payload. */
  ghost predicate RowsStand(m1: Market, m2: Market) {
    && PayloadsFrom(m1, m2)
    && (forall x :: IsClosed(m1, x) && x in m2.auctions ==> m2.auctions[x] == m1.auctions[x])
    && (forall x :: IsClosed(m2, x) && m2.auctions[x].postCloseFinalizePayload.Some? ==> IsClosed(m1, x))
  }

  /** A bid's update leaves status and payload alone, and needs an open row. */
  lemma BidMarketRows(m: Market, aid: AuctionId, user: UserId, price: int, now: Millis)
    requires aid in m.auctions && m.auctions[aid].status == OPEN
    ensures RowsStand(m, BidMarket(m, aid, user, price, now))
    ensures RowsStand(m, WithBid(m, NewBid(aid, user, price))) && RowsStand(m, m)
  {
  }

  lemma BidRows(s: Sys, a: Action)
    requires a.PlaceBidBy? || a.BotBidBy? || a.Deposit?
    ensures RowsStand(s.db.market, Apply(s, a).db.market)
  {
    hide HoldForBid, Leader, LiveBids, BidMarket, WithBid, RowsStand, RowOk, BidUpdate;
    var m := s.db.market;
    assert RowsStand(m, m) by { SameRows(m); }
    if !a.Deposit? && a.aid in m.auctions && m.auctions[a.aid].status == OPEN {
      BidMarketRows(m, a.aid, a.user, a.price, a.now);
    }
  }

  lemma SameRows(m: Market)
    ensures RowsStand(m, m)
  {
  }

  lemma SellerRows(s: Sys, a: Action)
    requires References(s.db.market, |s.db.wallet.balance|)
    requires Plain(a) && !(a.PlaceBidBy? || a.BotBidBy? || a.Deposit?)
    ensures RowsStand(s.db.market, Apply(s, a).db.market)
  {
    hide RowOk, OrderInsertOk, HasBids, ActiveOrders, CloseBy, Work, TopUp;
  }

  lemma CloseRows(m: Market, aid: AuctionId, now: Millis)
    requires aid in m.auctions && m.auctions[aid].status == OPEN
    ensures RowsStand(m, ClosedMarket(m, aid, now))
  {
    hide ClosedMarket, CloseResultOf;
    CloseOrders(m, aid, now);
  }

  lemma JobRows(s: Sys, a: Action)
    requires Inv(s) && !Plain(a) && !OnTask(a)
    ensures RowsStand(s.db.market, Apply(s, a).db.market)
  {
    if a.TimedClose? || a.AdminClose? {
      CloseByShape(s, a.aid, if a.TimedClose? then OpenUntil(a.now) else OpenAny(), a.now);
      if Closes(s, a) {
        CloseRows(s.db.market, a.aid, a.now);
      }
    } else if a.Retry? && a.aid in s.db.market.auctions {
      assert PayloadOk(s.db.market, a.aid);
    }
  }

  lemma CommitRows(s: Sys, o: OrderRef, winner: bool, now: Millis)
    ensures FinishPayment(s, o, winner, now).db.market.auctions == s.db.market.auctions
  {
    hide LiveBids, ReleaseAll, Disqualify;
  }

  lemma ReopenRows(db: Db, o: OrderRef, now: Millis, aid: AuctionId)
    requires aid in ReopenAuction(db, o, now).db.market.auctions
    ensures aid in db.market.auctions
    ensures var r2 := ReopenAuction(db, o, now).db.market.auctions[aid];
      r2 == db.market.auctions[aid] || (r2.status == OPEN && r2.postCloseFinalizePayload.None?)
  {
    hide IsAuctionWinner, BaselinePrice, RowOk;
  }

  /** Work on a task changes rows only by clearing or persisting a payload, or by reopening. */
  lemma WorkRows(s: Sys, a: Action, aid: AuctionId)
    requires OnTask(a) && a.task in s.tasks && aid in Work(s, a).db.market.auctions
    ensures aid in s.db.market.auctions
    ensures var r1, r2 := s.db.market.auctions[aid], Work(s, a).db.market.auctions[aid];
      || r2 == r1
      || (a == Clear(Clearing(aid)) && r2 == r1.(postCloseFinalizePayload := None))
      || (a.Persist? && a.task.Persisting? && a.task.r.auctionId == aid
            && r2 == r1.(postCloseFinalizePayload := Some(Payload.ToDbPayload(a.task.r))))
      || (a.Reopen? && r2.status == OPEN && r2.postCloseFinalizePayload.None?)
  {
    hide FinishPayment, ReopenAuction, ReleaseAll, IsAuctionWinner;
    if a.Commit? && a.task.Decided? {
      CommitRows(s, a.task.o, a.task.isAuctionWinner, a.now);
    } else if a.Reopen? && a.task.Reopening? {
      ReopenRows(s.db, a.task.o, a.now, aid);
    }
  }

  /** What an action does to the payload of an auction that is closed before and after. */
  lemma PayloadStep(s: Sys, a: Action, aid: AuctionId)
    requires Inv(s) && IsClosed(s.db.market, aid) && IsClosed(Apply(s, a).db.market, aid)
    ensures var p, p' := s.db.market.auctions[aid].postCloseFinalizePayload,
                         Apply(s, a).db.market.auctions[aid].postCloseFinalizePayload;
      || p' == p
      || (a == Clear(Clearing(aid)) && Clearing(aid) in s.tasks)
      || (a.Persist? && a.task in s.tasks && CarriesOf(a.task, aid) && p' == Some(Payload.ToDbPayload(a.task.r)))
  {
    if OnTask(a) {
      if a.task in s.tasks {
        WorkRows(s, a, aid);
      }
    } else {
      OtherRows(s, a);
    }
  }

  lemma OtherRows(s: Sys, a: Action)
    requires Inv(s) && !OnTask(a)
    ensures RowsStand(s.db.market, Apply(s, a).db.market)
  {
    if !Plain(a) {
      JobRows(s, a);
    } else if a.PlaceBidBy? || a.BotBidBy? || a.Deposit? {
      BidRows(s, a);
    } else {
      SellerRows(s, a);
    }
  }

  /** Tasks after an action that belong to a closed auction: the same ones, or their successors. */
  lemma TaskStep(s: Sys, a: Action, r: CloseResult, t: Task)
    requires Inv(s) && OnlyResult(s, r) && IsClosed(s.db.market, r.auctionId) && t in Apply(s, a).tasks
    ensures CarriesOf(t, r.auctionId) ==> t.r == r
    ensures t == Clearing(r.auctionId) && t !in s.tasks ==>
      a.Release? && a.task.Finalizing? && a.task.r == r && a.task in s.tasks
  {
    if t !in s.tasks {
      NewTask(s, a, t);
      Payload.RoundTrip(r);
    }
  }

  lemma ReleasedStay(s: Sys, a: Action, r: CloseResult)
    requires AllReleased(s, r)
    ensures AllReleased(Apply(s, a), r)
  {
    LedgerGrows(s, a);
    forall k | 0 <= k < |r.losingBids|
      ensures Releases(Apply(s, a).db.wallet.ledger, r.losingBids[k].id) > 0
    {
      ReleasesMonotone(s.db.wallet.ledger, Apply(s, a).db.wallet.ledger, r.losingBids[k].id);
    }
  }

  /** One successful release transaction settles a whole close result: each loser released exactly once. */
  lemma ReleaseSettles(s: Sys, t: Task)
    requires Inv(s) && t in s.tasks && t.Finalizing?
    ensures AllReleased(Apply(s, Release(t)), t.r)
    ensures forall k :: 0 <= k < |t.r.losingBids| ==>
      Releases(Apply(s, Release(t)).db.wallet.ledger, t.r.losingBids[k].id) == 1
  {
    assert TaskOk(s.db.market, t);
    ReleaseAllKeeps(s.db.market.bids, s.db.wallet, t.r.losingBids);
  }

  lemma OnlyResultStep(s: Sys, a: Action, r: CloseResult)
    requires Inv(s) && OnlyResult(s, r)
    requires IsClosed(s.db.market, r.auctionId) && IsClosed(Apply(s, a).db.market, r.auctionId)
    ensures OnlyResult(Apply(s, a), r)
  {
    var s' := Apply(s, a);
    forall t | t in s'.tasks
      ensures (CarriesOf(t, r.auctionId) ==> t.r == r) && (t == Clearing(r.auctionId) ==> AllReleased(s', r))
    {
      TaskStep(s, a, r, t);
      if t == Clearing(r.auctionId) {
        if t in s.tasks {
          ReleasedStay(s, a, r);
        } else {
          ReleaseSettles(s, a.task);
        }
      }
    }
    PayloadStep(s, a, r.auctionId);
  }

  lemma WorkLeaves(s: Sys, a: Action, t: Task)
    requires OnTask(a) && t in s.tasks && t != a.task
    ensures t in Work(s, a).tasks
  {
    hide FinishPayment, ReopenAuction, ReleaseLosers, SetPayload, IsAuctionWinner, Payload.ToDbPayload;
    assert t in End(s, a.task).tasks;
    if a.Commit? && a.task.Decided? {
      FinishLeaves(s, a.task.o, a.task.isAuctionWinner, a.now, t);
    }
  }

  lemma FinishLeaves(s: Sys, o: OrderRef, winner: bool, now: Millis, t: Task)
    requires t in s.tasks && t != Decided(o, winner)
    ensures t in FinishPayment(s, o, winner, now).tasks
  {
    hide PayOrder;
    assert t in End(s, Decided(o, winner)).tasks;
  }

  /** A task leaves only by its own action. */
  lemma TaskLeaves(s: Sys, a: Action, t: Task)
    requires t in s.tasks && t !in Apply(s, a).tasks
    ensures OnTask(a) && a.task == t
  {
    if OnTask(a) && a.task != t {
      WorkLeaves(s, a, t);
    }
  }

  /** A result about to be finalized is released, or handed over to be persisted. */
  lemma FinalizingStep(s: Sys, a: Action, r: CloseResult)
    requires Inv(s) && Finalizing(r, false) in s.tasks && Keeps(a, r)
    ensures Accounted(Apply(s, a), r)
  {
    hide Inv, HoldsPayload;
    var t := Finalizing(r, false);
    if t !in Apply(s, a).tasks {
      TaskLeaves(s, a, t);
      if a.Release? {
        ReleaseSettles(s, t);
      }
    }
  }

  lemma PersistingStep(s: Sys, a: Action, r: CloseResult)
    requires Persisting(r) in s.tasks && Keeps(a, r) && r.auctionId in s.db.market.auctions
    ensures Accounted(Apply(s, a), r)
  {
    hide AllReleased, Payload.ToDbPayload;
    if Persisting(r) !in Apply(s, a).tasks {
      TaskLeaves(s, a, Persisting(r));
    }
  }

  lemma AccountedStep(s: Sys, a: Action, r: CloseResult)
    requires Inv(s) && Accounted(s, r) && OnlyResult(s, r) && Keeps(a, r)
    requires IsClosed(s.db.market, r.auctionId) && IsClosed(Apply(s, a).db.market, r.auctionId)
    ensures Accounted(Apply(s, a), r)
  {
    hide Inv, Apply;
    if AllReleased(s, r) {
      ReleasedStay(s, a, r);
    } else if Finalizing(r, false) in s.tasks {
      FinalizingStep(s, a, r);
    } else if Persisting(r) in s.tasks {
      PersistingStep(s, a, r);
    } else {
      PayloadStep(s, a, r.auctionId);
    }
  }

  predicate StaysClosed(s: Sys, acts: seq<Action>, aid: AuctionId) {
    IsClosed(Exec(s, acts).db.market, aid) && (acts == [] || StaysClosed(s, acts[..|acts| - 1], aid))
  }

  /** While the auction stays closed and its result is not dropped, every run keeps the losers accounted for. */
  lemma {:induction false} NoLoserLost(s: Sys, acts: seq<Action>, r: CloseResult)
    requires Inv(s) && Accounted(s, r) && OnlyResult(s, r)
    requires StaysClosed(s, acts, r.auctionId)
    requires forall k :: 0 <= k < |acts| ==> Keeps(acts[k], r)
    ensures Accounted(Exec(s, acts), r) && OnlyResult(Exec(s, acts), r)
  {
    if acts == [] {
    } else {
      var n := |acts| - 1;
      var before := Exec(s, acts[..n]);
      NoLoserLost(s, acts[..n], r);
      RunInv(s, acts[..n]);
      StaysClosedLast(s, acts[..n], r.auctionId);
      AccountedStep(before, acts[n], r);
      OnlyResultStep(before, acts[n], r);
    }
  }

  lemma StaysClosedLast(s: Sys, acts: seq<Action>, aid: AuctionId)
    requires StaysClosed(s, acts, aid)
    ensures IsClosed(Exec(s, acts).db.market, aid)
  {
  }

  /** From the row alone the retry job recovers: it reads the payload back and releases every loser. */
  lemma RetryRecovers(s: Sys, r: CloseResult)
    requires Inv(s) && HoldsPayload(s.db.market, r) && IsClosed(s.db.market, r.auctionId)
    ensures var s1 := Apply(s, Retry(r.auctionId));
      Finalizing(r, true) in s1.tasks && AllReleased(Apply(s1, Release(Finalizing(r, true))), r)
  {
    Payload.RoundTrip(r);
    var s1 := Apply(s, Retry(r.auctionId));
    assert Finalizing(r, true) in s1.tasks;
    ApplyGood(s, Retry(r.auctionId));
    ReleaseSettles(s1, Finalizing(r, true));
  }

  lemma ReleaseThenClear(s: Sys, r: CloseResult, clearFails: bool)
    requires Finalizing(r, false) in s.tasks
    ensures var b := if clearFails then Drop(Clearing(r.auctionId)) else Clear(Clearing(r.auctionId));
      Apply(Apply(s, Release(Finalizing(r, false))), b).db
      == if clearFails then ReleaseLosers(s.db, r)
         else ReleaseLosers(s.db, r).(market := SetPayload(s.db.market, r.auctionId, None))
  {
  }

  lemma ThrowThenPersist(s: Sys, r: CloseResult, persistFails: bool)
    requires Finalizing(r, false) in s.tasks
    ensures var b := if persistFails then Drop(Persisting(r)) else Persist(Persisting(r));
      Apply(Apply(s, FinalizeThrows(Finalizing(r, false))), b).db
      == if persistFails then s.db else Persisted(s.db, r)
  {
  }

  /** `safeFinalizeAuctionClose`, whatever fails in it, is a run of the service. */
  lemma SafeFinalizeIsRun(s: Sys, r: CloseResult, fault: Fault, persistFails: bool)
    requires Finalizing(r, false) in s.tasks
    ensures exists s' :: Reaches(s, s') && s'.db == SafelyFinalized(s.db, r, fault, persistFails)
  {
    var t := Finalizing(r, false);
    if FinalizeFails(r, fault) {
      var b := if persistFails then Drop(Persisting(r)) else Persist(Persisting(r));
      ThrowThenPersist(s, r, persistFails);
      ReachesTwo(s, FinalizeThrows(t), b);
    } else {
      var b := if fault.ClearFails? then Drop(Clearing(r.auctionId)) else Clear(Clearing(r.auctionId));
      ReleaseThenClear(s, r, fault.ClearFails?);
      ReachesTwo(s, Release(t), b);
    }
  }

  // ---------------------------------------------------------------- older results under the order index

  ghost predicate HasHistory(m: Market, aid: AuctionId) {
    aid < m.nextAuction &&
    (aid in m.auctions ==>
       ClosedUnsold(m.auctions[aid]) || exists o :: o in m.orders && m.orders[o].auctionId == aid)
  }

  ghost predicate TaskHistory(m: Market, t: Task) {
    match t
    case Finalizing(r, _) => HasHistory(m, r.auctionId)
    case Persisting(r) => HasHistory(m, r.auctionId)
    case Clearing(aid) => HasHistory(m, aid)
    case _ => true
  }

  /** Whatever is still being finalized belongs to an auction that has an order or closed unsold. */
  ghost predicate HistoryInv(s: Sys) {
    && (forall t {:trigger TaskHistory(s.db.market, t)} :: t in s.tasks ==> TaskHistory(s.db.market, t))
    && (forall a :: a in s.db.market.auctions && s.db.market.auctions[a].postCloseFinalizePayload.Some? ==>
          HasHistory(s.db.market, a))
  }

  lemma HistoryStays(m1: Market, m2: Market, users: nat, aid: AuctionId)
    requires Evolves(m1, m2) && References(m1, users) && References(m2, users) && HasHistory(m1, aid)
    ensures HasHistory(m2, aid)
  {
    if aid in m2.auctions && !ClosedUnsold(m1.auctions[aid]) {
      var o :| o in m1.orders && m1.orders[o].auctionId == aid;
      assert o in m2.orders && m2.orders[o].auctionId == aid;
    }
  }

  lemma ClosedHasHistory(m: Market, users: nat, aid: AuctionId, now: Millis)
    requires References(m, users) && aid in m.auctions
    ensures HasHistory(ClosedMarket(m, aid, now), aid)
  {
    CloseOrders(m, aid, now);
    var m' := ClosedMarket(m, aid, now);
    if CloseResultOf(m, aid).winnerUserId.Some? {
      assert m.nextOrder in m'.orders && m'.orders[m.nextOrder].auctionId == aid;
    }
  }

  lemma TaskHistoryStep(s: Sys, a: Action, t: Task)
    requires Inv(s) && HistoryInv(s) && t in Apply(s, a).tasks
    ensures TaskHistory(Apply(s, a).db.market, t)
  {
    var m1, m2, users := s.db.market, Apply(s, a).db.market, |s.db.wallet.balance|;
    ApplyGood(s, a);
    assert References(m1, users) && References(m2, users) && Evolves(m1, m2);
    if t in s.tasks {
      assert TaskHistory(m1, t);
      if t.Finalizing? || t.Persisting? {
        HistoryStays(m1, m2, users, t.r.auctionId);
      } else if t.Clearing? {
        HistoryStays(m1, m2, users, t.auctionId);
      }
    } else {
      NewTask(s, a, t);
      NewTaskHistory(s, a, t);
    }
  }

  lemma NewTaskHistory(s: Sys, a: Action, t: Task)
    requires Inv(s) && HistoryInv(s) && Origin(s, a, t)
    requires Evolves(s.db.market, Apply(s, a).db.market)
    requires References(s.db.market, |s.db.wallet.balance|)
    requires References(Apply(s, a).db.market, |s.db.wallet.balance|)
    ensures TaskHistory(Apply(s, a).db.market, t)
  {
    var m1, m2, users := s.db.market, Apply(s, a).db.market, |s.db.wallet.balance|;
    if Closes(s, a) {
      ClosedHasHistory(m1, users, a.aid, a.now);
    } else if a.Retry? {
      if IsClosed(m1, a.aid) && m1.auctions[a.aid].postCloseFinalizePayload.Some? {
        HistoryStays(m1, m2, users, a.aid);
      }
    } else if OnTask(a) && a.task in s.tasks && a.task.Finalizing? {
      assert TaskHistory(m1, a.task);
      HistoryStays(m1, m2, users, a.task.r.auctionId);
    }
  }

  lemma PayloadHistoryStep(s: Sys, a: Action, aid: AuctionId)
    requires Inv(s) && HistoryInv(s)
    requires var m := Apply(s, a).db.market; aid in m.auctions && m.auctions[aid].postCloseFinalizePayload.Some?
    ensures HasHistory(Apply(s, a).db.market, aid)
  {
    var m1, m2, users := s.db.market, Apply(s, a).db.market, |s.db.wallet.balance|;
    ApplyGood(s, a);
    PayloadSource(s, a, aid);
    HistoryStays(m1, m2, users, aid);
  }

  /** A payload after an action was there before, or a process just persisted it. */
  lemma PayloadSource(s: Sys, a: Action, aid: AuctionId)
    requires Inv(s) && HistoryInv(s)
    requires var m := Apply(s, a).db.market; aid in m.auctions && m.auctions[aid].postCloseFinalizePayload.Some?
    ensures HasHistory(s.db.market, aid)
  {
    if OnTask(a) {
      if a.task in s.tasks {
        WorkRows(s, a, aid);
        assert TaskHistory(s.db.market, a.task);
      }
    } else {
      OtherRows(s, a);
    }
  }

  lemma {:induction false} RunHistory(s: Sys, acts: seq<Action>)
    requires Inv(s) && HistoryInv(s)
    ensures HistoryInv(Exec(s, acts))
  {
    if acts == [] {
    } else {
      var n := |acts| - 1;
      var before := Exec(s, acts[..n]);
      RunHistory(s, acts[..n]);
      RunInv(s, acts[..n]);
      forall t | t in Apply(before, acts[n]).tasks ensures TaskHistory(Apply(before, acts[n]).db.market, t) {
        TaskHistoryStep(before, acts[n], t);
      }
      forall a | a in Apply(before, acts[n]).db.market.auctions
          && Apply(before, acts[n]).db.market.auctions[a].postCloseFinalizePayload.Some?
        ensures HasHistory(Apply(before, acts[n]).db.market, a)
      {
        PayloadHistoryStep(before, acts[n], a);
      }
    }
  }

  /** With the one-order-per-auction index, a close that sells finds nothing older in flight, so its losers
      are accounted for from its commit on. */
  lemma FreshCloseIsOnly(s: Sys, aid: AuctionId, options: LockOptions, now: Millis)
    requires Inv(s) && HistoryInv(s) && s.db.market.uniqueOrder && options.statusOpen
    requires var tx := ExecuteClose(s.db, aid, options, now);
      tx.result.Ok? && tx.result.value.Some? && tx.result.value.value.losingBids != []
    ensures var r := CloseResultOf(s.db.market, aid); var s' := CloseBy(s, aid, options, now);
      Finalizing(r, false) in s'.tasks && Accounted(s', r) && OnlyResult(s', r) && IsClosed(s'.db.market, aid)
  {
    hide Inv, ClosedMarket, RowOk, LiveBids;
    var m, r, s' := s.db.market, CloseResultOf(s.db.market, aid), CloseBy(s, aid, options, now);
    assert r.winnerUserId.Some?;
    assert !HasHistory(m, aid);
    CloseOrders(m, aid, now);
    forall t | t in s'.tasks && CarriesOf(t, aid) ensures t.r == r {
      assert t in s.tasks ==> TaskHistory(m, t);
    }
    assert Clearing(aid) in s'.tasks ==> TaskHistory(m, Clearing(aid));
  }

  /** The property from the opening of the service on, under the schema's index: after a close that sells,
      its losers stay accounted for as long as the auction stays closed and the result is not dropped. */
  lemma LosersAccounted(s: Sys, aid: AuctionId, options: LockOptions, now: Millis, after: seq<Action>)
    requires Reachable(s) && s.db.market.uniqueOrder && options.statusOpen
    requires var tx := ExecuteClose(s.db, aid, options, now);
      tx.result.Ok? && tx.result.value.Some? && tx.result.value.value.losingBids != []
    requires var s' := CloseBy(s, aid, options, now);
      && StaysClosed(s', after, aid)
      && forall k :: 0 <= k < |after| ==> Keeps(after[k], CloseResultOf(s.db.market, aid))
    ensures Accounted(Exec(CloseBy(s, aid, options, now), after), CloseResultOf(s.db.market, aid))
  {
    ReachableInv(s);
    ReachableHistory(s);
    CloseGood(s, aid, options, now, TimedClose(aid, now));
    FreshCloseIsOnly(s, aid, options, now);
    NoLoserLost(CloseBy(s, aid, options, now), after, CloseResultOf(s.db.market, aid));
  }

  lemma ReachableHistory(s: Sys)
    requires Reachable(s)
    ensures HistoryInv(s)
  {
    var balance, index, acts :| s == Exec(Init(balance, index), acts);
    InitInv(balance, index);
    RunHistory(Init(balance, index), acts);
  }

  // ---------------------------------------------------------------- what a result lists

  predicate Lists(r: CloseResult, b: BidId) { exists k :: 0 <= k < |r.losingBids| && r.losingBids[k].id == b }

  lemma CloseListsLive(m: Market, aid: AuctionId, b: BidId)
    requires aid in m.auctions && Lists(CloseResultOf(m, aid), b)
    ensures Live(m.bids, aid, b)
  {
    var ids := LosingIds(m.bids, LiveBids(m.bids, aid), Leader(m.bids, aid));
    var k :| 0 <= k < |ids| && CloseResultOf(m, aid).losingBids[k].id == b;
    assert ids[k] in ids;
  }
}
