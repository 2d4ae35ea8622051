/** Losers that are lost: which disqualified bids some run of the service can still release, and how the money of
    the others got out of reach. */
module Losers {
  import opened Schema
  import opened WalletMoves
  import opened Transactions
  import opened MarketInvariant
  import opened DatabaseInvariant
  import opened Service
  import opened Runs
  import opened Finalize
  import opened Stuck
  import opened Outcomes
  import Payload

  predicate FinalizingLists(t: Task, b: BidId) { t.Finalizing? && Lists(t.r, b) }
  predicate PersistingLists(t: Task, b: BidId) { t.Persisting? && Lists(t.r, b) }

  predicate PayloadLists(m: Market, aid: AuctionId, b: BidId)
    requires aid in m.auctions
  {
    var p := m.auctions[aid].postCloseFinalizePayload;
    p.Some? && Payload.ParseSpec(aid, p.value).Some? && Lists(Payload.ParseSpec(aid, p.value).value, b)
  }

  /** The retry job can read the bid from a row: it takes closed rows only. */
  predicate RowLists(m: Market, aid: AuctionId, b: BidId) { IsClosed(m, aid) && PayloadLists(m, aid, b) }

  /** Somebody can still release the bid: a process about to finalize, a closed row for the retry job, or a
      process about to persist, as long as its row is closed or can still be closed. */
  ghost predicate Remembered(s: Sys, b: BidId) {
    || (exists t :: t in s.tasks && FinalizingLists(t, b))
    || (exists a :: RowLists(s.db.market, a, b))
    || (exists t :: t in s.tasks && PersistingLists(t, b) && !IsStuck(s.db.market, t.r.auctionId))
  }

  ghost predicate Unreleased(s: Sys, b: BidId) {
    b < |s.db.market.bids| && s.db.market.bids[b].disqualifiedAt.Some? && Releases(s.db.wallet.ledger, b) == 0
  }

  /** A disqualified bid still withholding its price that nobody can release any more. */
  ghost predicate Lost(s: Sys, b: BidId) { Unreleased(s, b) && !Remembered(s, b) }

  // ---------------------------------------------------------------- lost for ever

  lemma PostElsewhere(w: Wallet, e: Entry, b: BidId)
    requires e.kind == BID_RELEASE ==> e.refId != b
    ensures Releases(Post(w, e).ledger, b) == Releases(w.ledger, b)
  {
    LedgerAppend(w.ledger, e, b, 0);
  }

  lemma ConvertReleases(db: Db, o: OrderRef, now: Millis, b: BidId)
    ensures Releases(PayOrder(db, o, true, now).db.wallet.ledger, b) == Releases(db.wallet.ledger, b)
  {
    hide PaidMarket, Credit, ReleaseAll, LiveBids;
    var e1 := Entry(o.buyerUserId, -o.finalPrice, PAYMENT, o.id);
    var e2 := Entry(o.sellerUserId, o.finalPrice, ADJUSTMENT, o.id);
    PostElsewhere(db.wallet, e1, b);
    PostElsewhere(ConvertHoldToPayment(db.wallet, o.buyerUserId, o.finalPrice, o.id), e2, b);
  }

  lemma DirectReleasesNoOther(db: Db, o: OrderRef, now: Millis, b: BidId)
    requires b < |db.market.bids| && db.market.bids[b].disqualifiedAt.Some?
    ensures Releases(PayOrder(db, o, false, now).db.wallet.ledger, b) == Releases(db.wallet.ledger, b)
  {
    hide PaidMarket, Credit;
    var w, bids := db.wallet, db.market.bids;
    var e1 := Entry(o.buyerUserId, -o.finalPrice, PAYMENT, o.id);
    var e2 := Entry(o.sellerUserId, o.finalPrice, ADJUSTMENT, o.id);
    PostElsewhere(w, e1, b);
    var ls := Listed(bids, LiveBids(bids, o.auctionId));
    forall k | 0 <= k < |ls| ensures ls[k].id != b {
      assert ls[k].id in LiveBids(bids, o.auctionId);
    }
    ReleaseAllElsewhere(Post(w, e1), ls, b);
    PostElsewhere(ReleaseAll(Post(w, e1), ls), e2, b);
  }

  lemma CommitReleases(db: Db, o: OrderRef, winner: bool, now: Millis, b: BidId)
    requires b < |db.market.bids| && db.market.bids[b].disqualifiedAt.Some?
    ensures Releases(PayOrder(db, o, winner, now).db.wallet.ledger, b) == Releases(db.wallet.ledger, b)
  {
    hide PayOrder;
    if winner {
      ConvertReleases(db, o, now, b);
    } else {
      DirectReleasesNoOther(db, o, now, b);
    }
  }

  lemma ReopenReleases(db: Db, o: OrderRef, now: Millis, b: BidId)
    requires b < |db.market.bids| && db.market.bids[b].disqualifiedAt.Some?
    ensures Releases(ReopenAuction(db, o, now).db.wallet.ledger, b) == Releases(db.wallet.ledger, b)
  {
    var live := LiveBids(db.market.bids, o.auctionId);
    HeadIsMember(live);
    if live != [] {
      var t := live[0];
      PostElsewhere(db.wallet, Entry(db.market.bids[t].userId, db.market.bids[t].bidPrice, BID_RELEASE, t), b);
    }
  }

  lemma BidReleases(db: Db, aid: AuctionId, user: UserId, price: int, now: Millis, b: BidId)
    ensures Releases(PlaceBid(db, aid, user, price, now).db.wallet.ledger, b) == Releases(db.wallet.ledger, b)
    ensures Releases(PlaceBidAsBot(db, aid, user, price, now).db.wallet.ledger, b) == Releases(db.wallet.ledger, b)
  {
    PostElsewhere(db.wallet, Entry(user, -price, BID_HOLD, |db.market.bids|), b);
  }

  lemma LostWork(s: Sys, a: Action, b: BidId)
    requires Lost(s, b) && OnTask(a) && a.task in s.tasks
    ensures Releases(Work(s, a).db.wallet.ledger, b) == 0
  {
    hide PayOrder, ReopenAuction, IsStuck, RowLists, SetPayload, Payload.ToDbPayload, IsAuctionWinner;
    if a.Release? && a.task.Finalizing? {
      assert !FinalizingLists(a.task, b);
      ReleaseAllElsewhere(s.db.wallet, a.task.r.losingBids, b);
    } else if a.Commit? && a.task.Decided? {
      CommitReleases(s.db, a.task.o, a.task.isAuctionWinner, a.now, b);
    } else if a.Reopen? && a.task.Reopening? {
      ReopenReleases(s.db, a.task.o, a.now, b);
    }
  }

  lemma LostUnreleased(s: Sys, a: Action, b: BidId)
    requires Lost(s, b)
    ensures Releases(Apply(s, a).db.wallet.ledger, b) == 0
  {
    hide RowOk, BidError, CloseResultOf, ClosedMarket, BoughtMarket, BidMarket, Patched, ActiveOrders, HasBids;
    hide Work, Remembered, PlaceBid, PlaceBidAsBot;
    if a.PlaceBidBy? || a.BotBidBy? {
      BidReleases(s.db, a.aid, a.user, a.price, a.now, b);
    } else if OnTask(a) && a.task in s.tasks {
      LostWork(s, a, b);
    }
  }

  /** A new task that lists the bid comes from something that listed it before. */
  lemma LostTasks(s: Sys, a: Action, b: BidId, t: Task)
    requires Lost(s, b) && t in Apply(s, a).tasks && t !in s.tasks
    ensures !FinalizingLists(t, b) && !PersistingLists(t, b)
  {
    hide Apply, IsStuck, ClosedMarket, CloseResultOf, Payload.ParseSpec;
    NewTask(s, a, t);
    if Closes(s, a) {
      if Lists(CloseResultOf(s.db.market, a.aid), b) {
        CloseListsLive(s.db.market, a.aid, b);
      }
    } else if a.Retry? {
      assert !RowLists(s.db.market, a.aid, b);
    } else if OnTask(a) && a.task in s.tasks {
      assert !FinalizingLists(a.task, b);
    }
  }

  lemma LostRows(s: Sys, a: Action, b: BidId, aid: AuctionId)
    requires Inv(s) && Lost(s, b)
    ensures !RowLists(Apply(s, a).db.market, aid, b)
  {
    hide IsStuck, Work;
    assert !RowLists(s.db.market, aid, b);
    if !IsClosed(Apply(s, a).db.market, aid) {
    } else if OnTask(a) {
      if a.task in s.tasks {
        WorkRows(s, a, aid);
        if a.task.Persisting? {
          Payload.RoundTrip(a.task.r);
          if Lists(a.task.r, b) {
            PersistingOnOpen(s, a.task, b);
          }
        }
      }
    } else {
      OtherRows(s, a);
    }
  }

  /** A process that is about to persist a lost bid will do so on an open row. */
  lemma PersistingOnOpen(s: Sys, t: Task, b: BidId)
    requires Lost(s, b) && t in s.tasks && PersistingLists(t, b)
    ensures IsStuck(s.db.market, t.r.auctionId) && IsOpen(s.db.market, t.r.auctionId)
  {
  }

  lemma LostStep(s: Sys, a: Action, b: BidId)
    requires Inv(s) && Lost(s, b)
    ensures Lost(Apply(s, a), b)
  {
    hide Apply, IsStuck, RowLists, Inv, FinalizingLists;
    var s' := Apply(s, a);
    LostUnreleased(s, a, b);
    StaysDisqualified(s, a, b);
    forall t | t in s'.tasks
      ensures !FinalizingLists(t, b) && (PersistingLists(t, b) ==> IsStuck(s'.db.market, t.r.auctionId))
    {
      if t !in s.tasks {
        LostTasks(s, a, b, t);
      } else if PersistingLists(t, b) {
        PersistingOnOpen(s, t, b);
        StuckStep(s, a, t.r.auctionId);
      }
    }
    forall x ensures !RowLists(s'.db.market, x, b) {
      LostRows(s, a, b, x);
    }
  }

  lemma StaysDisqualified(s: Sys, a: Action, b: BidId)
    requires Inv(s) && b < |s.db.market.bids| && s.db.market.bids[b].disqualifiedAt.Some?
    ensures b < |Apply(s, a).db.market.bids| && Apply(s, a).db.market.bids[b].disqualifiedAt.Some?
    ensures Apply(s, a).db.market.bids[b].auctionId == s.db.market.bids[b].auctionId
  {
    hide Apply;
    ApplyGood(s, a);
  }

  /** Lost is for ever: in no later run does the bid's money come back. */
  lemma {:induction false} LostForever(s: Sys, acts: seq<Action>, b: BidId)
    requires Inv(s) && Lost(s, b)
    ensures Lost(Exec(s, acts), b)
  {
    hide Apply, Lost, Inv;
    if acts == [] {
    } else {
      var n := |acts| - 1;
      RunInv(s, acts[..n]);
      LostForever(s, acts[..n], b);
      LostStep(Exec(s, acts[..n]), acts[n], b);
    }
  }

  // ---------------------------------------------------------------- every other loser can be released

  ghost predicate Released(s: Sys, b: BidId) { Releases(s.db.wallet.ledger, b) > 0 }

  /** Some run releases the bid. */
  ghost predicate Recoverable(s: Sys, b: BidId) { exists s' :: Reaches(s, s') && Released(s', b) }

  lemma ReachesThen(s: Sys, s1: Sys, s2: Sys)
    requires Reaches(s, s1) && Reaches(s1, s2)
    ensures Reaches(s, s2)
  {
    var more :| Exec(s1, more) == s2;
    ReachesAll(s, s1, more);
  }

  lemma {:induction false} ReachesAll(s: Sys, s1: Sys, more: seq<Action>)
    requires Reaches(s, s1)
    ensures Reaches(s, Exec(s1, more))
  {
    hide Apply, Reaches;
    if more == [] {
    } else {
      ReachesAll(s, s1, more[..|more| - 1]);
      ReachesNext(s, Exec(s1, more[..|more| - 1]), more[|more| - 1]);
    }
  }

  lemma FinalizingRecovers(s: Sys, t: Task, b: BidId)
    requires Inv(s) && t in s.tasks && FinalizingLists(t, b)
    ensures Recoverable(s, b)
  {
    hide Inv, Apply, Reaches;
    ReleaseSettles(s, t);
    ReachesItself(s);
    ReachesNext(s, s, Release(t));
    assert Released(Apply(s, Release(t)), b);
  }

  lemma RowRecovers(s: Sys, aid: AuctionId, b: BidId)
    requires Inv(s) && RowLists(s.db.market, aid, b)
    ensures Recoverable(s, b)
  {
    hide Reaches, DbInv;
    assert PayloadOk(s.db.market, aid);
    var r := Payload.ParseSpec(aid, s.db.market.auctions[aid].postCloseFinalizePayload.value).value;
    var s1 := Apply(s, Retry(aid));
    assert Finalizing(r, true) in s1.tasks;
    RetryGood(s, Retry(aid));
    ReachesItself(s);
    ReachesNext(s, s, Retry(aid));
    FinalizingRecovers(s1, Finalizing(r, true), b);
    var s2 :| Reaches(s1, s2) && Released(s2, b);
    ReachesThen(s, s1, s2);
  }

  /** Persisting onto a closed row puts the bid where the retry job finds it. */
  lemma PersistingRecovers(s: Sys, t: Task, b: BidId)
    requires Inv(s) && t in s.tasks && PersistingLists(t, b) && IsClosed(s.db.market, t.r.auctionId)
    ensures Recoverable(s, b)
  {
    hide Reaches, Inv;
    var s1 := Apply(s, Persist(t));
    Payload.RoundTrip(t.r);
    assert RowLists(s1.db.market, t.r.auctionId, b);
    ApplyGood(s, Persist(t));
    ReachesItself(s);
    ReachesNext(s, s, Persist(t));
    RowRecovers(s1, t.r.auctionId, b);
    var s2 :| Reaches(s1, s2) && Released(s2, b);
    ReachesThen(s, s1, s2);
  }

  /** An open auction that is not stuck can be closed: by an administrator, or, if a bid above the buy-now price
      jams it, by a buy-now. */
  function Ending(m: Market, aid: AuctionId, user: UserId, jammed: bool): Action
    requires aid in m.auctions
  {
    var row := m.auctions[aid];
    if jammed && row.buyNowPrice.Some? then Buy(aid, user, row.buyNowPrice.value, row.endTime - 1)
    else AdminClose(aid, row.endTime)
  }

  lemma EndsBySale(s: Sys, aid: AuctionId, user: UserId)
    requires Inv(s) && IsOpen(s.db.market, aid) && !IsStuck(s.db.market, aid) && user < |s.db.wallet.balance|
    requires Jammed(s.db.market, aid)
    ensures IsClosed(Apply(s, Ending(s.db.market, aid, user, true)).db.market, aid)
  {
    hide WalletInv, Coupled, Settled, TaskOk, PayloadOk;
    var m, row := s.db.market, s.db.market.auctions[aid];
    assert AuctionInv(m, |s.db.wallet.balance|, aid);
    assert !(m.uniqueOrder && HadOrder(m, aid)) by {
      var i: BidId :| Live(m.bids, aid, i);
      assert i in LiveBids(m.bids, aid);
    }
    assert OrderInsertOk(m, aid);
    assert BuyNow(s.db, aid, user, row.buyNowPrice.value, row.endTime - 1).result.Ok?;
  }

  lemma EndsByClose(s: Sys, aid: AuctionId, user: UserId)
    requires Inv(s) && IsOpen(s.db.market, aid) && !IsStuck(s.db.market, aid) && !Jammed(s.db.market, aid)
    ensures IsClosed(Apply(s, Ending(s.db.market, aid, user, false)).db.market, aid)
  {
    hide DbInv, ClosedMarket, CloseResultOf, IsStuck, Jammed, RowOk, OrderInsertOk;
    CloseFailsIff(s.db, aid, OpenAny(), s.db.market.auctions[aid].endTime);
    CloseOrders(s.db.market, aid, s.db.market.auctions[aid].endTime);
  }

  lemma OpenRecovers(s: Sys, t: Task, b: BidId)
    requires Inv(s) && t in s.tasks && PersistingLists(t, b) && IsOpen(s.db.market, t.r.auctionId)
    requires !IsStuck(s.db.market, t.r.auctionId)
    ensures Recoverable(s, b)
  {
    hide Apply, Reaches, Inv, IsStuck, Jammed;
    var aid, user := t.r.auctionId, BidderOf(s, t, b);
    var a := Ending(s.db.market, aid, user, Jammed(s.db.market, aid));
    if Jammed(s.db.market, aid) {
      EndsBySale(s, aid, user);
    } else {
      EndsByClose(s, aid, user);
    }
    var s1 := Apply(s, a);
    assert t in s1.tasks by {
      if t !in s1.tasks { TaskLeaves(s, a, t); }
    }
    ApplyGood(s, a);
    ReachesItself(s);
    ReachesNext(s, s, a);
    PersistingRecovers(s1, t, b);
    var s2 :| Reaches(s1, s2) && Released(s2, b);
    ReachesThen(s, s1, s2);
  }

  ghost function BidderOf(s: Sys, t: Task, b: BidId): (user: UserId)
    requires Inv(s) && t in s.tasks && PersistingLists(t, b)
    ensures user < |s.db.wallet.balance|
  {
    assert TaskOk(s.db.market, t);
    s.db.market.bids[b].userId
  }

  lemma RememberedRecovers(s: Sys, b: BidId)
    requires Inv(s) && Remembered(s, b)
    ensures Recoverable(s, b)
  {
    hide Inv, Recoverable, IsStuck, FinalizingLists, RowLists;
    if t :| t in s.tasks && FinalizingLists(t, b) {
      FinalizingRecovers(s, t, b);
    } else if aid :| RowLists(s.db.market, aid, b) {
      RowRecovers(s, aid, b);
    } else {
      var t :| t in s.tasks && PersistingLists(t, b) && !IsStuck(s.db.market, t.r.auctionId);
      ListingHasAuction(s, t, b);
      if IsOpen(s.db.market, t.r.auctionId) {
        OpenRecovers(s, t, b);
      } else {
        PersistingRecovers(s, t, b);
      }
    }
  }

  /** The auction of a listed bid is there: an auction with bids is never deleted. */
  lemma ListingHasAuction(s: Sys, t: Task, b: BidId)
    requires Inv(s) && t in s.tasks && PersistingLists(t, b)
    ensures t.r.auctionId in s.db.market.auctions
    ensures b < |s.db.market.bids| && s.db.market.bids[b].auctionId == t.r.auctionId
  {
    assert TaskOk(s.db.market, t);
  }

  lemma RowHasAuction(s: Sys, aid: AuctionId, b: BidId)
    requires Inv(s) && aid in s.db.market.auctions && PayloadLists(s.db.market, aid, b)
    ensures b < |s.db.market.bids| && s.db.market.bids[b].auctionId == aid
  {
    assert PayloadOk(s.db.market, aid);
  }

  /** Exactly the lost losers are out of reach: a disqualified, unreleased bid is released by some run of the
      service if and only if somebody remembers it. */
  lemma LostIff(s: Sys, b: BidId)
    requires Inv(s) && Unreleased(s, b)
    ensures Lost(s, b) <==> !Recoverable(s, b)
  {
    hide Inv, Remembered, Reaches;
    if Lost(s, b) {
      forall s' | Reaches(s, s') ensures !Released(s', b) {
        LostReached(s, s', b);
      }
    } else {
      RememberedRecovers(s, b);
    }
  }

  lemma LostReached(s: Sys, s': Sys, b: BidId)
    requires Inv(s) && Lost(s, b) && Reaches(s, s')
    ensures !Released(s', b)
  {
    hide Inv, Remembered;
    var acts :| Exec(s, acts) == s';
    LostForever(s, acts, b);
  }

  // ---------------------------------------------------------------- how losers get lost

  /** The reopening in question commits, and the tables are those of its transaction. */
  lemma ReopenedState(s: Sys, o: OrderRef, now: Millis)
    requires Reopening(o) in s.tasks && Reopens(s.db.market, o) && ReopenRowOk(s.db.market, o, now)
    ensures var s' := Apply(s, Reopen(Reopening(o), now));
      && s'.db == ReopenAuction(s.db, o, now).db && s'.db.market == ReopenedMarket(s.db.market, o, now)
      && s' == End(s, Reopening(o)).(db := s'.db) && IsOpen(s'.db.market, o.auctionId)
      && forall t :: t in s'.tasks && !t.Reopening? <==> t in s.tasks && !t.Reopening?
  {
    hide ReopenedMarket, IsAuctionWinner, BaselinePrice;
    assert IsOpen(ReopenedMarket(s.db.market, o, now), o.auctionId) by { ReopenedOpen(s.db.market, o, now); }
  }

  lemma ReopenedOpen(m: Market, o: OrderRef, now: Millis)
    requires Reopens(m, o)
    ensures IsOpen(ReopenedMarket(m, o, now), o.auctionId)
  {
  }

  /** No payload of another auction lists the bid, and none of an open auction counts. */
  lemma NoRowLists(s: Sys, aid: AuctionId, b: BidId)
    requires Inv(s) && IsOpen(s.db.market, aid) && b < |s.db.market.bids| && s.db.market.bids[b].auctionId == aid
    ensures forall x :: !RowLists(s.db.market, x, b)
  {
    hide Inv, PayloadLists;
    forall x ensures !RowLists(s.db.market, x, b) {
      if RowLists(s.db.market, x, b) {
        RowHasAuction(s, x, b);
      }
    }
  }

  /** On an open auction only the processes remember a disqualified bid. */
  lemma LostOnOpen(s: Sys, aid: AuctionId, b: BidId)
    requires Inv(s) && IsOpen(s.db.market, aid) && Unreleased(s, b) && s.db.market.bids[b].auctionId == aid
    ensures Lost(s, b) <==>
      && (forall t :: t in s.tasks ==> !FinalizingLists(t, b))
      && (IsStuck(s.db.market, aid) || forall t :: t in s.tasks ==> !PersistingLists(t, b))
  {
    hide Inv, IsStuck, RowLists, FinalizingLists;
    NoRowLists(s, aid, b);
    forall t | t in s.tasks && PersistingLists(t, b) ensures t.r.auctionId == aid {
      ListingHasAuction(s, t, b);
    }
    if t :| t in s.tasks && PersistingLists(t, b) {
      assert t.r.auctionId == aid;
    }
  }

  lemma ReopenedUnreleased(s: Sys, o: OrderRef, now: Millis, b: BidId)
    requires Reopens(s.db.market, o) && ReopenRowOk(s.db.market, o, now) && Reopening(o) in s.tasks
    requires b < |s.db.market.bids| && s.db.market.bids[b].disqualifiedAt.Some?
    ensures var s' := Apply(s, Reopen(Reopening(o), now));
      && (Unreleased(s', b) <==> Unreleased(s, b))
      && b < |s'.db.market.bids| && s'.db.market.bids[b].auctionId == s.db.market.bids[b].auctionId
  {
    hide Apply, ReopenAuction, IsAuctionWinner, BaselinePrice;
    ReopenedState(s, o, now);
    ReopenReleases(s.db, o, now, b);
    ReopenBids(s.db.market, o, now);
  }

  /** What a reopening loses: it nulls the payload, so a disqualified bid of the auction is lost by it exactly
      if it is unreleased, no process is about to finalize it, and a process still about to persist it, if
      there is one, will find a stuck auction. */
  ghost predicate LosesBy(s: Sys, o: OrderRef, now: Millis, b: BidId)
    requires Reopens(s.db.market, o)
  {
    && Unreleased(s, b)
    && (forall t :: t in s.tasks ==> !FinalizingLists(t, b))
    && (IsStuck(ReopenedMarket(s.db.market, o, now), o.auctionId)
        || forall t :: t in s.tasks ==> !PersistingLists(t, b))
  }

  lemma ReopeningLoses(s: Sys, o: OrderRef, now: Millis, b: BidId)
    requires Inv(s) && Reopening(o) in s.tasks && Reopens(s.db.market, o) && ReopenRowOk(s.db.market, o, now)
    requires b < |s.db.market.bids| && s.db.market.bids[b].disqualifiedAt.Some?
    requires s.db.market.bids[b].auctionId == o.auctionId
    ensures Lost(Apply(s, Reopen(Reopening(o), now)), b) <==> LosesBy(s, o, now, b)
  {
    hide Inv, Apply, Remembered, IsStuck, ReopenedMarket, ReopenAuction, ReopenRowOk, FinalizingLists, PersistingLists;
    hide Unreleased;
    var s' := Apply(s, Reopen(Reopening(o), now));
    ReopenedState(s, o, now);
    ReopenedUnreleased(s, o, now, b);
    ReopenGoodAfter(s, o, now);
    if Unreleased(s, b) {
      LostOnOpen(s', o.auctionId, b);
      SameListings(s, s', b);
    }
  }

  lemma ReopenGoodAfter(s: Sys, o: OrderRef, now: Millis)
    requires Inv(s)
    ensures Inv(Apply(s, Reopen(Reopening(o), now)))
  {
    ApplyGood(s, Reopen(Reopening(o), now));
  }

  lemma SameListings(s: Sys, s': Sys, b: BidId)
    requires forall t :: t in s'.tasks && !t.Reopening? <==> t in s.tasks && !t.Reopening?
    ensures (forall t :: t in s'.tasks ==> !FinalizingLists(t, b)) <==>
      (forall t :: t in s.tasks ==> !FinalizingLists(t, b))
    ensures (forall t :: t in s'.tasks ==> !PersistingLists(t, b)) <==>
      (forall t :: t in s.tasks ==> !PersistingLists(t, b))
  {
  }

  /** What a persist loses: it has no guard on the status, so a payload can land on an open row, where the retry
      job never reads it.  The bids it lists are lost by it exactly if the row is open and nobody else remembers
      them; on a closed row it loses none. */
  lemma PersistingLoses(s: Sys, t: Task, b: BidId)
    requires Inv(s) && t in s.tasks && PersistingLists(t, b)
    ensures Lost(Apply(s, Persist(t)), b) <==> IsOpen(s.db.market, t.r.auctionId) && Lost(End(s, t), b)
  {
    hide Inv, IsStuck, Payload.ToDbPayload, FinalizingLists;
    var aid, s', rest := t.r.auctionId, Apply(s, Persist(t)), End(s, t);
    ListingHasAuction(s, t, b);
    assert s' == SavePayload(rest, aid, Some(Payload.ToDbPayload(t.r)));
    if IsOpen(s.db.market, aid) {
      ApplyGood(s, Persist(t));
      EndInv(s, t);
      PersistKeepsStuck(s, t);
      if Unreleased(s, b) {
        LostOnOpen(s', aid, b);
        LostOnOpen(rest, aid, b);
      }
    } else {
      Payload.RoundTrip(t.r);
      assert RowLists(s'.db.market, aid, b);
    }
  }

  lemma EndInv(s: Sys, t: Task)
    requires Inv(s)
    ensures Inv(End(s, t))
  {
  }

  lemma PersistKeepsStuck(s: Sys, t: Task)
    requires t in s.tasks && t.Persisting?
    ensures IsStuck(Apply(s, Persist(t)).db.market, t.r.auctionId) <==> IsStuck(s.db.market, t.r.auctionId)
  {
  }

  // ---------------------------------------------------------------- payloads on open rows

  predicate Persists(a: Action, aid: AuctionId) { a.Persist? && a.task.Persisting? && a.task.r.auctionId == aid }

  predicate NoPersist(acts: seq<Action>, aid: AuctionId) { forall k :: 0 <= k < |acts| ==> !Persists(acts[k], aid) }

  /** The retry job finds something on the row. */
  predicate Retryable(m: Market, aid: AuctionId) {
    IsClosed(m, aid) && m.auctions[aid].postCloseFinalizePayload.Some?
  }

  lemma NotRetryableStep(s: Sys, a: Action, aid: AuctionId)
    requires Inv(s) && !Retryable(s.db.market, aid) && !Persists(a, aid)
    ensures !Retryable(Apply(s, a).db.market, aid)
  {
    hide Work;
    if OnTask(a) {
      if a.task in s.tasks && aid in Work(s, a).db.market.auctions {
        WorkRows(s, a, aid);
      }
    } else {
      OtherRows(s, a);
    }
  }

  /** A payload on an open row is dead: the next close nulls it, so until a process persists another one for the
      auction the retry job finds nothing there, in any run. */
  lemma {:induction false} OpenPayloadIsDead(s: Sys, acts: seq<Action>, aid: AuctionId)
    requires Inv(s) && IsOpen(s.db.market, aid) && NoPersist(acts, aid)
    ensures !Retryable(Exec(s, acts).db.market, aid)
  {
    hide Apply, Inv, Persists;
    if acts == [] {
    } else {
      var n := |acts| - 1;
      assert NoPersist(acts[..n], aid);
      OpenPayloadIsDead(s, acts[..n], aid);
      RunInv(s, acts[..n]);
      NotRetryableStep(Exec(s, acts[..n]), acts[n], aid);
    }
  }

  /** And on a stuck auction no payload is ever retried again, persisted or not: it never closes. */
  lemma StuckNeverRetried(s: Sys, acts: seq<Action>, aid: AuctionId)
    requires Inv(s) && IsStuck(s.db.market, aid)
    ensures !Retryable(Exec(s, acts).db.market, aid)
  {
    hide Inv, Exec;
    HeadIsMember(LiveBids(s.db.market.bids, aid));
    StuckForever(s, acts, aid, LiveBids(s.db.market.bids, aid)[0]);
  }
}
