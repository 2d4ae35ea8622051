/** What the timeout job gets done: at which orders it throws, what it leaves behind there, and that it throws
    there again at every hour until the order is paid. */
module TimeoutJob {
  import opened Schema
  import opened Transactions
  import opened MarketInvariant
  import opened DatabaseInvariant
  import opened Service
  import opened Runs
  import opened Locality
  import opened Payments
  import opened Jobs

  // ---------------------------------------------------------------- one job

  /** What `findExpiredPending` answers, in whatever order: orders that are pending, each once. */
  ghost predicate ExpiredOrders(m: Market, expired: seq<OrderRef>) {
    && (forall k :: 0 <= k < |expired| ==> RefOk(m, expired[k]) && Pending(m, expired[k].id))
    && (forall j, k :: 0 <= j < k < |expired| ==> expired[j].id != expired[k].id)
  }

  /** Cancelled, and its auction open again. */
  predicate IsReopened(m: Market, o: OrderRef) {
    && o.id in m.orders && m.orders[o.id].status == CANCELLED && m.orders[o.id].auctionId == o.auctionId
    && o.auctionId in m.auctions && m.auctions[o.auctionId].status == OPEN
  }

  lemma UntouchedAbove(m: Market, m': Market, aid: AuctionId)
    requires Untouched(m, m', aid)
    ensures AboveBuyNow(m', aid) <==> AboveBuyNow(m, aid)
  {
    forall i: BidId ensures Live(m'.bids, aid, i) <==> Live(m.bids, aid, i) {
    }
  }

  lemma UntouchedPending(m: Market, m': Market, users: nat, o: OrderRef)
    requires Untouched(m, m', o.auctionId) && References(m', users) && RefOk(m, o) && Pending(m, o.id)
    ensures RefOk(m', o) && Pending(m', o.id)
  {
  }

  /** Two pending orders belong to two auctions. */
  lemma ApartAuctions(m: Market, users: nat, expired: seq<OrderRef>, j: nat, k: nat)
    requires MarketInv(m, users) && ExpiredOrders(m, expired) && j < |expired| && k < |expired| && j != k
    ensures expired[j].auctionId != expired[k].auctionId
  {
    PendingMeans(m, users, expired[j].id);
    PendingMeans(m, users, expired[k].id);
    assert expired[j].id in ActiveOrders(m, expired[j].auctionId);
    assert expired[k].id in ActiveOrders(m, expired[k].auctionId);
  }

  lemma OthersUntouched(db: Db, o: OrderRef, now: Millis, x: AuctionId)
    requires References(db.market, |db.wallet.balance|) && RefOk(db.market, o)
    requires x in db.market.auctions && x != o.auctionId
    ensures Untouched(db.market, ReopenAuction(db, o, now).db.market, x)
  {
    hide RefOk, References, Untouched, ReopenRowOk, IsAuctionWinner;
    Itself(db.market, x);
    if Reopens(db.market, o) {
      ReopenElsewhere(db.market, |db.wallet.balance|, o, now);
      assert x in ReopenedMarket(db.market, o, now).auctions;
    }
  }

  /** The reopening of one pending order. */
  lemma OneReopening(db: Db, o: OrderRef, now: Millis)
    requires DbInv(db) && RefOk(db.market, o) && Pending(db.market, o.id)
    ensures var tx := ReopenAuction(db, o, now);
      && DbInv(tx.db) && |tx.db.wallet.balance| == |db.wallet.balance|
      && (tx.result.Err? <==> AboveBuyNow(db.market, o.auctionId))
      && if tx.result.Err? then tx.db == db else IsReopened(tx.db.market, o)
  {
    hide DbInv, MarketInv, ReopenRowOk, AboveBuyNow, IsAuctionWinner, BaselinePrice, Evolves;
    ReopenKeepsDb(db, o, now);
    ReopenRefusedIff(db, o, now);
    assert MarketInv(db.market, |db.wallet.balance|) by { TablesInv(db); }
    PendingMeans(db.market, |db.wallet.balance|, o.id);
  }

  lemma TablesInv(db: Db)
    requires DbInv(db)
    ensures MarketInv(db.market, |db.wallet.balance|) && References(db.market, |db.wallet.balance|)
  {
  }

  /** After any number of orders, an auction whose turn did not come is as the job found it. */
  lemma {:induction false} ReopeningsLeave(db: Db, expired: seq<OrderRef>, times: seq<Millis>, n: nat, x: AuctionId)
    requires DbInv(db) && ExpiredOrders(db.market, expired) && n <= |expired| == |times|
    requires x in db.market.auctions && forall j :: 0 <= j < n ==> expired[j].auctionId != x
    ensures var db' := ReopenedUpTo(db, expired, times, n);
      DbInv(db') && |db'.wallet.balance| == |db.wallet.balance| && Untouched(db.market, db'.market, x)
  {
    hide DbInv, RefOk, ReopenAuction, Pending, SameButPayload, AboveBuyNow;
    if n == 0 {
      Itself(db.market, x);
    } else {
      var db1 := ReopenedUpTo(db, expired, times, n - 1);
      ReopeningsLeave(db, expired, times, n - 1, x);
      TurnFinds(db, expired, times, n - 1);
      OneReopening(db1, expired[n - 1], times[n - 1]);
      TablesInv(db1);
      OthersUntouched(db1, expired[n - 1], times[n - 1], x);
      UntouchedTransitive(db.market, db1.market, ReopenAuction(db1, expired[n - 1], times[n - 1]).db.market, x);
    }
  }

  /** Each order's turn finds it pending, on an auction as it was. */
  lemma {:induction false} TurnFinds(db: Db, expired: seq<OrderRef>, times: seq<Millis>, n: nat)
    requires DbInv(db) && ExpiredOrders(db.market, expired) && n < |expired| == |times|
    ensures var db', o := ReopenedUpTo(db, expired, times, n), expired[n];
      && DbInv(db') && |db'.wallet.balance| == |db.wallet.balance| && Untouched(db.market, db'.market, o.auctionId)
      && RefOk(db'.market, o) && Pending(db'.market, o.id)
      && (AboveBuyNow(db'.market, o.auctionId) <==> AboveBuyNow(db.market, o.auctionId))
  {
    hide DbInv, ReopenedUpTo, RefOk, Untouched, Pending, References, MarketInv, AboveBuyNow;
    var o, users := expired[n], |db.wallet.balance|;
    TablesInv(db);
    forall j | 0 <= j < n ensures expired[j].auctionId != o.auctionId {
      ApartAuctions(db.market, users, expired, j, n);
    }
    assert o.auctionId in db.market.auctions by { PendingMeans(db.market, users, o.id); RefAuction(db.market, o); }
    ReopeningsLeave(db, expired, times, n, o.auctionId);
    var db' := ReopenedUpTo(db, expired, times, n);
    TablesInv(db');
    UntouchedPending(db.market, db'.market, users, o);
    UntouchedAbove(db.market, db'.market, o.auctionId);
  }

  lemma RefAuction(m: Market, o: OrderRef)
    requires RefOk(m, o) && Pending(m, o.id)
    ensures o.auctionId == m.orders[o.id].auctionId && o.auctionId in m.auctions
  {
  }

  /** The job that got to an order throws there exactly when that order's auction had a live bid above its
      buy-now price to begin with. */
  lemma ThrowsIff(db: Db, expired: seq<OrderRef>, times: seq<Millis>, n: nat)
    requires DbInv(db) && ExpiredOrders(db.market, expired) && n < |expired| == |times|
    ensures ThrowsAt(db, expired, times, n) <==> AboveBuyNow(db.market, expired[n].auctionId)
  {
    hide DbInv, ReopenedUpTo, AboveBuyNow, ReopenAuction, RefOk, Pending, Untouched, IsReopened;
    TurnFinds(db, expired, times, n);
    OneReopening(ReopenedUpTo(db, expired, times, n), expired[n], times[n]);
  }

  lemma UntouchedReopened(m: Market, m': Market, o: OrderRef)
    requires Untouched(m, m', o.auctionId) && IsReopened(m, o)
    ensures IsReopened(m', o)
  {
  }

  /** What the job reopened stays so while it goes on. */
  lemma {:induction false} ReopenedStays(db: Db, expired: seq<OrderRef>, times: seq<Millis>, j: nat, n: nat)
    requires DbInv(db) && ExpiredOrders(db.market, expired) && j < n <= |expired| == |times|
    requires !ThrowsAt(db, expired, times, j)
    ensures IsReopened(ReopenedUpTo(db, expired, times, n).market, expired[j])
  {
    hide DbInv, RefOk, Pending, Untouched, IsReopened, ReopenAuction, AboveBuyNow, MarketInv, References;
    var db1, o := ReopenedUpTo(db, expired, times, n - 1), expired[n - 1];
    TurnFinds(db, expired, times, n - 1);
    OneReopening(db1, o, times[n - 1]);
    if j == n - 1 {
    } else {
      ReopenedStays(db, expired, times, j, n - 1);
      TablesInv(db);
      TablesInv(db1);
      ApartAuctions(db.market, |db.wallet.balance|, expired, j, n - 1);
      ReopenedAuction(db1.market, expired[j]);
      OthersUntouched(db1, o, times[n - 1], expired[j].auctionId);
      UntouchedReopened(db1.market, ReopenAuction(db1, o, times[n - 1]).db.market, expired[j]);
    }
  }

  lemma ReopenedAuction(m: Market, o: OrderRef)
    requires IsReopened(m, o)
    ensures o.auctionId in m.auctions
  {
  }

  /** The outcome of one job: it reopens the orders of the list up to the first whose auction has a live bid above
      its buy-now price, and leaves that one and everything behind it as it was. */
  lemma JobOutcome(db: Db, expired: seq<OrderRef>, times: seq<Millis>, done: nat)
    requires DbInv(db) && ExpiredOrders(db.market, expired) && |expired| == |times|
    requires StopsAfter(db, expired, times, done)
    ensures var m' := ReopenedUpTo(db, expired, times, done).market;
      && (forall j :: 0 <= j < done ==> !AboveBuyNow(db.market, expired[j].auctionId) && IsReopened(m', expired[j]))
      && (done < |expired| ==> AboveBuyNow(db.market, expired[done].auctionId))
      && (forall j :: done <= j < |expired| ==>
            Pending(m', expired[j].id) && Untouched(db.market, m', expired[j].auctionId))
  {
    hide DbInv, RefOk, Pending, Untouched, IsReopened, ReopenedUpTo, AboveBuyNow, ThrowsAt;
    var m' := ReopenedUpTo(db, expired, times, done).market;
    forall j | 0 <= j < done
      ensures !AboveBuyNow(db.market, expired[j].auctionId) && IsReopened(m', expired[j])
    {
      ThrowsIff(db, expired, times, j);
      ReopenedStays(db, expired, times, j, done);
    }
    if done < |expired| {
      ThrowsIff(db, expired, times, done);
    }
    forall j | done <= j < |expired|
      ensures Pending(m', expired[j].id) && Untouched(db.market, m', expired[j].auctionId)
    {
      StillWaits(db, expired, times, done, j);
    }
  }

  lemma StillWaits(db: Db, expired: seq<OrderRef>, times: seq<Millis>, n: nat, j: nat)
    requires DbInv(db) && ExpiredOrders(db.market, expired) && n <= j < |expired| == |times|
    ensures var m' := ReopenedUpTo(db, expired, times, n).market;
      Pending(m', expired[j].id) && Untouched(db.market, m', expired[j].auctionId)
  {
    hide DbInv, ReopenedUpTo, RefOk, Untouched, Pending, References, MarketInv;
    var o, users := expired[j], |db.wallet.balance|;
    TablesInv(db);
    forall k | 0 <= k < n ensures expired[k].auctionId != o.auctionId {
      ApartAuctions(db.market, users, expired, k, j);
    }
    RefAuction(db.market, o);
    ReopeningsLeave(db, expired, times, n, o.auctionId);
    TablesInv(ReopenedUpTo(db, expired, times, n));
    UntouchedPending(db.market, ReopenedUpTo(db, expired, times, n).market, users, o);
  }

  // ---------------------------------------------------------------- hour after hour

  /** A pending order on an auction with a live bid above its buy-now price. */
  ghost predicate Refused(m: Market, o: OrderRef) { Pending(m, o.id) && AboveBuyNow(m, o.auctionId) }

  /** A buy-now leaves such an order exactly if it was made on an auction with a bid above the buy-now price. */
  lemma BoughtRefusedIff(db: Db, aid: AuctionId, user: UserId, price: int, now: Millis)
    requires DbInv(db) && BuyNow(db, aid, user, price, now).result.Ok?
    ensures aid in db.market.auctions
    ensures var m', o := BuyNow(db, aid, user, price, now).db.market, BoughtOrder(db.market, aid, user, price);
      RefOk(m', o) && Pending(m', o.id) && (Refused(m', o) <==> AboveBuyNow(db.market, aid))
  {
    hide DbInv, AboveBuyNow, RefOk, ReopenRowOk, RowOk;
    BoughtReopens(db, aid, user, price, now, 0);
    BoughtAbove(db, aid, user, price, now);
  }

  lemma CommitNeverCancels(db: Db, o: OrderRef, winner: bool, now: Millis, id: OrderId)
    requires Pending(db.market, id)
    ensures var m' := PayOrder(db, o, winner, now).db.market; Pending(m', id) || IsPaid(m', id)
  {
  }

  lemma SameOrRefused(db: Db, o: OrderRef, t: OrderRef, now: Millis)
    requires DbInv(db) && RefOk(db.market, o) && Refused(db.market, o)
    requires RefOk(db.market, t) && t.auctionId == o.auctionId
    ensures ReopenAuction(db, t, now).db == db
  {
    hide DbInv, AboveBuyNow;
    ReopenRefusedIff(db, t, now);
  }

  lemma RefusedWork(s: Sys, a: Action, o: OrderRef)
    requires Inv(s) && RefOk(s.db.market, o) && Refused(s.db.market, o)
    requires OnTask(a) && a.task in s.tasks && Target(a) == Some(o.auctionId)
    ensures var m' := Work(s, a).db.market; Pending(m', o.id) || IsPaid(m', o.id)
  {
    hide DbInv, PayOrder, ReopenAuction, RefOk, AboveBuyNow;
    assert TaskOk(s.db.market, a.task);
    if a.Commit? {
      CommitNeverCancels(s.db, a.task.o, a.task.isAuctionWinner, a.now, o.id);
    } else {
      SameOrRefused(s.db, o, a.task.o, a.now);
    }
  }

  lemma RefusedPlain(s: Sys, a: Action, o: OrderRef)
    requires Inv(s) && RefOk(s.db.market, o) && Pending(s.db.market, o.id)
    requires Plain(a) && Target(a) == Some(o.auctionId)
    ensures Apply(s, a).db.market == s.db.market
  {
    PendingMeans(s.db.market, |s.db.wallet.balance|, o.id);
  }

  lemma RefusedClose(s: Sys, o: OrderRef, options: LockOptions, now: Millis)
    requires Inv(s) && RefOk(s.db.market, o) && Pending(s.db.market, o.id) && options.statusOpen
    ensures CloseBy(s, o.auctionId, options, now) == s
  {
    PendingMeans(s.db.market, |s.db.wallet.balance|, o.id);
  }

  lemma NeverCancelled(s: Sys, a: Action, o: OrderRef)
    requires Inv(s) && RefOk(s.db.market, o) && Refused(s.db.market, o)
    ensures var m' := Apply(s, a).db.market; Pending(m', o.id) || IsPaid(m', o.id)
  {
    hide Inv, RefOk, AboveBuyNow, Untouched, Work, CloseBy, Transact;
    if Target(a) != Some(o.auctionId) {
      RefAuction(s.db.market, o);
      ActionLocal(s, a, o.auctionId);
      UntouchedOrder(s.db.market, Apply(s, a).db.market, o);
    } else if Plain(a) {
      RefusedPlain(s, a, o);
    } else if OnTask(a) {
      if a.task in s.tasks {
        RefusedWork(s, a, o);
      }
    } else {
      RefusedClose(s, o, if a.TimedClose? then OpenUntil(a.now) else OpenAny(), a.now);
    }
  }

  lemma UntouchedOrder(m: Market, m': Market, o: OrderRef)
    requires Untouched(m, m', o.auctionId) && RefOk(m, o) && Pending(m, o.id)
    ensures Pending(m', o.id)
  {
  }

  lemma RefusedStep(s: Sys, a: Action, o: OrderRef)
    requires Inv(s) && RefOk(s.db.market, o) && Refused(s.db.market, o)
    ensures var m' := Apply(s, a).db.market; RefOk(m', o) && (Refused(m', o) || IsPaid(m', o.id))
  {
    hide AboveBuyNow, Untouched, Apply, RefOk, References, DbInv;
    var m, m' := s.db.market, Apply(s, a).db.market;
    NeverCancelled(s, a, o);
    ApplyGood(s, a);
    TablesInv(s.db);
    TablesInv(Apply(s, a).db);
    RefStays(m, m', |s.db.wallet.balance|, o);
    if Pending(m', o.id) {
      RefAuction(m, o);
      assert Stands(m, m', o.id);
      UntouchedAbove(m, m', o.auctionId);
    }
  }

  /** A buyer who never pays such an order keeps it for ever: in every run it is pending on an auction with a live
      bid above its buy-now price until it is paid, and until then no reopening of it commits, at any time. */
  lemma {:induction false} RefusedUntilPaid(s: Sys, acts: seq<Action>, o: OrderRef, now: Millis)
    requires Inv(s) && RefOk(s.db.market, o) && Refused(s.db.market, o)
    ensures var db' := Exec(s, acts).db;
      && RefOk(db'.market, o) && (Refused(db'.market, o) || IsPaid(db'.market, o.id))
      && (ReopenAuction(db', o, now).result.Err? <==> Pending(db'.market, o.id))
      && ReopenAuction(db', o, now).db == db'
  {
    hide Inv, AboveBuyNow, RefOk, Apply, DbInv;
    var n := |acts| - 1;
    if acts == [] {
    } else {
      RefusedUntilPaid(s, acts[..n], o, now);
      RunInv(s, acts[..n]);
      var before := Exec(s, acts[..n]);
      if Refused(before.db.market, o) {
        RefusedStep(before, acts[n], o);
      } else {
        PaidStep(before, acts[n], o);
      }
    }
    RunInv(s, acts);
    InvTables(Exec(s, acts));
    RefusedNow(Exec(s, acts).db, o, now);
  }

  lemma RefusedNow(db: Db, o: OrderRef, now: Millis)
    requires DbInv(db) && RefOk(db.market, o) && (Refused(db.market, o) || IsPaid(db.market, o.id))
    ensures ReopenAuction(db, o, now).result.Err? <==> Pending(db.market, o.id)
    ensures ReopenAuction(db, o, now).db == db
  {
    hide DbInv, AboveBuyNow, RefOk, MarketInv, ReopenRowOk;
    ReopenRefusedIff(db, o, now);
    if Pending(db.market, o.id) {
      TablesInv(db);
      PendingMeans(db.market, |db.wallet.balance|, o.id);
      RefAuction(db.market, o);
    }
  }

  lemma InvTables(s: Sys)
    requires Inv(s)
    ensures DbInv(s.db)
  {
  }

  lemma PaidStep(s: Sys, a: Action, o: OrderRef)
    requires Inv(s) && RefOk(s.db.market, o) && IsPaid(s.db.market, o.id)
    ensures RefOk(Apply(s, a).db.market, o) && IsPaid(Apply(s, a).db.market, o.id)
  {
    hide Apply, References;
    ApplyGood(s, a);
    TablesInv(s.db);
    TablesInv(Apply(s, a).db);
    RefStays(s.db.market, Apply(s, a).db.market, |s.db.wallet.balance|, o);
  }

  /** Hour after hour: as long as such an order is unpaid, every job whose query lists it ends there or before,
      and reopens nothing behind it. */
  lemma JobsNeverPassRefused(s: Sys, acts: seq<Action>, expired: seq<OrderRef>, times: seq<Millis>, done: nat, k: nat)
    requires Inv(s) && k < |expired| == |times| && RefOk(s.db.market, expired[k]) && Refused(s.db.market, expired[k])
    requires ExpiredOrders(Exec(s, acts).db.market, expired) && StopsAfter(Exec(s, acts).db, expired, times, done)
    ensures done <= k
    ensures forall j :: k <= j < |expired| ==>
      Pending(ReopenedUpTo(Exec(s, acts).db, expired, times, done).market, expired[j].id)
  {
    hide Inv, Exec, DbInv, RefOk, AboveBuyNow, ReopenedUpTo, Untouched, StopsAfter, IsReopened;
    var db := Exec(s, acts).db;
    RefusedUntilPaid(s, acts, expired[k], 0);
    RunInv(s, acts);
    InvTables(Exec(s, acts));
    JobOutcome(db, expired, times, done);
  }
}
