/** The life of an order over runs: where it comes from, at what price, and what its payment left in the ledger. */
module OrderHistory {
  import opened Schema
  import opened WalletMoves
  import opened Transactions
  import opened MarketInvariant
  import opened DatabaseInvariant
  import opened Service
  import opened Runs
  import opened Outcomes
  import opened Payments
  import Payload

  // ---------------------------------------------------------------- where an order comes from

  /** An order at the price of the auction's highest live bid, for its bidder. */
  predicate SoldByClose(m: Market, a: Action, row: Order) {
    && (a.TimedClose? || a.AdminClose?)
    && var live := LiveBids(m.bids, a.aid);
       live != [] && row == Order(a.aid, m.bids[live[0]].userId, m.bids[live[0]].bidPrice, PENDING)
  }

  predicate SoldByBuy(a: Action, row: Order) { a.Buy? && row == Order(a.aid, a.user, a.price, PENDING) }

  lemma PlainOrders(s: Sys, a: Action, o: OrderId)
    requires Plain(a) && o !in s.db.market.orders && o in Apply(s, a).db.market.orders
    ensures o == s.db.market.nextOrder && SoldByBuy(a, Apply(s, a).db.market.orders[o])
  {
    hide RowOk, HasBids, HoldForBid, BidError, LockGuard;
  }

  lemma CloseOrdersNew(s: Sys, a: Action, options: LockOptions, o: OrderId)
    requires (a.TimedClose? || a.AdminClose?) && options.statusOpen
    requires o !in s.db.market.orders && o in CloseBy(s, a.aid, options, a.now).db.market.orders
    ensures o == s.db.market.nextOrder
    ensures SoldByClose(s.db.market, a, CloseBy(s, a.aid, options, a.now).db.market.orders[o])
  {
    hide ExecuteClose, ClosedMarket, LiveBids;
    CloseByShape(s, a.aid, options, a.now);
    CloseOrders(s.db.market, a.aid, a.now);
  }

  lemma WorkOrders(s: Sys, a: Action, o: OrderId)
    requires OnTask(a) && a.task in s.tasks && o in Work(s, a).db.market.orders
    ensures o in s.db.market.orders
  {
    hide RowOk, IsAuctionWinner, BaselinePrice, ReleaseAll, LiveBids, Payload.ToDbPayload, ReopenRowOk, Pay;
  }

  /** A new order is pending, and a buy-now's at its price or a close's at the price of the highest live bid. */
  lemma NewOrder(s: Sys, a: Action, o: OrderId)
    requires o !in s.db.market.orders && o in Apply(s, a).db.market.orders
    ensures o == s.db.market.nextOrder
    ensures var row := Apply(s, a).db.market.orders[o];
      row.status == PENDING && (SoldByBuy(a, row) || SoldByClose(s.db.market, a, row))
  {
    hide Work, CloseBy;
    if Plain(a) {
      PlainOrders(s, a, o);
    } else if OnTask(a) {
      if a.task in s.tasks {
        WorkOrders(s, a, o);
      }
    } else if a.TimedClose? {
      CloseOrdersNew(s, a, OpenUntil(a.now), o);
    } else if a.AdminClose? {
      CloseOrdersNew(s, a, OpenAny(), o);
    }
  }

  /** The `k`-th action of the run sold the auction, as the order says but for its status. */
  predicate SoldAt(s: Sys, acts: seq<Action>, k: nat, row: Order)
    requires k < |acts|
  {
    var sold := row.(status := PENDING);
    SoldByBuy(acts[k], sold) || SoldByClose(Exec(s, acts[..k]).db.market, acts[k], sold)
  }

  /** Every order of a reachable state was made by some action of the run: a close, for the highest live bidder of
      that moment at that price, or a buy-now, for its buyer at its price. */
  lemma {:induction false} OrderHasOrigin(balance: seq<nat>, uniqueOrder: bool, acts: seq<Action>, o: OrderId)
    requires o in Exec(Init(balance, uniqueOrder), acts).db.market.orders
    ensures exists k ::
      && 0 <= k < |acts|
      && SoldAt(Init(balance, uniqueOrder), acts, k, Exec(Init(balance, uniqueOrder), acts).db.market.orders[o])
  {
    hide Apply, Init;
    var s := Init(balance, uniqueOrder);
    if acts == [] {
      NoOrdersYet(balance, uniqueOrder);
    } else {
      var n := |acts| - 1;
      var before := Exec(s, acts[..n]);
      if o in before.db.market.orders {
        OrderHasOrigin(balance, uniqueOrder, acts[..n], o);
        var k :| 0 <= k < n && SoldAt(s, acts[..n], k, before.db.market.orders[o]);
        InitInv(balance, uniqueOrder);
        RunInv(s, acts[..n]);
        SameSale(before, acts[n], o);
        assert acts[..n][..k] == acts[..k];
        assert SoldAt(s, acts, k, Exec(s, acts).db.market.orders[o]);
      } else {
        NewOrder(before, acts[n], o);
        assert SoldAt(s, acts, n, Exec(s, acts).db.market.orders[o]);
      }
    }
  }

  lemma NoOrdersYet(balance: seq<nat>, uniqueOrder: bool)
    ensures Init(balance, uniqueOrder).db.market.orders == map[]
  {
  }

  lemma SameSale(s: Sys, a: Action, o: OrderId)
    requires Inv(s) && o in s.db.market.orders && o in Apply(s, a).db.market.orders
    ensures var row, row' := s.db.market.orders[o], Apply(s, a).db.market.orders[o];
      row'.(status := PENDING) == row.(status := PENDING)
  {
    hide Apply;
    ApplyGood(s, a);
  }

  // ---------------------------------------------------------------- what a payment leaves in the ledger

  /** The ledger rows of one kind about order `o`. */
  function OrderRows(ledger: seq<Entry>, kind: TxType, o: OrderId): nat {
    if ledger == [] then 0
    else
      var e := ledger[|ledger| - 1];
      OrderRows(ledger[..|ledger| - 1], kind, o) + if e.kind == kind && e.refId == o then 1 else 0
  }

  lemma OrderRowsAppend(ledger: seq<Entry>, e: Entry, kind: TxType, o: OrderId)
    ensures OrderRows(ledger + [e], kind, o) ==
      OrderRows(ledger, kind, o) + if e.kind == kind && e.refId == o then 1 else 0
  {
    assert (ledger + [e])[..|ledger|] == ledger;
  }

  lemma {:induction false} NoOrderRows(ledger: seq<Entry>, kind: TxType, o: OrderId)
    requires forall k :: 0 <= k < |ledger| && ledger[k].kind == kind ==> ledger[k].refId != o
    ensures OrderRows(ledger, kind, o) == 0
  {
    if ledger == [] {
    } else {
      NoOrderRows(ledger[..|ledger| - 1], kind, o);
    }
  }

  /** A payment row is a paid order's, from its buyer and at its price; a settlement row a paid order's too, to the
      seller of its auction and at its price. */
  predicate RowExplained(m: Market, e: Entry) {
    && (e.kind == PAYMENT ==>
          && e.refId in m.orders && m.orders[e.refId].status == PAID
          && e.userId == m.orders[e.refId].buyerUserId && e.amount == -m.orders[e.refId].finalPrice)
    && (e.kind == ADJUSTMENT ==>
          && e.refId in m.orders && m.orders[e.refId].status == PAID && m.orders[e.refId].auctionId in m.auctions
          && e.userId == m.auctions[m.orders[e.refId].auctionId].sellerUserId
          && e.amount == m.orders[e.refId].finalPrice)
  }

  /** A paid order has one row of each kind, any other none. */
  predicate Counted(m: Market, ledger: seq<Entry>, o: OrderId)
    requires o in m.orders
  {
    var n := if m.orders[o].status == PAID then 1 else 0;
    OrderRows(ledger, PAYMENT, o) == n && OrderRows(ledger, ADJUSTMENT, o) == n
  }

  ghost predicate OrdersSettled(db: Db) {
    && (forall k :: 0 <= k < |db.wallet.ledger| ==> RowExplained(db.market, db.wallet.ledger[k]))
    && (forall o {:trigger Counted(db.market, db.wallet.ledger, o)} ::
          o in db.market.orders ==> Counted(db.market, db.wallet.ledger, o))
  }

  /** The ledger grows by rows about bids only. */
  predicate OnlyBidRows(l1: seq<Entry>, l2: seq<Entry>) {
    l1 <= l2 && forall k :: |l1| <= k < |l2| ==> l2[k].kind == BID_HOLD || l2[k].kind == BID_RELEASE
  }

  lemma {:induction false} BidRowsCountNothing(l1: seq<Entry>, l2: seq<Entry>, kind: TxType, o: OrderId)
    requires OnlyBidRows(l1, l2) && (kind == PAYMENT || kind == ADJUSTMENT)
    ensures OrderRows(l2, kind, o) == OrderRows(l1, kind, o)
  {
    if |l1| == |l2| {
      assert l1 == l2;
    } else {
      BidRowsCountNothing(l1, l2[..|l2| - 1], kind, o);
    }
  }

  lemma {:induction false} ReleasesAreBidRows(w: Wallet, ls: seq<LosingBid>)
    ensures OnlyBidRows(w.ledger, ReleaseAll(w, ls).ledger)
  {
    hide Releases;
    if ls == [] {
    } else {
      ReleasesAreBidRows(w, ls[..|ls| - 1]);
    }
  }

  /** Paid and settled: the rows between the two are about bids. */
  ghost predicate PaysAndSettles(w: Wallet, w': Wallet, o: OrderRef) {
    exists mid ::
      OnlyBidRows(w.ledger + [PaymentEntry(o)], mid) && w'.ledger == mid + [SettlementEntry(o)]
  }

  lemma PaymentRows(db: Db, o: OrderRef, winner: bool, now: Millis)
    requires PayOrder(db, o, winner, now).result.Ok?
    ensures PaysAndSettles(db.wallet, PayOrder(db, o, winner, now).db.wallet, o)
  {
    hide PaidMarket, LiveBids, Releases;
    var l := db.wallet.ledger + [PaymentEntry(o)];
    if winner {
      assert OnlyBidRows(l, l);
    } else {
      var w1 := Pay(db.wallet, o.buyerUserId, o.finalPrice, o.id).value;
      ReleasesAreBidRows(w1, Listed(db.market.bids, LiveBids(db.market.bids, o.auctionId)));
    }
  }

  lemma ExplainedStays(m: Market, m': Market, users: nat, e: Entry)
    requires Evolves(m, m') && References(m, users) && References(m', users) && RowExplained(m, e)
    ensures RowExplained(m', e)
  {
  }

  /** Nobody paid, and the new ledger rows are about bids. */
  lemma QuietSettled(db: Db, db': Db)
    requires DbInv(db) && DbInv(db') && |db'.wallet.balance| == |db.wallet.balance| && OrdersSettled(db)
    requires Evolves(db.market, db'.market) && OnlyBidRows(db.wallet.ledger, db'.wallet.ledger)
    requires forall o :: o in db'.market.orders && db'.market.orders[o].status == PAID ==> IsPaid(db.market, o)
    ensures OrdersSettled(db')
  {
    hide AuctionInv, WalletInv, OnlyBidRows, BidsEvolve, ActiveFrozen;
    var m, m', l, l' := db.market, db'.market, db.wallet.ledger, db'.wallet.ledger;
    forall k | 0 <= k < |l'| ensures RowExplained(m', l'[k]) {
      if k < |l| {
        KeepsRow(l, l', k);
        ExplainedStays(m, m', |db.wallet.balance|, l[k]);
      } else {
        NewIsBidRow(l, l', k);
      }
    }
    forall o | o in m'.orders ensures Counted(m', l', o) {
      BidRowsCountNothing(l, l', PAYMENT, o);
      BidRowsCountNothing(l, l', ADJUSTMENT, o);
      if o in m.orders {
        assert Counted(m, l, o);
      } else {
        NoOrderRows(l, PAYMENT, o);
        NoOrderRows(l, ADJUSTMENT, o);
      }
    }
  }

  lemma KeepsRow(l: seq<Entry>, l': seq<Entry>, k: nat)
    requires OnlyBidRows(l, l') && k < |l|
    ensures k < |l'| && l'[k] == l[k]
  {
  }

  lemma NewIsBidRow(l: seq<Entry>, l': seq<Entry>, k: nat)
    requires OnlyBidRows(l, l') && |l| <= k < |l'|
    ensures l'[k].kind == BID_HOLD || l'[k].kind == BID_RELEASE
  {
  }

  lemma PaymentCounts(l: seq<Entry>, l': seq<Entry>, mid: seq<Entry>, o: OrderRef, kind: TxType, p: OrderId)
    requires OnlyBidRows(l + [PaymentEntry(o)], mid) && l' == mid + [SettlementEntry(o)]
    requires kind == PAYMENT || kind == ADJUSTMENT
    ensures OrderRows(l', kind, p) == OrderRows(l, kind, p) + if p == o.id then 1 else 0
  {
    hide OnlyBidRows, OrderRows;
    OrderRowsAppend(l, PaymentEntry(o), kind, p);
    BidRowsCountNothing(l + [PaymentEntry(o)], mid, kind, p);
    OrderRowsAppend(mid, SettlementEntry(o), kind, p);
  }

  /** The committed payment of a pending order adds one row of each kind for it. */
  lemma PaymentSettled(db: Db, db': Db, o: OrderRef)
    requires DbInv(db) && DbInv(db') && |db'.wallet.balance| == |db.wallet.balance| && OrdersSettled(db)
    requires Evolves(db.market, db'.market) && RefOk(db.market, o) && Pending(db.market, o.id)
    requires db'.market.orders == db.market.orders[o.id := db.market.orders[o.id].(status := PAID)]
    requires PaysAndSettles(db.wallet, db'.wallet, o)
    ensures OrdersSettled(db')
  {
    hide AuctionInv, WalletInv, OnlyBidRows, BidsEvolve, ActiveFrozen, OrderRows;
    var m, m', l, l' := db.market, db'.market, db.wallet.ledger, db'.wallet.ledger;
    var mid :| OnlyBidRows(l + [PaymentEntry(o)], mid) && l' == mid + [SettlementEntry(o)];
    forall k | 0 <= k < |l'| ensures RowExplained(m', l'[k]) {
      PaymentRowsExplained(db, db', o, mid, k);
    }
    forall p | p in m'.orders ensures Counted(m', l', p) {
      PaymentCounts(l, l', mid, o, PAYMENT, p);
      PaymentCounts(l, l', mid, o, ADJUSTMENT, p);
      assert Counted(m, l, p);
    }
  }

  lemma PaymentRowsExplained(db: Db, db': Db, o: OrderRef, mid: seq<Entry>, k: nat)
    requires DbInv(db) && DbInv(db') && |db'.wallet.balance| == |db.wallet.balance| && OrdersSettled(db)
    requires Evolves(db.market, db'.market) && RefOk(db.market, o) && Pending(db.market, o.id)
    requires db'.market.orders == db.market.orders[o.id := db.market.orders[o.id].(status := PAID)]
    requires OnlyBidRows(db.wallet.ledger + [PaymentEntry(o)], mid)
    requires db'.wallet.ledger == mid + [SettlementEntry(o)] && k < |db'.wallet.ledger|
    ensures RowExplained(db'.market, db'.wallet.ledger[k])
  {
    hide AuctionInv, WalletInv, OnlyBidRows, BidsEvolve, ActiveFrozen, Counted;
    var l, paid := db.wallet.ledger, db.wallet.ledger + [PaymentEntry(o)];
    if k < |l| {
      KeepsRow(paid, mid, k);
      assert RowExplained(db.market, l[k]);
      ExplainedStays(db.market, db'.market, |db.wallet.balance|, l[k]);
    } else if k == |l| {
      KeepsRow(paid, mid, k);
    } else if k < |mid| {
      NewIsBidRow(paid, mid, k);
    }
  }

  // ---------------------------------------------------------------- over runs

  predicate CommitsPayment(s: Sys, a: Action) {
    && a.Commit? && a.task.Decided? && a.task in s.tasks
    && PayOrder(s.db, a.task.o, a.task.isAuctionWinner, a.now).result.Ok?
  }

  lemma WorkRowsAreBids(s: Sys, a: Action)
    requires OnTask(a) && a.task in s.tasks && !CommitsPayment(s, a)
    ensures OnlyBidRows(s.db.wallet.ledger, Work(s, a).db.wallet.ledger)
  {
    hide PayOrder, ReopenedMarket, IsAuctionWinner, RowOk, SetPayload, Payload.ToDbPayload, Releases, ReopenRowOk;
    if a.Release? && a.task.Finalizing? {
      ReleasesAreBidRows(s.db.wallet, a.task.r.losingBids);
    }
  }

  lemma OtherRowsAreBids(s: Sys, a: Action)
    requires !CommitsPayment(s, a)
    ensures OnlyBidRows(s.db.wallet.ledger, Apply(s, a).db.wallet.ledger)
  {
    hide RowOk, BidError, HasBids, OrderInsertOk, ActiveOrders, CloseBy, Work, CloseResultOf, Payload.ParseSpec;
    hide LockGuard;
    if OnTask(a) {
      if a.task in s.tasks {
        WorkRowsAreBids(s, a);
      }
    } else if a.TimedClose? || a.AdminClose? {
      CloseByShape(s, a.aid, if a.TimedClose? then OpenUntil(a.now) else OpenAny(), a.now);
    }
  }

  lemma NobodyPaid(s: Sys, a: Action, o: OrderId)
    requires Inv(s) && !CommitsPayment(s, a) && IsPaid(Apply(s, a).db.market, o)
    ensures IsPaid(s.db.market, o)
  {
    hide Apply, PayOrder, AuctionInv, WalletInv;
    ApplyGood(s, a);
    if o in s.db.market.orders {
      if Pending(s.db.market, o) {
        PaidByCommit(s, a, o);
      }
    } else {
      NewOrder(s, a, o);
    }
  }

  lemma CommitMarket(s: Sys, a: Action)
    requires CommitsPayment(s, a)
    ensures var o, m, db' := a.task.o, s.db.market, Apply(s, a).db;
      && Pending(m, o.id) && m.orders[o.id := m.orders[o.id].(status := PAID)] == db'.market.orders
      && db' == PayOrder(s.db, o, a.task.isAuctionWinner, a.now).db
  {
    hide LiveBids, ReleaseAll, MarkConverted, Disqualify;
  }

  lemma SettledStep(s: Sys, a: Action)
    requires Inv(s) && OrdersSettled(s.db)
    ensures OrdersSettled(Apply(s, a).db)
  {
    hide Apply, PayOrder, OrdersSettled, OnlyBidRows, AuctionInv, WalletInv, Evolves, RefOk, PaysAndSettles;
    ApplyGood(s, a);
    if CommitsPayment(s, a) {
      assert TaskOk(s.db.market, a.task);
      CommitMarket(s, a);
      PaymentRows(s.db, a.task.o, a.task.isAuctionWinner, a.now);
      PaymentSettled(s.db, Apply(s, a).db, a.task.o);
    } else {
      OtherRowsAreBids(s, a);
      forall o | o in Apply(s, a).db.market.orders && Apply(s, a).db.market.orders[o].status == PAID
        ensures IsPaid(s.db.market, o)
      {
        NobodyPaid(s, a, o);
      }
      QuietSettled(s.db, Apply(s, a).db);
    }
  }

  lemma {:induction false} RunSettled(s: Sys, acts: seq<Action>)
    requires Inv(s) && OrdersSettled(s.db)
    ensures OrdersSettled(Exec(s, acts).db)
  {
    hide Apply, Inv, OrdersSettled;
    if acts == [] {
    } else {
      RunSettled(s, acts[..|acts| - 1]);
      RunInv(s, acts[..|acts| - 1]);
      SettledStep(Exec(s, acts[..|acts| - 1]), acts[|acts| - 1]);
    }
  }

  lemma NothingSettled(balance: seq<nat>, uniqueOrder: bool)
    ensures OrdersSettled(Init(balance, uniqueOrder).db)
  {
  }

  /** In every reachable state a paid order took its price from its buyer in one ledger row and gave it to the seller
      of its auction in another, once each; no other order has such a row. */
  lemma PaidOnceToSeller(s: Sys, o: OrderId)
    requires Reachable(s) && o in s.db.market.orders
    ensures var m, ledger, row := s.db.market, s.db.wallet.ledger, s.db.market.orders[o];
      && row.auctionId in m.auctions
      && (var n := if row.status == PAID then 1 else 0;
          OrderRows(ledger, PAYMENT, o) == n && OrderRows(ledger, ADJUSTMENT, o) == n)
      && (forall k :: 0 <= k < |ledger| && ledger[k].kind == PAYMENT && ledger[k].refId == o ==>
            ledger[k] == Entry(row.buyerUserId, -row.finalPrice, PAYMENT, o))
      && forall k :: 0 <= k < |ledger| && ledger[k].kind == ADJUSTMENT && ledger[k].refId == o ==>
            ledger[k] == Entry(m.auctions[row.auctionId].sellerUserId, row.finalPrice, ADJUSTMENT, o)
  {
    hide Init, AuctionInv, WalletInv, Exec, OrderRows;
    ReachableInv(s);
    var balance, index, acts :| s == Exec(Init(balance, index), acts);
    InitInv(balance, index);
    NothingSettled(balance, index);
    RunSettled(Init(balance, index), acts);
    assert Counted(s.db.market, s.db.wallet.ledger, o);
    forall k | 0 <= k < |s.db.wallet.ledger| ensures RowExplained(s.db.market, s.db.wallet.ledger[k]) {
    }
  }
}
