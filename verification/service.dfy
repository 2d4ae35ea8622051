/** The running service: the committed database and the work its processes still carry in memory.  Service
    calls interleave between their transactions, so each action is one transaction or one read outside one. */
module Service {
  import opened Schema
  import opened WalletMoves
  import opened Transactions
  import opened MarketInvariant
  import opened DatabaseInvariant
  import Payload

  datatype Task =
    | Finalizing(r: CloseResult, retry: bool)        // about to run finalizeAuctionClose
    | Clearing(auctionId: AuctionId)                 // losers released, payload still to be cleared
    | Persisting(r: CloseResult)                     // finalize failed, payload still to be persisted
    | Paying(o: OrderRef)                            // payOrder has read its order
    | Decided(o: OrderRef, isAuctionWinner: bool)    // payOrder has read the winning bid too
    | Reopening(o: OrderRef)                         // payment failed or order timed out

  datatype Sys = Sys(db: Db, tasks: multiset<Task>)

  datatype Action =
    | PlaceBidBy(aid: AuctionId, user: UserId, price: int, now: Millis)
    | BotBidBy(aid: AuctionId, user: UserId, price: int, now: Millis)
    | TimedClose(aid: AuctionId, now: Millis)
    | AdminClose(aid: AuctionId, now: Millis)
    | Buy(aid: AuctionId, user: UserId, price: int, now: Millis)
    | Create(a: NewAuction, seller: UserId, now: Millis)
    | Edit(aid: AuctionId, p: Patch, now: Millis)
    | Delete(aid: AuctionId, user: UserId, admin: bool)
    | Deposit(user: UserId, amount: nat)
    | Release(task: Task)                 // finalize's release transaction commits
    | FinalizeThrows(task: Task)
    | Clear(task: Task)
    | Persist(task: Task)
    | Retry(aid: AuctionId)               // the retry job reads a payload
    | ReadOrder(oid: OrderId, user: UserId)
    | Decide(task: Task)
    | Commit(task: Task, now: Millis)     // payOrder's transaction, committed or refused
    | PayThrows(task: Task)               // payOrder's transaction fails in the database
    | Reopen(task: Task, now: Millis)
    | Expire(oid: OrderId)                // the timeout job reads a pending order
    | Drop(task: Task)                    // an exception nobody handles, or a crash

  function OrderRefOf(m: Market, o: OrderId): OrderRef
    requires o in m.orders && m.orders[o].auctionId in m.auctions
  {
    var row := m.orders[o];
    OrderRef(o, row.auctionId, row.buyerUserId, row.finalPrice, m.auctions[row.auctionId].sellerUserId)
  }

  /** `payOrder` from its first read to its last transaction, when nothing else runs in between. */
  function PayRequest(db: Db, oid: OrderId, user: UserId, now: Millis, later: Millis): Tx<()> {
    var m := db.market;
    if oid !in m.orders || m.orders[oid].auctionId !in m.auctions then Tx(db, Err(NotFound))
    else if m.orders[oid].buyerUserId != user then Tx(db, Err(Forbidden))
    else if m.orders[oid].status != PENDING then Tx(db, Err(BadRequest))
    else
      var o := OrderRefOf(m, oid);
      var tx := PayOrder(db, o, IsAuctionWinner(m.bids, o), now);
      match tx.result
      case Ok(_) => tx
      case Err(Conflict) => tx
      case Err(e) => Tx(ReopenAuction(db, o, later).db, Err(e))
  }

  function Begin(s: Sys, t: Task): Sys { s.(tasks := s.tasks + multiset{t}) }
  function End(s: Sys, t: Task): Sys { s.(tasks := s.tasks - multiset{t}) }

  function CloseBy(s: Sys, aid: AuctionId, options: LockOptions, now: Millis): Sys {
    var tx := ExecuteClose(s.db, aid, options, now);
    match tx.result
    case Ok(Some(r)) => Begin(s.(db := tx.db), Finalizing(r, false))
    case _ => s
  }

  function RetryRow(s: Sys, aid: AuctionId): Sys {
    var m := s.db.market;
    if aid in m.auctions && m.auctions[aid].status == CLOSED && m.auctions[aid].postCloseFinalizePayload.Some? then
      match Payload.ParseSpec(aid, m.auctions[aid].postCloseFinalizePayload.value)
      case Some(r) => Begin(s, Finalizing(r, true))
      case None => s.(db := s.db.(market := SetPayload(m, aid, None)))
    else s
  }

  function FinishPayment(s: Sys, o: OrderRef, isAuctionWinner: bool, now: Millis): Sys {
    var t := Decided(o, isAuctionWinner);
    var tx := PayOrder(s.db, o, isAuctionWinner, now);
    match tx.result
    case Ok(_) => End(s.(db := tx.db), t)
    case Err(Conflict) => End(s, t)
    case Err(_) => Begin(End(s, t), Reopening(o))
  }

  function SavePayload(s: Sys, aid: AuctionId, payload: Option<Json>): Sys {
    s.(db := s.db.(market := SetPayload(s.db.market, aid, payload)))
  }

  lemma CloseByShape(s: Sys, aid: AuctionId, options: LockOptions, now: Millis)
    requires options.statusOpen
    ensures var s' := CloseBy(s, aid, options, now);
      || s' == s
      || (aid in s.db.market.auctions && s.db.market.auctions[aid].status == OPEN
          && s' == Begin(s.(db := s.db.(market := ClosedMarket(s.db.market, aid, now))),
                         Finalizing(CloseResultOf(s.db.market, aid), false)))
  {
  }

  /** Work on a task that some process carries. */
  function Work(s: Sys, a: Action): Sys
    requires OnTask(a)
  {
    var t, rest := a.task, End(s, a.task);
    match a
    case Release(_) =>
      if t.Finalizing? then Begin(rest.(db := ReleaseLosers(s.db, t.r)), Clearing(t.r.auctionId)) else s
    case FinalizeThrows(_) => if t.Finalizing? then (if t.retry then rest else Begin(rest, Persisting(t.r))) else s
    case Clear(_) => if t.Clearing? then SavePayload(rest, t.auctionId, None) else s
    case Persist(_) =>
      if t.Persisting? then SavePayload(rest, t.r.auctionId, Some(Payload.ToDbPayload(t.r))) else s
    case Decide(_) => if t.Paying? then Begin(rest, Decided(t.o, IsAuctionWinner(s.db.market.bids, t.o))) else s
    case Commit(_, now) => if t.Decided? then FinishPayment(s, t.o, t.isAuctionWinner, now) else s
    case PayThrows(_) => if t.Decided? then Begin(rest, Reopening(t.o)) else s
    case Reopen(_, now) => if t.Reopening? then rest.(db := ReopenAuction(s.db, t.o, now).db) else s
    case Drop(_) => rest
  }

  predicate OnTask(a: Action) {
    a.Release? || a.FinalizeThrows? || a.Clear? || a.Persist? || a.Decide? || a.Commit? || a.PayThrows? || a.Reopen?
    || a.Drop?
  }

  /** One transaction and nothing to carry on with afterwards. */
  predicate Plain(a: Action) {
    a.PlaceBidBy? || a.BotBidBy? || a.Buy? || a.Create? || a.Edit? || a.Delete? || a.Deposit?
  }

  function Transact(db: Db, a: Action): Db
    requires Plain(a)
  {
    match a
    case PlaceBidBy(aid, user, price, now) => PlaceBid(db, aid, user, price, now).db
    case BotBidBy(aid, user, price, now) => PlaceBidAsBot(db, aid, user, price, now).db
    case Buy(aid, user, price, now) => BuyNow(db, aid, user, price, now).db
    case Create(n, seller, now) => CreateAuction(db, n, seller, now).db
    case Edit(aid, p, now) => PatchAuction(db, aid, p, now).db
    case Delete(aid, user, admin) => DeleteAuction(db, aid, user, admin).db
    case Deposit(user, amount) => TopUp(db, user, amount)
  }

  /** The two jobs and the payment path look an order up before they touch it. */
  function Look(s: Sys, oid: OrderId, user: Option<UserId>): Sys {
    var m := s.db.market;
    if Pending(m, oid) && m.orders[oid].auctionId in m.auctions then
      var o := OrderRefOf(m, oid);
      if user.None? then Begin(s, Reopening(o))
      else if user.value == o.buyerUserId then Begin(s, Paying(o))
      else s
    else s
  }

  function Apply(s: Sys, a: Action): Sys {
    if Plain(a) then s.(db := Transact(s.db, a))
    else if OnTask(a) then (if a.task in s.tasks then Work(s, a) else s)
    else
      match a
      case TimedClose(aid, now) => CloseBy(s, aid, OpenUntil(now), now)
      case AdminClose(aid, now) => CloseBy(s, aid, OpenAny(), now)
      case Retry(aid) => RetryRow(s, aid)
      case ReadOrder(oid, user) => Look(s, oid, Some(user))
      case Expire(oid) => Look(s, oid, None)
  }

  function Exec(s: Sys, acts: seq<Action>): Sys {
    if acts == [] then s else Apply(Exec(s, acts[..|acts| - 1]), acts[|acts| - 1])
  }

  // ---------------------------------------------------------------- the invariant of the service

  /** The losing bids of a result are disqualified rows of its auction. */
  ghost predicate ResultOk(m: Market, r: CloseResult) {
    forall k :: 0 <= k < |r.losingBids| ==>
      LosingOk(m.bids, r.losingBids[k]) && m.bids[r.losingBids[k].id].auctionId == r.auctionId
  }

  ghost predicate TaskOk(m: Market, t: Task) {
    match t
    case Finalizing(r, _) => ResultOk(m, r)
    case Persisting(r) => ResultOk(m, r)
    case Clearing(_) => true
    case Paying(o) => RefOk(m, o)
    case Decided(o, winner) => RefOk(m, o) && (Pending(m, o.id) ==> winner == IsAuctionWinner(m.bids, o))
    case Reopening(o) => RefOk(m, o)
  }

  /** A stored payload is the print of a close result of its auction. */
  ghost predicate PayloadOk(m: Market, aid: AuctionId)
    requires aid in m.auctions
  {
    var p := m.auctions[aid].postCloseFinalizePayload;
    p.Some? ==>
      var r := Payload.ParseSpec(aid, p.value);
      r.Some? && ResultOk(m, r.value) && Payload.ToDbPayload(r.value) == p.value
  }

  ghost predicate Inv(s: Sys) {
    && DbInv(s.db)
    && (forall t {:trigger TaskOk(s.db.market, t)} :: t in s.tasks ==> TaskOk(s.db.market, t))
    && (forall a {:trigger PayloadOk(s.db.market, a)} :: a in s.db.market.auctions ==> PayloadOk(s.db.market, a))
  }

  /** A fresh system: users with their opening balances, nothing else. */
  function Init(balance: seq<nat>, uniqueOrder: bool): Sys {
    Sys(Db(Market(map[], [], map[], 0, 0, uniqueOrder), Wallet(balance, [])), multiset{})
  }

  lemma InitInv(balance: seq<nat>, uniqueOrder: bool)
    ensures Inv(Init(balance, uniqueOrder))
  {
  }

  lemma TaskStays(m1: Market, m2: Market, users: nat, t: Task)
    requires Evolves(m1, m2) && References(m1, users) && References(m2, users) && TaskOk(m1, t)
    ensures TaskOk(m2, t)
  {
    match t
    case Decided(o, winner) =>
      RefStays(m1, m2, users, o);
      if Pending(m2, o.id) {
        PendingWasPending(m1, m2, o.id);
        DecisionFrozen(m1, m2, o);
      }
    case _ =>
  }

  /** Each payload of the later market was there before. */
  ghost predicate PayloadsFrom(m1: Market, m2: Market) {
    forall a :: a in m2.auctions && m2.auctions[a].postCloseFinalizePayload.Some? ==>
      a in m1.auctions && m1.auctions[a].postCloseFinalizePayload == m2.auctions[a].postCloseFinalizePayload
  }

  lemma ResultStays(m1: Market, m2: Market, r: CloseResult)
    requires BidsEvolve(m1.bids, m2.bids) && ResultOk(m1, r)
    ensures ResultOk(m2, r)
  {
  }

  /** A transaction that evolves the tables keeps the service's invariant, whatever tasks end. */
  lemma StepInv(s: Sys, s': Sys)
    requires Inv(s) && DbInv(s'.db) && Evolves(s.db.market, s'.db.market)
    requires |s'.db.wallet.balance| == |s.db.wallet.balance|
    requires PayloadsFrom(s.db.market, s'.db.market)
    requires forall t {:trigger TaskOk(s'.db.market, t)} :: t in s'.tasks ==> t in s.tasks || TaskOk(s'.db.market, t)
    ensures Inv(s')
  {
    var m1, m2 := s.db.market, s'.db.market;
    forall t | t in s'.tasks ensures TaskOk(m2, t) {
      if t in s.tasks {
        TaskStays(m1, m2, |s.db.wallet.balance|, t);
      }
    }
    forall a | a in m2.auctions ensures PayloadOk(m2, a) {
      if m2.auctions[a].postCloseFinalizePayload.Some? {
        assert PayloadOk(m1, a);
        var r := Payload.ParseSpec(a, m1.auctions[a].postCloseFinalizePayload.value);
        ResultStays(m1, m2, r.value);
      }
    }
  }

  /** No bot bid on `aid` fails on its hold: what the price results ask of an action and of a run. */
  predicate HoldGoesThrough(s: Sys, a: Action, aid: AuctionId) {
    a.BotBidBy? && a.aid == aid ==> !BotHoldFails(s.db, aid, a.user, a.price, a.now)
  }

  predicate HoldsGoThrough(s: Sys, acts: seq<Action>, aid: AuctionId) {
    acts == [] ||
    (HoldsGoThrough(s, acts[..|acts| - 1], aid) && HoldGoesThrough(Exec(s, acts[..|acts| - 1]), acts[|acts| - 1], aid))
  }

  function DepositTo(s: Sys, a: Action, user: UserId): nat {
    if a.Deposit? && a.user == user && user < |s.db.wallet.balance| then a.amount else 0
  }

  /** What one action does: the tables evolve and only deposits change what users own. */
  ghost predicate StepOk(s: Sys, s': Sys, a: Action) {
    && DbInv(s'.db) && Evolves(s.db.market, s'.db.market) && |s'.db.wallet.balance| == |s.db.wallet.balance|
    && TotalMoney(s'.db) == TotalMoney(s.db) +
         (if a.Deposit? && a.user < |s.db.wallet.balance| then a.amount else 0)
    && forall u: UserId :: u < |s.db.wallet.balance| ==> Deposited(s'.db, u) == Deposited(s.db, u) + DepositTo(s, a, u)
  }

  /** The losers a close reports are the rows it disqualified. */
  lemma CloseResultIsOk(m: Market, aid: AuctionId, now: Millis)
    requires aid in m.auctions
    ensures ResultOk(ClosedMarket(m, aid, now), CloseResultOf(m, aid))
  {
    CloseBids(m, aid, now);
    var ids := LosingIds(m.bids, LiveBids(m.bids, aid), Leader(m.bids, aid));
    var bids', ls := ClosedMarket(m, aid, now).bids, CloseResultOf(m, aid).losingBids;
    forall k | 0 <= k < |ids| ensures LosingOk(bids', ls[k]) && bids'[ls[k].id].auctionId == aid {
      assert ids[k] in ids;
    }
  }

  /** One action done right. */
  ghost predicate Good(s: Sys, s': Sys, a: Action) { Inv(s') && StepOk(s, s', a) }

  /** A committed transaction that moves no outside money. */
  lemma Committed(s: Sys, s': Sys, a: Action)
    requires Inv(s) && !a.Deposit?
    requires DbInv(s'.db) && SameMoney(s.db, s'.db) && Evolves(s.db.market, s'.db.market)
    requires PayloadsFrom(s.db.market, s'.db.market)
    requires forall t {:trigger TaskOk(s'.db.market, t)} :: t in s'.tasks ==> t in s.tasks || TaskOk(s'.db.market, t)
    ensures Good(s, s', a)
  {
    StepInv(s, s');
  }

  /** No transaction: tasks come and go. */
  lemma Bookkeeping(s: Sys, s': Sys, a: Action)
    requires Inv(s) && !a.Deposit? && s'.db == s.db
    requires forall t {:trigger TaskOk(s'.db.market, t)} :: t in s'.tasks ==> t in s.tasks || TaskOk(s'.db.market, t)
    ensures Good(s, s', a)
  {
    Same(s.db);
    Committed(s, s', a);
  }

  lemma NothingGood(s: Sys, a: Action)
    requires Inv(s) && !a.Deposit?
    ensures Good(s, s, a)
  {
    Bookkeeping(s, s, a);
  }

  lemma BidPayloads(s: Sys, a: Action)
    requires a.PlaceBidBy? || a.BotBidBy? || a.Buy?
    ensures PayloadsFrom(s.db.market, Apply(s, a).db.market) && Apply(s, a).tasks == s.tasks
  {
    hide HoldForBid, BidError, RowOk, OrderInsertOk;
  }

  lemma BidGood(s: Sys, a: Action)
    requires Inv(s) && a.PlaceBidBy?
    ensures Good(s, Apply(s, a), a)
  {
    hide PlaceBid, SameMoney, Evolves, PayloadsFrom;
    PlaceBidKeeps(s.db, a.aid, a.user, a.price, a.now);
    BidPayloads(s, a);
    Committed(s, Apply(s, a), a);
  }

  lemma BotBidGood(s: Sys, a: Action)
    requires Inv(s) && a.BotBidBy?
    ensures Good(s, Apply(s, a), a)
  {
    hide PlaceBidAsBot, SameMoney, Evolves, PayloadsFrom;
    BotKeeps(s.db, a.aid, a.user, a.price, a.now);
    BidPayloads(s, a);
    Committed(s, Apply(s, a), a);
  }

  lemma CloseGood(s: Sys, aid: AuctionId, options: LockOptions, now: Millis, a: Action)
    requires Inv(s) && options.statusOpen && !a.Deposit?
    ensures Good(s, CloseBy(s, aid, options, now), a)
  {
    hide ClosedMarket, CloseResultOf, RowOk, OrderInsertOk, MarketInv, WalletInv;
    var s' := CloseBy(s, aid, options, now);
    CloseKeepsDb(s.db, aid, options, now);
    if Locks(s.db.market, aid, options) && ExecuteClose(s.db, aid, options, now).result.Ok? {
      ClosePayloads(s.db.market, aid, now);
      CloseResultIsOk(s.db.market, aid, now);
      Committed(s, s', a);
    } else {
      Bookkeeping(s, s', a);
    }
  }

  lemma ClosePayloads(m: Market, aid: AuctionId, now: Millis)
    requires aid in m.auctions
    ensures PayloadsFrom(m, ClosedMarket(m, aid, now))
  {
    CloseOrders(m, aid, now);
  }

  lemma BuyGood(s: Sys, a: Action)
    requires Inv(s) && a.Buy?
    ensures Good(s, Apply(s, a), a)
  {
    hide BuyNow, SameMoney, Evolves, PayloadsFrom;
    BuyNowKeepsDb(s.db, a.aid, a.user, a.price, a.now);
    BidPayloads(s, a);
    Committed(s, Apply(s, a), a);
  }

  lemma SellerPayloads(s: Sys, a: Action)
    requires a.Create? || a.Edit? || a.Delete?
    ensures PayloadsFrom(s.db.market, Apply(s, a).db.market) && Apply(s, a).tasks == s.tasks
  {
  }

  lemma CreateGood(s: Sys, a: Action)
    requires Inv(s) && a.Create?
    ensures Good(s, Apply(s, a), a)
  {
    SellerPayloads(s, a);
    CreateKeepsDb(s.db, a.a, a.seller, a.now);
    Committed(s, Apply(s, a), a);
  }

  lemma EditGood(s: Sys, a: Action)
    requires Inv(s) && a.Edit?
    ensures Good(s, Apply(s, a), a)
  {
    SellerPayloads(s, a);
    PatchKeepsDb(s.db, a.aid, a.p, a.now);
    Committed(s, Apply(s, a), a);
  }

  lemma DeleteGood(s: Sys, a: Action)
    requires Inv(s) && a.Delete?
    ensures Good(s, Apply(s, a), a)
  {
    SellerPayloads(s, a);
    DeleteKeepsDb(s.db, a.aid, a.user, a.admin);
    Committed(s, Apply(s, a), a);
  }

  lemma DepositGood(s: Sys, a: Action)
    requires Inv(s) && a.Deposit?
    ensures Good(s, Apply(s, a), a)
  {
    TopUpKeepsDb(s.db, a.user, a.amount);
    StepInv(s, Apply(s, a));
  }

  lemma RetryGood(s: Sys, a: Action)
    requires Inv(s) && a.Retry?
    ensures Good(s, Apply(s, a), a) && Apply(s, a).db == s.db
  {
    if a.aid in s.db.market.auctions {
      assert PayloadOk(s.db.market, a.aid);
    }
    Bookkeeping(s, Apply(s, a), a);
  }

  lemma ReadGood(s: Sys, a: Action)
    requires Inv(s) && (a.ReadOrder? || a.Expire?)
    ensures Good(s, Apply(s, a), a)
  {
    Bookkeeping(s, Apply(s, a), a);
  }

  lemma PersistGood(s: Sys, a: Action)
    requires Inv(s) && a.Persist? && a.task.Persisting? && a.task in s.tasks
    ensures Good(s, Work(s, a), a)
  {
    hide Payload.ToDbPayload, PayloadOk;
    var m, r, s' := s.db.market, a.task.r, Work(s, a);
    var m2 := s'.db.market;
    assert TaskOk(m, a.task);
    PayloadKeepsDb(s.db, r.auctionId, Some(Payload.ToDbPayload(r)));
    forall t | t in s'.tasks ensures TaskOk(m2, t) {
      TaskStays(m, m2, |s.db.wallet.balance|, t);
    }
    PersistPayloads(s, r);
  }

  lemma PersistPayloads(s: Sys, r: CloseResult)
    requires Inv(s) && ResultOk(s.db.market, r)
    ensures var m' := SetPayload(s.db.market, r.auctionId, Some(Payload.ToDbPayload(r)));
      forall a {:trigger PayloadOk(m', a)} :: a in m'.auctions ==> PayloadOk(m', a)
  {
    var m' := SetPayload(s.db.market, r.auctionId, Some(Payload.ToDbPayload(r)));
    Payload.RoundTrip(r);
    forall a | a in m'.auctions ensures PayloadOk(m', a) {
      assert PayloadOk(s.db.market, a);
    }
  }

  lemma ReleaseGood(s: Sys, a: Action)
    requires Inv(s) && a.Release? && a.task.Finalizing? && a.task in s.tasks
    ensures Good(s, Work(s, a), a)
  {
    assert TaskOk(s.db.market, a.task);
    ReleaseKeepsDb(s.db, a.task.r);
    Committed(s, Work(s, a), a);
  }

  lemma ClearPayloads(m: Market, aid: AuctionId)
    ensures PayloadsFrom(m, SetPayload(m, aid, None))
  {
  }

  lemma ClearGood(s: Sys, a: Action)
    requires Inv(s) && a.Clear? && a.task.Clearing? && a.task in s.tasks
    ensures Good(s, Work(s, a), a)
  {
    ClearPayloads(s.db.market, a.task.auctionId);
    PayloadKeepsDb(s.db, a.task.auctionId, None);
    Committed(s, Work(s, a), a);
  }

  lemma PayPayloads(db: Db, o: OrderRef, winner: bool, now: Millis)
    ensures PayloadsFrom(db.market, PayOrder(db, o, winner, now).db.market)
  {
    hide LiveBids, ReleaseAll, Disqualify;
  }

  /** A committed payment ends its task; a failed one ends it or hands the order to the reopening. */
  lemma FinishShape(s: Sys, o: OrderRef, winner: bool, now: Millis)
    ensures var s', tx := FinishPayment(s, o, winner, now), PayOrder(s.db, o, winner, now);
      && (tx.result.Ok? ==> s'.db == tx.db) && (tx.result.Err? ==> s'.db == s.db)
      && forall t :: t in s'.tasks ==> t in s.tasks || t == Reopening(o)
  {
    hide PayOrder;
  }

  lemma CommitGood(s: Sys, o: OrderRef, winner: bool, now: Millis, a: Action)
    requires Inv(s) && Decided(o, winner) in s.tasks && !a.Deposit?
    ensures Good(s, FinishPayment(s, o, winner, now), a)
  {
    hide PayOrder, FinishPayment, DbInv, SameMoney, Evolves, PayloadsFrom, PayloadOk;
    assert TaskOk(s.db.market, Decided(o, winner));
    var s' := FinishPayment(s, o, winner, now);
    FinishShape(s, o, winner, now);
    if PayOrder(s.db, o, winner, now).result.Ok? {
      PayOrderKeeps(s.db, o, winner, now);
      PayPayloads(s.db, o, winner, now);
      RefOkAfter(s, s', o);
      Committed(s, s', a);
    } else {
      Bookkeeping(s, s', a);
    }
  }

  lemma RefOkAfter(s: Sys, s': Sys, o: OrderRef)
    requires DbInv(s.db) && DbInv(s'.db) && Evolves(s.db.market, s'.db.market)
    requires |s'.db.wallet.balance| == |s.db.wallet.balance| && RefOk(s.db.market, o)
    ensures RefOk(s'.db.market, o)
  {
    RefStays(s.db.market, s'.db.market, |s.db.wallet.balance|, o);
  }

  lemma ReopenStep(s: Sys, o: OrderRef, later: Millis)
    requires Reopening(o) in s.tasks
    ensures Apply(s, Reopen(Reopening(o), later)).db == ReopenAuction(s.db, o, later).db
  {
  }

  lemma ReopenPayloads(db: Db, o: OrderRef, now: Millis)
    ensures PayloadsFrom(db.market, ReopenAuction(db, o, now).db.market)
  {
  }

  lemma ReopenGood(s: Sys, a: Action)
    requires Inv(s) && a.Reopen? && a.task.Reopening? && a.task in s.tasks
    ensures Good(s, Work(s, a), a)
  {
    assert TaskOk(s.db.market, a.task);
    ReopenPayloads(s.db, a.task.o, a.now);
    ReopenKeepsDb(s.db, a.task.o, a.now);
    Committed(s, Work(s, a), a);
  }

  lemma HandoverGood(s: Sys, a: Action)
    requires Inv(s) && (a.FinalizeThrows? || a.Decide? || a.PayThrows? || a.Drop?) && a.task in s.tasks
    ensures Good(s, Work(s, a), a)
  {
    assert TaskOk(s.db.market, a.task);
    Bookkeeping(s, Work(s, a), a);
  }

  lemma WorkGood(s: Sys, a: Action)
    requires Inv(s) && OnTask(a) && a.task in s.tasks
    ensures Good(s, Work(s, a), a)
  {
    if a.Persist? && a.task.Persisting? {
      PersistGood(s, a);
    } else if a.Release? && a.task.Finalizing? {
      ReleaseGood(s, a);
    } else if a.Clear? && a.task.Clearing? {
      ClearGood(s, a);
    } else if a.Commit? && a.task.Decided? {
      CommitGood(s, a.task.o, a.task.isAuctionWinner, a.now, a);
    } else if a.Reopen? && a.task.Reopening? {
      ReopenGood(s, a);
    } else if a.FinalizeThrows? || a.Decide? || a.PayThrows? || a.Drop? {
      HandoverGood(s, a);
    } else {
      NothingGood(s, a);
    }
  }

  lemma PlainGood(s: Sys, a: Action)
    requires Inv(s) && Plain(a)
    ensures Good(s, Apply(s, a), a)
  {
    match a
    case PlaceBidBy(_, _, _, _) => BidGood(s, a);
    case BotBidBy(_, _, _, _) => BotBidGood(s, a);
    case Buy(_, _, _, _) => BuyGood(s, a);
    case Create(_, _, _) => CreateGood(s, a);
    case Edit(_, _, _) => EditGood(s, a);
    case Delete(_, _, _) => DeleteGood(s, a);
    case Deposit(_, _) => DepositGood(s, a);
  }

  /** Every action keeps the invariant, evolves the tables and conserves the money but for deposits. */
  lemma ApplyGood(s: Sys, a: Action)
    requires Inv(s)
    ensures Good(s, Apply(s, a), a)
  {
    if Plain(a) {
      PlainGood(s, a);
    } else if OnTask(a) {
      if a.task in s.tasks {
        WorkGood(s, a);
      } else {
        NothingGood(s, a);
      }
    } else {
      match a
      case TimedClose(aid, now) => CloseGood(s, aid, OpenUntil(now), now, a);
      case AdminClose(aid, now) => CloseGood(s, aid, OpenAny(), now, a);
      case Retry(_) => RetryGood(s, a);
      case ReadOrder(_, _) => ReadGood(s, a);
      case Expire(_) => ReadGood(s, a);
    }
  }
}
