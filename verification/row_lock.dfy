/** The auction transactions statement by statement, interleaved under the row lock of the auction.

    The row lock is held from `lockAuctionForUpdate` to the end of the transaction.  Each statement reads what
    is committed at that moment overlaid with the transaction's own writes; nothing is visible to others before
    the commit.  A lock statement whose WHERE fails on the committed row finds no row and does not wait; one
    whose WHERE holds waits while the row is locked and is evaluated again afterwards.  What a transaction read
    before its lock, and the wallet its balance check sees, are inputs. */
module RowLock {
  import opened Schema
  import opened WalletMoves
  import opened Transactions
  import opened Statements

  datatype Txn =
    | UserBid(user: UserId, price: int, now: Millis, wallet: Wallet)
    | BotBid(user: UserId, price: int, now: Millis, wallet: Wallet)
    | Purchase(user: UserId, price: int, now: Millis, wallet: Wallet)
    | Closing(options: LockOptions, now: Millis)
    | Editing(p: Patch, now: Millis)
    | Reopening(o: OrderRef, now: Millis)
    | Deleting(user: UserId, admin: bool)

  datatype Outcome =
    | BidPlaced(bid: BidId) | NoBid
    | Closed(r: CloseResult) | NotClosed
    | Bought(order: OrderId)
    | Edited
    | Reopened(reopened: bool)
    | Deleted
    | Paid
    | Threw(error: Error)

  datatype Effect = Effect(market: Market, outcome: Outcome)

  // ---------------------------------------------------------------- one after another

  /** The transaction run alone, as `Transactions` defines it. */
  function Serial(m: Market, aid: AuctionId, t: Txn): Effect {
    match t
    case UserBid(user, price, now, w) =>
      var tx := PlaceBid(Db(m, w), aid, user, price, now);
      Effect(tx.db.market, match tx.result case Ok(id) => BidPlaced(id) case Err(e) => Threw(e))
    case BotBid(user, price, now, w) =>
      var tx := PlaceBidAsBot(Db(m, w), aid, user, price, now);
      Effect(tx.db.market,
             match tx.result case Ok(Some(id)) => BidPlaced(id) case Ok(None) => NoBid case Err(e) => Threw(e))
    case Purchase(user, price, now, w) =>
      var tx := BuyNow(Db(m, w), aid, user, price, now);
      Effect(tx.db.market, match tx.result case Ok(o) => Bought(o) case Err(e) => Threw(e))
    case Closing(options, now) =>
      var tx := ExecuteClose(Db(m, NoWallet()), aid, options, now);
      Effect(tx.db.market,
             match tx.result case Ok(Some(r)) => Closed(r) case Ok(None) => NotClosed case Err(e) => Threw(e))
    case Editing(p, now) =>
      var tx := PatchAuction(Db(m, NoWallet()), aid, p, now);
      Effect(tx.db.market, match tx.result case Ok(_) => Edited case Err(e) => Threw(e))
    case Reopening(o, now) =>
      var tx := ReopenAuction(Db(m, NoWallet()), o, now);
      Effect(tx.db.market, match tx.result case Ok(b) => Reopened(b) case Err(e) => Threw(e))
    case Deleting(user, admin) =>
      var tx := DeleteAuction(Db(m, NoWallet()), aid, user, admin);
      Effect(tx.db.market, match tx.result case Ok(_) => Deleted case Err(e) => Threw(e))
  }

  function NoWallet(): Wallet { Wallet([], []) }

  /** The market after the transactions of `order`, one after another. */
  function SerialRun(m: Market, aid: AuctionId, ts: seq<Txn>, order: seq<nat>): Market
    requires forall k :: 0 <= k < |order| ==> order[k] < |ts|
  {
    if order == [] then m
    else Serial(SerialRun(m, aid, ts, order[..|order| - 1]), aid, ts[order[|order| - 1]]).market
  }

  // ---------------------------------------------------------------- statements

  datatype Write =
    | InsertBid(b: Bid)
    | UpdateAuction(c: Columns)
    | InsertOrder(o: Order)
    | DisqualifyBid(id: BidId, now: Millis)
    | CancelOrder(id: OrderId)
    | PaidOrder(id: OrderId)
    | ConvertTop
    | DeleteOrders
    | DeleteRow

  function WithoutOrders(m: Market, aid: AuctionId): Market {
    m.(orders := map o | o in m.orders && m.orders[o].auctionId != aid :: m.orders[o])
  }

  function Perform(m: Market, aid: AuctionId, w: Write): Market {
    match w
    case InsertBid(b) => WithBid(m, b)
    case UpdateAuction(c) => if aid in m.auctions then WithAuction(m, aid, SetColumns(m.auctions[aid], c)) else m
    case InsertOrder(o) => WithOrder(m, o)
    case DisqualifyBid(id, now) =>
      if id < |m.bids| then m.(bids := m.bids[id := m.bids[id].(disqualifiedAt := Some(now))]) else m
    case CancelOrder(id) => if id in m.orders then WithStatus(m, id, CANCELLED) else m
    case PaidOrder(id) => if id in m.orders then WithStatus(m, id, PAID) else m
    case ConvertTop => m.(bids := MarkConverted(m.bids, aid))
    case DeleteOrders => WithoutOrders(m, aid)
    case DeleteRow => m.(auctions := m.auctions - {aid})
  }

  /** What a transaction sees: the committed tables and its own writes on top. */
  function Overlay(m: Market, aid: AuctionId, writes: seq<Write>): Market {
    if writes == [] then m else Perform(Overlay(m, aid, writes[..|writes| - 1]), aid, writes[|writes| - 1])
  }

  lemma OverlayAppend(m: Market, aid: AuctionId, writes: seq<Write>, w: Write)
    ensures Overlay(m, aid, writes + [w]) == Perform(Overlay(m, aid, writes), aid, w)
  {
    assert (writes + [w])[..|writes + [w]| - 1] == writes;
  }

  /** The next statement of a transaction that has its lock. */
  datatype Pc =
    | AtRow | AtBids
    | AtInsertBid | AtHold(bid: BidId) | AtBidUpdate(bid: BidId)
    | AtCloseUpdate | AtCloseOrder | AtLoser(k: nat)
    | AtBuyUpdate | AtBuyOrder
    | AtCount | AtPatch
    | AtClaim | AtWinnerBid | AtReopenUpdate
    | AtOwner | AtBidCount | AtOrderCount | AtDeleteOrders | AtDeleteRow
    | AtCommit(outcome: Outcome)

  /** A transaction in progress: the auction row and the bid table as it read them, and what it wrote. */
  datatype Frame = Frame(pc: Pc, row: Option<Auction>, seen: seq<Bid>, writes: seq<Write>)

  datatype Next = Go(f: Frame) | CommitTx(outcome: Outcome) | Rollback(outcome: Outcome)

  function Options(t: Txn): LockOptions {
    match t
    case Closing(options, _) => options
    case Reopening(_, _) => AnyRow()
    case Deleting(_, _) => AnyRow()
    case _ => OpenAfter(t.now)
  }

  /** What the transaction returns or throws when the lock statement finds no row. */
  function Missed(t: Txn): Outcome {
    match t
    case UserBid(_, _, _, _) => Threw(NotFound)
    case BotBid(_, _, _, _) => NoBid
    case Purchase(_, _, _, _) => Threw(BadRequest)
    case Closing(_, _) => NotClosed
    case Editing(_, _) => Threw(BadRequest)
    case Reopening(_, _) => Reopened(false)
    case Deleting(_, _) => Threw(NotFound)
  }

  function Start(t: Txn): Frame {
    Frame(match t
          case Purchase(_, _, _, _) => AtBuyUpdate
          case Editing(_, _) => AtCount
          case Deleting(_, _) => AtOwner
          case _ => AtRow,
          None, [], [])
  }

  function Goto(f: Frame, pc: Pc): Next { Go(f.(pc := pc)) }
  function Writing(f: Frame, w: Write, pc: Pc): Next { Go(f.(pc := pc, writes := f.writes + [w])) }

  /** A bot's refusals are null results and commit, a user's are exceptions. */
  function Refuse(t: Txn, f: Frame, e: Error): Next {
    if t.BotBid? then Goto(f, AtCommit(NoBid)) else Rollback(Threw(e))
  }

  /** The checks of a bid on the row and the bids it read, in the order of `placeBid`. */
  function CheckBid(aid: AuctionId, t: Txn, f: Frame, row: Auction): Next
    requires t.UserBid? || t.BotBid?
  {
    if row.sellerUserId == t.user then Refuse(t, f, BadRequest)
    else if Leader(f.seen, aid) == Some(t.user) then Refuse(t, f, BadRequest)
    else if row.status != OPEN then Refuse(t, f, BadRequest)
    else if row.endTime <= t.now then Refuse(t, f, BadRequest)
    else if t.price < row.currentPrice + row.minimumIncrement then Refuse(t, f, BadRequest)
    else Goto(f, AtInsertBid)
  }

  /** Updates the auction row, unless a CHECK constraint aborts the transaction. */
  function Updating(m: Market, aid: AuctionId, f: Frame, c: Columns, pc: Pc): Next {
    if aid in m.auctions && !RowOk(SetColumns(m.auctions[aid], c)) then Rollback(Threw(ConstraintViolation))
    else Writing(f, UpdateAuction(c), pc)
  }

  function Ordering(m: Market, aid: AuctionId, f: Frame, o: Order, pc: Pc): Next {
    if OrderInsertOk(m, aid) then Writing(f, InsertOrder(o), pc) else Rollback(Threw(ConstraintViolation))
  }

  function LosersOf(aid: AuctionId, seen: seq<Bid>): seq<BidId> {
    LosingIds(seen, LiveBids(seen, aid), Leader(seen, aid))
  }

  function CloseOutcome(aid: AuctionId, f: Frame, row: Auction): CloseResult {
    CloseResult(aid, Leader(f.seen, aid), SoldPrice(aid, f, row), Listed(f.seen, LosersOf(aid, f.seen)))
  }

  function SoldPrice(aid: AuctionId, f: Frame, row: Auction): int {
    var live := LiveBids(f.seen, aid);
    if live == [] then row.currentPrice else f.seen[live[0]].bidPrice
  }

  /** One statement, given what the transaction sees. */
  function Statement(m: Market, aid: AuctionId, t: Txn, f: Frame): Next {
    match f.pc
    case AtRow =>
      if aid in m.auctions then Go(f.(pc := AtBids, row := Some(m.auctions[aid])))
      else (if t.UserBid? then Rollback(Threw(NotFound)) else Goto(f, AtCommit(Missed(t))))
    case AtCommit(outcome) => CommitTx(outcome)
    case _ =>
      match t
      case UserBid(_, _, _, _) => BidStatement(m, aid, t, f)
      case BotBid(_, _, _, _) => BidStatement(m, aid, t, f)
      case Purchase(_, _, _, _) => PurchaseStatement(m, aid, t, f)
      case Closing(_, _) => CloseStatement(m, aid, t, f)
      case Editing(_, _) => EditStatement(m, aid, t, f)
      case Reopening(_, _) => ReopenStatement(m, aid, t, f)
      case Deleting(_, _) => DeleteStatement(m, aid, t, f)
  }

  function BidStatement(m: Market, aid: AuctionId, t: Txn, f: Frame): Next
    requires t.UserBid? || t.BotBid?
  {
    match f.pc
    case AtBids => if f.row.Some? then CheckBid(aid, t, f.(seen := m.bids), f.row.value) else Rollback(Threw(NotFound))
    case AtInsertBid =>
      if BidInsertOk(t.wallet, t.user, t.price) then Writing(f, InsertBid(NewBid(aid, t.user, t.price)), AtHold(|m.bids|))
      else Rollback(Threw(ConstraintViolation))
    case AtHold(id) =>
      if Covers(t.wallet, t.user, t.price) then Goto(f, AtBidUpdate(id)) else Refuse(t, f, BadRequest)
    case AtBidUpdate(id) =>
      if f.row.Some?
      then Updating(m, aid, f, BidColumnsOf(f.row.value, t.now, t.price), AtCommit(BidPlaced(id)))
      else Rollback(Threw(NotFound))
    case _ => Rollback(Threw(NotFound))
  }

  function CloseStatement(m: Market, aid: AuctionId, t: Txn, f: Frame): Next
    requires t.Closing?
  {
    if f.row.None? then Rollback(Threw(NotFound))
    else
      var winner, price := Leader(f.seen, aid), SoldPrice(aid, f, f.row.value);
      match f.pc
      case AtBids => Go(f.(pc := AtCloseUpdate, seen := m.bids))
      case AtCloseUpdate =>
        Updating(m, aid, f, CloseColumns(t.now, winner, price), if winner.Some? then AtCloseOrder else AtLoser(0))
      case AtCloseOrder =>
        if winner.Some? then Ordering(m, aid, f, Order(aid, winner.value, price, PENDING), AtLoser(0))
        else Rollback(Threw(NotFound))
      case AtLoser(k) =>
        var losers := LosersOf(aid, f.seen);
        if k < |losers| then Writing(f, DisqualifyBid(losers[k], t.now), AtLoser(k + 1))
        else Goto(f, AtCommit(Closed(CloseOutcome(aid, f, f.row.value))))
      case _ => Rollback(Threw(NotFound))
  }

  function PurchaseStatement(m: Market, aid: AuctionId, t: Txn, f: Frame): Next
    requires t.Purchase?
  {
    match f.pc
    case AtBuyUpdate =>
      if t.user < |t.wallet.balance|
      then Updating(m, aid, f, CloseColumns(t.now, Some(t.user), t.price), AtBuyOrder)
      else Rollback(Threw(ConstraintViolation))
    case AtBuyOrder => Ordering(m, aid, f, Order(aid, t.user, t.price, PENDING), AtCommit(Bought(m.nextOrder)))
    case _ => Rollback(Threw(NotFound))
  }

  function EditStatement(m: Market, aid: AuctionId, t: Txn, f: Frame): Next
    requires t.Editing?
  {
    match f.pc
    case AtCount =>
      if HasBids(m.bids, aid) && (t.p.startPrice.Some? || t.p.buyNowPrice.Some?) then Rollback(Threw(BadRequest))
      else Goto(f, AtPatch)
    case AtPatch => Updating(m, aid, f, PatchColumns(t.p), AtCommit(Edited))
    case _ => Rollback(Threw(NotFound))
  }

  function ReopenStatement(m: Market, aid: AuctionId, t: Txn, f: Frame): Next
    requires t.Reopening?
  {
    if f.row.None? then Rollback(Threw(NotFound))
    else
      match f.pc
      case AtBids =>
        if f.row.value.status != CLOSED then Goto(f, AtCommit(Reopened(false))) else Go(f.(pc := AtClaim, seen := m.bids))
      case AtClaim =>
        if Pending(m, t.o.id)
        then Writing(f, CancelOrder(t.o.id), if IsAuctionWinner(f.seen, t.o) then AtWinnerBid else AtReopenUpdate)
        else Goto(f, AtCommit(Reopened(false)))
      case AtWinnerBid =>
        var live := LiveBids(f.seen, aid);
        if live != [] then Writing(f, DisqualifyBid(live[0], t.now), AtReopenUpdate) else Rollback(Threw(NotFound))
      case AtReopenUpdate =>
        Updating(m, aid, f, ReopenColumns(t.now + REOPEN_MS, BaselinePrice(f.seen, t.o, f.row.value.startPrice)),
                 AtCommit(Reopened(true)))
      case _ => Rollback(Threw(NotFound))
  }

  /** The owner is checked on the row that the lock statement returned. */
  function DeleteStatement(m: Market, aid: AuctionId, t: Txn, f: Frame): Next
    requires t.Deleting?
  {
    match f.pc
    case AtOwner =>
      if aid in m.auctions && !t.admin && m.auctions[aid].sellerUserId != t.user then Rollback(Threw(Forbidden))
      else Goto(f, AtBidCount)
    case AtBidCount => if HasBids(m.bids, aid) then Rollback(Threw(BadRequest)) else Goto(f, AtOrderCount)
    case AtOrderCount => if ActiveOrders(m, aid) != {} then Rollback(Threw(BadRequest)) else Goto(f, AtDeleteOrders)
    case AtDeleteOrders => Writing(f, DeleteOrders, AtDeleteRow)
    case AtDeleteRow => Writing(f, DeleteRow, AtCommit(Deleted))
    case _ => Rollback(Threw(NotFound))
  }

  // ---------------------------------------------------------------- what a transaction knows at each statement

  predicate Concerns(t: Txn, aid: AuctionId) { t.Reopening? ==> t.o.auctionId == aid }

  /** The market of a close after its first `k` losers were disqualified. */
  function ClosedUpTo(m: Market, aid: AuctionId, now: Millis, k: nat): Market
    requires aid in m.auctions && k <= |LosersOf(aid, m.bids)|
  {
    ClosedMarket(m, aid, now).(bids := Disqualify(m.bids, LosersOf(aid, m.bids)[..k], now))
  }

  predicate IsBidder(t: Txn) { t.UserBid? || t.BotBid? }

  /** A bid's checks passed on the committed row and bids. */
  predicate MayBid(m: Market, aid: AuctionId, t: Txn) {
    IsBidder(t) && BidError(m, aid, t.user, t.price, t.now).None?
  }

  predicate InsertMade(m: Market, aid: AuctionId, t: Txn, v: Market) {
    MayBid(m, aid, t) && BidInsertOk(t.wallet, t.user, t.price) && v == WithBid(m, NewBid(aid, t.user, t.price))
  }

  function WithClosedRow(m: Market, aid: AuctionId, winner: Option<UserId>, price: int, now: Millis): Market
    requires aid in m.auctions
  {
    WithAuction(m, aid, ClosedRow(m.auctions[aid], winner, price, now))
  }

  predicate MayBuy(m: Market, aid: AuctionId, t: Txn)
    requires aid in m.auctions
  {
    t.Purchase? && t.user < |t.wallet.balance| && RowOk(ClosedRow(m.auctions[aid], Some(t.user), t.price, t.now))
  }

  predicate MayPatch(m: Market, aid: AuctionId, t: Txn) {
    t.Editing? && !(HasBids(m.bids, aid) && (t.p.startPrice.Some? || t.p.buyNowPrice.Some?))
  }

  predicate MayDelete(m: Market, aid: AuctionId, t: Txn)
    requires aid in m.auctions
  {
    t.Deleting? && (t.admin || m.auctions[aid].sellerUserId == t.user)
  }

  function BidsReopened(m: Market, o: OrderRef, now: Millis): seq<Bid> {
    if IsAuctionWinner(m.bids, o) then Disqualify(m.bids, [LiveBids(m.bids, o.auctionId)[0]], now) else m.bids
  }

  /** The close went through and its first `k` losers are disqualified. */
  predicate LosersDone(m: Market, aid: AuctionId, t: Txn, f: Frame, k: nat, v: Market)
    requires aid in m.auctions
  {
    && t.Closing? && f.row == Some(m.auctions[aid]) && f.seen == m.bids
    && CloseRowOk(m, aid, t.now) && (Leader(m.bids, aid).Some? ==> OrderInsertOk(m, aid))
    && k <= |LosersOf(aid, m.bids)| && v == ClosedUpTo(m, aid, t.now, k)
  }

  /** What holds before each statement of a transaction that locked the row when `m` was committed: what it
      read is still so, and it sees `m` with exactly the writes of the statements behind it. */
  predicate At(m: Market, aid: AuctionId, t: Txn, f: Frame)
    requires aid in m.auctions
  {
    var v := Overlay(m, aid, f.writes);
    var row := f.row == Some(m.auctions[aid]);
    var read := row && f.seen == m.bids;
    match f.pc
    case AtRow => v == m && !t.Purchase? && !t.Editing? && !t.Deleting?
    case AtBids => v == m && row && !t.Purchase? && !t.Editing? && !t.Deleting?
    case AtInsertBid => read && v == m && MayBid(m, aid, t)
    case AtHold(id) => read && id == |m.bids| && InsertMade(m, aid, t, v)
    case AtBidUpdate(id) => read && id == |m.bids| && InsertMade(m, aid, t, v) && Covers(t.wallet, t.user, t.price)
    case AtCloseUpdate => read && v == m && t.Closing?
    case AtCloseOrder =>
      var r := CloseResultOf(m, aid);
      read && t.Closing? && r.winnerUserId.Some? && CloseRowOk(m, aid, t.now)
      && v == WithClosedRow(m, aid, r.winnerUserId, r.finalPrice, t.now)
    case AtLoser(k) => LosersDone(m, aid, t, f, k, v)
    case AtBuyUpdate => v == m && t.Purchase?
    case AtBuyOrder => MayBuy(m, aid, t) && v == WithClosedRow(m, aid, Some(t.user), t.price, t.now)
    case AtCount => v == m && t.Editing?
    case AtPatch => v == m && MayPatch(m, aid, t)
    case AtClaim => read && v == m && t.Reopening? && m.auctions[aid].status == CLOSED
    case AtWinnerBid =>
      read && t.Reopening? && Reopens(m, t.o) && IsAuctionWinner(m.bids, t.o) && v == WithStatus(m, t.o.id, CANCELLED)
    case AtReopenUpdate =>
      read && t.Reopening? && Reopens(m, t.o)
      && v == WithStatus(m, t.o.id, CANCELLED).(bids := BidsReopened(m, t.o, t.now))
    case AtOwner => v == m && t.Deleting?
    case AtBidCount => v == m && MayDelete(m, aid, t)
    case AtOrderCount => v == m && MayDelete(m, aid, t) && !HasBids(m.bids, aid)
    case AtDeleteOrders => v == m && MayDelete(m, aid, t) && !HasBids(m.bids, aid) && ActiveOrders(m, aid) == {}
    case AtDeleteRow =>
      MayDelete(m, aid, t) && !HasBids(m.bids, aid) && ActiveOrders(m, aid) == {} && v == WithoutOrders(m, aid)
    case AtCommit(outcome) => Effect(v, outcome) == Serial(m, aid, t)
  }

  /** A statement leads to the next one with its knowledge, or ends the transaction with the effect it has when
      it runs alone on `m`: a commit with what it sees, a rollback with `m`. */
  predicate Leads(m: Market, aid: AuctionId, t: Txn, f: Frame, next: Next)
    requires aid in m.auctions
  {
    match next
    case Go(f') => At(m, aid, t, f')
    case CommitTx(outcome) => Effect(Overlay(m, aid, f.writes), outcome) == Serial(m, aid, t)
    case Rollback(outcome) => Effect(m, outcome) == Serial(m, aid, t)
  }

  predicate HoldsLock(m: Market, aid: AuctionId, t: Txn) { Locks(m, aid, Options(t)) && Concerns(t, aid) }

  lemma BidReads(m: Market, aid: AuctionId, t: Txn, f: Frame)
    requires HoldsLock(m, aid, t) && IsBidder(t) && At(m, aid, t, f) && (f.pc.AtRow? || f.pc.AtBids? || f.pc.AtCommit?)
    ensures Leads(m, aid, t, f, Statement(Overlay(m, aid, f.writes), aid, t, f))
  {
  }

  lemma BidInserts(m: Market, aid: AuctionId, t: Txn, f: Frame)
    requires HoldsLock(m, aid, t) && IsBidder(t) && At(m, aid, t, f) && (f.pc.AtInsertBid? || f.pc.AtHold?)
    ensures Leads(m, aid, t, f, Statement(Overlay(m, aid, f.writes), aid, t, f))
  {
    OverlayAppend(m, aid, f.writes, InsertBid(NewBid(aid, t.user, t.price)));
  }

  lemma BidUpdates(m: Market, aid: AuctionId, t: Txn, f: Frame)
    requires HoldsLock(m, aid, t) && IsBidder(t) && At(m, aid, t, f) && f.pc.AtBidUpdate?
    ensures Leads(m, aid, t, f, Statement(Overlay(m, aid, f.writes), aid, t, f))
  {
    OverlayAppend(m, aid, f.writes, UpdateAuction(BidColumnsOf(m.auctions[aid], t.now, t.price)));
    BidColumnsUpdate(m.auctions[aid], t.now, t.price);
  }

  lemma BidKnows(m: Market, aid: AuctionId, t: Txn, f: Frame)
    requires HoldsLock(m, aid, t) && IsBidder(t) && At(m, aid, t, f)
    ensures Leads(m, aid, t, f, Statement(Overlay(m, aid, f.writes), aid, t, f))
  {
    if f.pc.AtBidUpdate? {
      BidUpdates(m, aid, t, f);
    } else if f.pc.AtInsertBid? || f.pc.AtHold? {
      BidInserts(m, aid, t, f);
    } else {
      BidReads(m, aid, t, f);
    }
  }

  lemma PurchaseCloses(m: Market, aid: AuctionId, t: Txn, f: Frame)
    requires HoldsLock(m, aid, t) && t.Purchase? && At(m, aid, t, f) && !f.pc.AtBuyOrder?
    ensures Leads(m, aid, t, f, Statement(Overlay(m, aid, f.writes), aid, t, f))
  {
    hide LiveBids, Leader, CloseStatement, ReopenStatement, BidStatement, EditStatement, DeleteStatement;
    hide Overlay, Disqualify, IsAuctionWinner, ClosedUpTo, ActiveOrders, HasBids, BidError, LosersOf;
    OverlayAppend(m, aid, f.writes, UpdateAuction(CloseColumns(t.now, Some(t.user), t.price)));
  }

  lemma PurchaseOrders(m: Market, aid: AuctionId, t: Txn, f: Frame)
    requires HoldsLock(m, aid, t) && t.Purchase? && At(m, aid, t, f) && f.pc.AtBuyOrder?
    ensures Leads(m, aid, t, f, Statement(Overlay(m, aid, f.writes), aid, t, f))
  {
    hide LiveBids, Leader, CloseStatement, ReopenStatement, BidStatement, EditStatement, DeleteStatement;
    hide Overlay, Disqualify, IsAuctionWinner, ClosedUpTo, ActiveOrders, HasBids, BidError, LosersOf;
    OverlayAppend(m, aid, f.writes, InsertOrder(Order(aid, t.user, t.price, PENDING)));
  }

  lemma PurchaseKnows(m: Market, aid: AuctionId, t: Txn, f: Frame)
    requires HoldsLock(m, aid, t) && t.Purchase? && At(m, aid, t, f)
    ensures Leads(m, aid, t, f, Statement(Overlay(m, aid, f.writes), aid, t, f))
  {
    hide Statement, Leads, Serial, At;
    if f.pc.AtBuyOrder? {
      PurchaseOrders(m, aid, t, f);
    } else {
      PurchaseCloses(m, aid, t, f);
    }
  }

  lemma EditKnows(m: Market, aid: AuctionId, t: Txn, f: Frame)
    requires HoldsLock(m, aid, t) && t.Editing? && At(m, aid, t, f)
    ensures Leads(m, aid, t, f, Statement(Overlay(m, aid, f.writes), aid, t, f))
  {
    OverlayAppend(m, aid, f.writes, UpdateAuction(PatchColumns(t.p)));
  }

  lemma DeleteChecks(m: Market, aid: AuctionId, t: Txn, f: Frame)
    requires HoldsLock(m, aid, t) && t.Deleting? && At(m, aid, t, f) && !f.pc.AtDeleteOrders? && !f.pc.AtDeleteRow?
    ensures Leads(m, aid, t, f, Statement(Overlay(m, aid, f.writes), aid, t, f))
  {
    hide HasBids, LiveBids, Leader, Perform;
  }

  lemma DeleteAlone(m: Market, aid: AuctionId, t: Txn)
    requires aid in m.auctions && MayDelete(m, aid, t) && !HasBids(m.bids, aid) && ActiveOrders(m, aid) == {}
    ensures Serial(m, aid, t) == Effect(Perform(WithoutOrders(m, aid), aid, DeleteRow), Deleted)
  {
    hide HasBids;
  }

  lemma PerformsDeletion(m: Market, aid: AuctionId)
    ensures Perform(m, aid, DeleteOrders) == WithoutOrders(m, aid)
  {
  }

  lemma DeletesOrders(m: Market, aid: AuctionId, t: Txn, f: Frame)
    requires HoldsLock(m, aid, t) && At(m, aid, t, f) && f.pc.AtDeleteOrders?
    ensures Leads(m, aid, t, f, Statement(Overlay(m, aid, f.writes), aid, t, f))
  {
    hide HasBids, Serial, ActiveOrders, CloseStatement, ReopenStatement, BidStatement, PurchaseStatement, Perform;
    hide WithoutOrders, EditStatement, Overlay, LiveBids, Leader, RowOk;
    OverlayAppend(m, aid, f.writes, DeleteOrders);
    PerformsDeletion(m, aid);
  }

  lemma DeletesRow(m: Market, aid: AuctionId, t: Txn, f: Frame)
    requires HoldsLock(m, aid, t) && At(m, aid, t, f) && f.pc.AtDeleteRow?
    ensures Leads(m, aid, t, f, Statement(Overlay(m, aid, f.writes), aid, t, f))
  {
    hide HasBids, Serial, ActiveOrders, CloseStatement, ReopenStatement, BidStatement, PurchaseStatement, WithoutOrders;
    OverlayAppend(m, aid, f.writes, DeleteRow);
    DeleteAlone(m, aid, t);
  }

  lemma DeleteKnows(m: Market, aid: AuctionId, t: Txn, f: Frame)
    requires HoldsLock(m, aid, t) && t.Deleting? && At(m, aid, t, f)
    ensures Leads(m, aid, t, f, Statement(Overlay(m, aid, f.writes), aid, t, f))
  {
    hide Statement, Leads, HasBids, Serial;
    if f.pc.AtDeleteOrders? {
      DeletesOrders(m, aid, t, f);
    } else if f.pc.AtDeleteRow? {
      DeletesRow(m, aid, t, f);
    } else {
      DeleteChecks(m, aid, t, f);
    }
  }

  lemma ReopensNothing(m: Market, aid: AuctionId, t: Txn)
    requires t.Reopening? && !Reopens(m, t.o)
    ensures Serial(m, aid, t) == Effect(m, Reopened(false))
  {
  }

  lemma PerformsCancel(m: Market, aid: AuctionId, o: OrderId)
    requires o in m.orders
    ensures Perform(m, aid, CancelOrder(o)) == WithStatus(m, o, CANCELLED)
  {
    hide WithStatus;
  }

  lemma ReopenClaims(m: Market, aid: AuctionId, t: Txn, f: Frame)
    requires HoldsLock(m, aid, t) && t.Reopening? && At(m, aid, t, f) && f.pc.AtClaim?
    ensures Leads(m, aid, t, f, Statement(Overlay(m, aid, f.writes), aid, t, f))
  {
    hide Serial, IsAuctionWinner, Disqualify, LiveBids, Perform, CloseStatement, BidStatement, PurchaseStatement;
    hide EditStatement, DeleteStatement, BaselinePrice, RowOk, Overlay;
    OverlayAppend(m, aid, f.writes, CancelOrder(t.o.id));
    if Pending(m, t.o.id) {
      PerformsCancel(m, aid, t.o.id);
    } else {
      ReopensNothing(m, aid, t);
    }
  }

  lemma WinnerStatement(m: Market, aid: AuctionId, t: Txn, f: Frame)
    requires t.Reopening? && f.row.Some? && f.pc.AtWinnerBid? && LiveBids(f.seen, aid) != []
    ensures Statement(m, aid, t, f) == Writing(f, DisqualifyBid(LiveBids(f.seen, aid)[0], t.now), AtReopenUpdate)
  {
  }

  lemma WinnerWritten(m: Market, aid: AuctionId, o: OrderRef, now: Millis)
    requires o.auctionId == aid && Reopens(m, o) && IsAuctionWinner(m.bids, o)
    ensures LiveBids(m.bids, aid) != []
    ensures Perform(WithStatus(m, o.id, CANCELLED), aid, DisqualifyBid(LiveBids(m.bids, aid)[0], now))
      == WithStatus(m, o.id, CANCELLED).(bids := BidsReopened(m, o, now))
  {
    hide Disqualify, Perform, LiveBids;
    DisqualifiedTop(WithStatus(m, o.id, CANCELLED), aid, LiveBids(m.bids, aid)[0], now);
  }

  lemma DisqualifiedTop(m: Market, aid: AuctionId, top: BidId, now: Millis)
    requires top < |m.bids|
    ensures Perform(m, aid, DisqualifyBid(top, now)) == m.(bids := Disqualify(m.bids, [top], now))
  {
    DisqualifyOne(m.bids, top, now);
  }

  lemma ReopenDisqualifies(m: Market, aid: AuctionId, t: Txn, f: Frame)
    requires HoldsLock(m, aid, t) && t.Reopening? && At(m, aid, t, f) && f.pc.AtWinnerBid?
    ensures Leads(m, aid, t, f, Statement(Overlay(m, aid, f.writes), aid, t, f))
  {
    hide Statement, Serial, BidsReopened, WithStatus, Perform, IsAuctionWinner;
    WinnerWritten(m, aid, t.o, t.now);
    var w := DisqualifyBid(LiveBids(m.bids, aid)[0], t.now);
    WinnerStatement(Overlay(m, aid, f.writes), aid, t, f);
    OverlayAppend(m, aid, f.writes, w);
  }

  lemma ReopenAlone(m: Market, aid: AuctionId, t: Txn)
    requires t.Reopening? && t.o.auctionId == aid && Reopens(m, t.o)
    ensures var row := m.auctions[aid];
      Serial(m, aid, t) ==
      if RowOk(ReopenedRow(row, BaselinePrice(m.bids, t.o, row.startPrice), t.now))
      then Effect(ReopenedMarket(m, t.o, t.now), Reopened(true)) else Effect(m, Threw(ConstraintViolation))
  {
  }

  lemma ReopenWritten(m: Market, aid: AuctionId, o: OrderRef, now: Millis)
    requires o.auctionId == aid && Reopens(m, o)
    ensures var c := ReopenColumns(now + REOPEN_MS, BaselinePrice(m.bids, o, m.auctions[aid].startPrice));
      Perform(WithStatus(m, o.id, CANCELLED).(bids := BidsReopened(m, o, now)), aid, UpdateAuction(c))
      == ReopenedMarket(m, o, now)
  {
    hide IsAuctionWinner, BaselinePrice, Disqualify;
  }

  lemma ReopenUpdates(m: Market, aid: AuctionId, t: Txn, f: Frame)
    requires HoldsLock(m, aid, t) && t.Reopening? && At(m, aid, t, f) && f.pc.AtReopenUpdate?
    ensures Leads(m, aid, t, f, Statement(Overlay(m, aid, f.writes), aid, t, f))
  {
    hide Serial, IsAuctionWinner, BaselinePrice, Disqualify;
    var c := ReopenColumns(t.now + REOPEN_MS, BaselinePrice(m.bids, t.o, m.auctions[aid].startPrice));
    OverlayAppend(m, aid, f.writes, UpdateAuction(c));
    ReopenAlone(m, aid, t);
    ReopenWritten(m, aid, t.o, t.now);
  }

  lemma ReopenReads(m: Market, aid: AuctionId, t: Txn, f: Frame)
    requires HoldsLock(m, aid, t) && t.Reopening? && At(m, aid, t, f) && (f.pc.AtRow? || f.pc.AtBids? || f.pc.AtCommit?)
    ensures Leads(m, aid, t, f, Statement(Overlay(m, aid, f.writes), aid, t, f))
  {
  }

  lemma ReopenKnows(m: Market, aid: AuctionId, t: Txn, f: Frame)
    requires HoldsLock(m, aid, t) && t.Reopening? && At(m, aid, t, f)
    ensures Leads(m, aid, t, f, Statement(Overlay(m, aid, f.writes), aid, t, f))
  {
    if f.pc.AtClaim? {
      ReopenClaims(m, aid, t, f);
    } else if f.pc.AtWinnerBid? {
      ReopenDisqualifies(m, aid, t, f);
    } else if f.pc.AtReopenUpdate? {
      ReopenUpdates(m, aid, t, f);
    } else {
      ReopenReads(m, aid, t, f);
    }
  }

  lemma NoneDisqualified(bids: seq<Bid>, ids: seq<BidId>, now: Millis)
    ensures Disqualify(bids, ids[..0], now) == bids
  {
  }

  /** The tables before the first loser of an unsold close. */
  lemma UnsoldUpTo(m: Market, aid: AuctionId, now: Millis)
    requires aid in m.auctions && Leader(m.bids, aid).None?
    ensures ClosedUpTo(m, aid, now, 0) == WithClosedRow(m, aid, None, CloseResultOf(m, aid).finalPrice, now)
  {
    NoneDisqualified(m.bids, LosersOf(aid, m.bids), now);
  }

  lemma SoldUpTo(m: Market, aid: AuctionId, now: Millis)
    requires aid in m.auctions && Leader(m.bids, aid).Some?
    ensures var r := CloseResultOf(m, aid);
      ClosedUpTo(m, aid, now, 0) == WithOrder(WithClosedRow(m, aid, r.winnerUserId, r.finalPrice, now),
                                              Order(aid, r.winnerUserId.value, r.finalPrice, PENDING))
  {
    NoneDisqualified(m.bids, LosersOf(aid, m.bids), now);
  }

  lemma CloseRefused(m: Market, aid: AuctionId, t: Txn)
    requires HoldsLock(m, aid, t) && t.Closing?
    requires !CloseRowOk(m, aid, t.now) || (Leader(m.bids, aid).Some? && !OrderInsertOk(m, aid))
    ensures Serial(m, aid, t) == Effect(m, Threw(ConstraintViolation))
  {
  }

  lemma CloseUpdateKnows(m: Market, aid: AuctionId, t: Txn, f: Frame)
    requires HoldsLock(m, aid, t) && t.Closing? && At(m, aid, t, f) && f.pc.AtCloseUpdate?
    ensures Leads(m, aid, t, f, Statement(Overlay(m, aid, f.writes), aid, t, f))
  {
    var r := CloseResultOf(m, aid);
    OverlayAppend(m, aid, f.writes, UpdateAuction(CloseColumns(t.now, r.winnerUserId, r.finalPrice)));
    if !CloseRowOk(m, aid, t.now) {
      CloseRefused(m, aid, t);
    } else if r.winnerUserId.None? {
      UnsoldUpTo(m, aid, t.now);
    }
  }

  lemma CloseOrderKnows(m: Market, aid: AuctionId, t: Txn, f: Frame)
    requires HoldsLock(m, aid, t) && t.Closing? && At(m, aid, t, f) && f.pc.AtCloseOrder?
    ensures Leads(m, aid, t, f, Statement(Overlay(m, aid, f.writes), aid, t, f))
  {
    var r := CloseResultOf(m, aid);
    OverlayAppend(m, aid, f.writes, InsertOrder(Order(aid, r.winnerUserId.value, r.finalPrice, PENDING)));
    if OrderInsertOk(m, aid) {
      SoldUpTo(m, aid, t.now);
    } else {
      CloseRefused(m, aid, t);
    }
  }

  lemma NextLoser(closed: Market, aid: AuctionId, bids: seq<Bid>, ids: seq<BidId>, k: nat, now: Millis)
    requires k < |ids| && ids[k] < |bids|
    ensures Perform(closed.(bids := Disqualify(bids, ids[..k], now)), aid, DisqualifyBid(ids[k], now))
      == closed.(bids := Disqualify(bids, ids[..k + 1], now))
  {
    DisqualifyNext(bids, ids, k, now);
  }

  lemma AllLosers(m: Market, aid: AuctionId, now: Millis)
    requires aid in m.auctions
    ensures ClosedUpTo(m, aid, now, |LosersOf(aid, m.bids)|) == ClosedMarket(m, aid, now)
  {
    var losers := LosersOf(aid, m.bids);
    assert losers[..|losers|] == losers;
  }

  lemma LoserStatement(m: Market, aid: AuctionId, t: Txn, f: Frame)
    requires t.Closing? && f.row.Some? && f.pc.AtLoser? && f.pc.k < |LosersOf(aid, f.seen)|
    ensures Statement(m, aid, t, f)
      == Writing(f, DisqualifyBid(LosersOf(aid, f.seen)[f.pc.k], t.now), AtLoser(f.pc.k + 1))
  {
    hide LosersOf, SoldPrice, CloseOutcome, Leader;
  }

  lemma LoserStep(m: Market, aid: AuctionId, t: Txn, f: Frame, f': Frame, k: nat, v: Market)
    requires aid in m.auctions && LosersDone(m, aid, t, f, k, v) && k < |LosersOf(aid, m.bids)|
    requires f'.row == f.row && f'.seen == f.seen
    ensures LosersDone(m, aid, t, f', k + 1, Perform(v, aid, DisqualifyBid(LosersOf(aid, m.bids)[k], t.now)))
  {
    hide ClosedMarket, RowOk, OrderInsertOk, Perform;
    NextLoser(ClosedMarket(m, aid, t.now), aid, m.bids, LosersOf(aid, m.bids), k, t.now);
  }

  lemma LosersDoneMeans(m: Market, aid: AuctionId, t: Txn, f: Frame, k: nat, v: Market)
    requires aid in m.auctions && LosersDone(m, aid, t, f, k, v)
    ensures f.row.Some? && f.seen == m.bids
  {
  }

  lemma LoserKnows(m: Market, aid: AuctionId, t: Txn, f: Frame)
    requires aid in m.auctions && t.Closing? && f.pc.AtLoser? && f.pc.k < |LosersOf(aid, m.bids)|
    requires LosersDone(m, aid, t, f, f.pc.k, Overlay(m, aid, f.writes))
    ensures Leads(m, aid, t, f, Statement(Overlay(m, aid, f.writes), aid, t, f))
  {
    hide LosersDone, Statement, Leads, Perform, Serial, LosersOf, Overlay, At;
    var v, w := Overlay(m, aid, f.writes), DisqualifyBid(LosersOf(aid, m.bids)[f.pc.k], t.now);
    LosersDoneMeans(m, aid, t, f, f.pc.k, v);
    LoserStatement(v, aid, t, f);
    OverlayAppend(m, aid, f.writes, w);
    LoserStep(m, aid, t, f, f.(pc := AtLoser(f.pc.k + 1), writes := f.writes + [w]), f.pc.k, v);
    LoserLeads(m, aid, t, f, w);
  }

  lemma LoserLeads(m: Market, aid: AuctionId, t: Txn, f: Frame, w: Write)
    requires aid in m.auctions && f.pc.AtLoser?
    requires var f' := f.(pc := AtLoser(f.pc.k + 1), writes := f.writes + [w]);
      LosersDone(m, aid, t, f', f.pc.k + 1, Overlay(m, aid, f'.writes))
    ensures Leads(m, aid, t, f, Writing(f, w, AtLoser(f.pc.k + 1)))
  {
    hide LosersDone, Overlay;
  }

  lemma CloseAlone(m: Market, aid: AuctionId, t: Txn)
    requires HoldsLock(m, aid, t) && t.Closing? && CloseRowOk(m, aid, t.now)
    requires Leader(m.bids, aid).Some? ==> OrderInsertOk(m, aid)
    ensures Serial(m, aid, t) == Effect(ClosedMarket(m, aid, t.now), Closed(CloseResultOf(m, aid)))
  {
  }

  lemma LastLoserKnows(m: Market, aid: AuctionId, t: Txn, f: Frame)
    requires HoldsLock(m, aid, t) && t.Closing? && At(m, aid, t, f) && f.pc == AtLoser(|LosersOf(aid, m.bids)|)
    ensures Leads(m, aid, t, f, Statement(Overlay(m, aid, f.writes), aid, t, f))
  {
    AllLosers(m, aid, t.now);
    CloseAlone(m, aid, t);
  }

  lemma CloseKnows(m: Market, aid: AuctionId, t: Txn, f: Frame)
    requires HoldsLock(m, aid, t) && t.Closing? && At(m, aid, t, f)
    ensures Leads(m, aid, t, f, Statement(Overlay(m, aid, f.writes), aid, t, f))
  {
    if f.pc.AtCloseUpdate? {
      CloseUpdateKnows(m, aid, t, f);
    } else if f.pc.AtCloseOrder? {
      CloseOrderKnows(m, aid, t, f);
    } else if f.pc.AtLoser? {
      if f.pc.k < |LosersOf(aid, m.bids)| {
        LoserKnows(m, aid, t, f);
      } else {
        LastLoserKnows(m, aid, t, f);
      }
    }
  }

  lemma StatementKnows(m: Market, aid: AuctionId, t: Txn, f: Frame)
    requires HoldsLock(m, aid, t) && At(m, aid, t, f)
    ensures Leads(m, aid, t, f, Statement(Overlay(m, aid, f.writes), aid, t, f))
  {
    match t
    case UserBid(_, _, _, _) => BidKnows(m, aid, t, f);
    case BotBid(_, _, _, _) => BidKnows(m, aid, t, f);
    case Purchase(_, _, _, _) => PurchaseKnows(m, aid, t, f);
    case Closing(_, _) => CloseKnows(m, aid, t, f);
    case Editing(_, _) => EditKnows(m, aid, t, f);
    case Reopening(_, _) => ReopenKnows(m, aid, t, f);
    case Deleting(_, _) => DeleteKnows(m, aid, t, f);
  }

  /** A lock statement that finds no row: the transaction ends as it does alone on the market of that moment. */
  lemma MissKnows(m: Market, aid: AuctionId, t: Txn)
    requires !Locks(m, aid, Options(t)) && Concerns(t, aid)
    ensures Serial(m, aid, t) == Effect(m, Missed(t))
  {
  }

  lemma StartKnows(m: Market, aid: AuctionId, t: Txn)
    requires HoldsLock(m, aid, t)
    ensures At(m, aid, t, Start(t))
  {
  }

  // ---------------------------------------------------------------- schedules

  datatype TxState = Idle | Running(f: Frame) | Ended(outcome: Outcome)

  /** `done` lists the ended transactions in the order of their ends, `locked` those that got the lock in the
      order they got it. */
  datatype World = World(
    committed: Market, holder: Option<nat>, states: seq<TxState>, done: seq<nat>, locked: seq<nat>)

  function Finish(w: World, i: nat, m: Market, outcome: Outcome): World
    requires i < |w.states|
  {
    w.(committed := m, holder := None, states := w.states[i := Ended(outcome)], done := w.done + [i])
  }

  function Miss(w: World, i: nat, outcome: Outcome): World
    requires i < |w.states|
  {
    w.(states := w.states[i := Ended(outcome)], done := w.done + [i])
  }

  function Advance(w: World, aid: AuctionId, i: nat, f: Frame, next: Next): World
    requires i < |w.states|
  {
    match next
    case Go(f') => w.(states := w.states[i := Running(f')])
    case CommitTx(outcome) => Finish(w, i, Overlay(w.committed, aid, f.writes), outcome)
    case Rollback(outcome) => Finish(w, i, w.committed, outcome)
  }

  /** Transaction `i` tries its next statement; a blocked or ended one does nothing. */
  function Step(w: World, aid: AuctionId, ts: seq<Txn>, i: nat): World
    requires |w.states| == |ts| && i < |ts|
  {
    match w.states[i]
    case Idle =>
      if !Locks(w.committed, aid, Options(ts[i])) then Miss(w, i, Missed(ts[i]))
      else if w.holder.Some? then w
      else w.(holder := Some(i), states := w.states[i := Running(Start(ts[i]))], locked := w.locked + [i])
    case Running(f) =>
      Advance(w, aid, i, f, Statement(Overlay(w.committed, aid, f.writes), aid, ts[i], f))
    case Ended(_) => w
  }

  function Opening(m: Market, ts: seq<Txn>): World {
    World(m, None, seq(|ts|, _ => Idle), [], [])
  }

  function Interleave(m: Market, aid: AuctionId, ts: seq<Txn>, schedule: seq<nat>): (w: World)
    requires forall k :: 0 <= k < |schedule| ==> schedule[k] < |ts|
    ensures |w.states| == |ts|
  {
    if schedule == [] then Opening(m, ts)
    else Step(Interleave(m, aid, ts, schedule[..|schedule| - 1]), aid, ts, schedule[|schedule| - 1])
  }

  /** `done` lists exactly the ended transactions, each once. */
  predicate InOrder(done: seq<nat>, states: seq<TxState>) {
    && (forall k :: 0 <= k < |done| ==> done[k] < |states| && states[done[k]].Ended?)
    && (forall i :: 0 <= i < |states| && states[i].Ended? ==> i in done)
    && (forall j, k :: 0 <= j < k < |done| ==> done[j] != done[k])
  }

  /** Run one after another, the ended transactions return and throw what they did in the interleaving. */
  predicate Outcomes(m: Market, aid: AuctionId, ts: seq<Txn>, w: World)
    requires |w.states| == |ts| && InOrder(w.done, w.states)
  {
    forall k {:trigger w.done[k]} :: 0 <= k < |w.done| ==>
      Serial(SerialRun(m, aid, ts, w.done[..k]), aid, ts[w.done[k]]).outcome == w.states[w.done[k]].outcome
  }

  /** `a` is a subsequence of `b`. */
  predicate Within(a: seq<nat>, b: seq<nat>)
    decreases |b|
  {
    if a == [] then true
    else if b == [] then false
    else if a[|a| - 1] == b[|b| - 1] then Within(a[..|a| - 1], b[..|b| - 1])
    else Within(a, b[..|b| - 1])
  }

  /** The transactions that got the lock and have ended, in the order they got it. */
  function LockedAndEnded(w: World): seq<nat> {
    if w.holder.Some? && w.locked != [] then w.locked[..|w.locked| - 1] else w.locked
  }

  /** Only the holder runs, and it knows what `At` says about the committed market. */
  predicate HolderKnows(aid: AuctionId, ts: seq<Txn>, w: World)
    requires |w.states| == |ts|
  {
    && (forall i :: 0 <= i < |ts| && w.states[i].Running? ==> w.holder == Some(i))
    && (w.holder.Some? ==>
          var i := w.holder.value;
          && i < |ts| && w.states[i].Running? && HoldsLock(w.committed, aid, ts[i])
          && At(w.committed, aid, ts[i], w.states[i].f)
          && w.locked != [] && w.locked[|w.locked| - 1] == i)
  }

  /** The committed market and all outcomes are those of the ended transactions run one after another in the
      order of their ends, which is the lock order among those that got the lock. */
  predicate Serializable(m: Market, aid: AuctionId, ts: seq<Txn>, w: World) {
    && |w.states| == |ts| && InOrder(w.done, w.states)
    && w.committed == SerialRun(m, aid, ts, w.done)
    && Outcomes(m, aid, ts, w)
    && Within(LockedAndEnded(w), w.done)
  }

  lemma {:induction false} WithinShorter(a: seq<nat>, b: seq<nat>)
    requires a != [] && Within(a, b)
    ensures Within(a[..|a| - 1], b)
    decreases |b|
  {
    var a', b' := a[..|a| - 1], b[..|b| - 1];
    if a' == [] {
    } else {
      if a[|a| - 1] == b[|b| - 1] {
        if a'[|a'| - 1] == b[|b| - 1] {
          WithinShorter(a', b');
        }
      } else {
        WithinShorter(a, b');
        if a'[|a'| - 1] == b[|b| - 1] {
          WithinShorter(a', b');
        }
      }
    }
  }

  lemma WithinLonger(a: seq<nat>, b: seq<nat>, x: nat)
    requires Within(a, b)
    ensures Within(a, b + [x]) && Within(a + [x], b + [x])
  {
    assert (b + [x])[..|b|] == b && (a + [x])[..|a|] == a;
    if a != [] {
      WithinShorter(a, b);
    }
  }

  lemma SerialRunAppend(m: Market, aid: AuctionId, ts: seq<Txn>, done: seq<nat>, i: nat)
    requires i < |ts| && forall k :: 0 <= k < |done| ==> done[k] < |ts|
    ensures SerialRun(m, aid, ts, done + [i]) == Serial(SerialRun(m, aid, ts, done), aid, ts[i]).market
  {
    assert (done + [i])[..|done + [i]| - 1] == done;
  }

  /** A transaction ends with its serial effect: the new order of ends still explains everything. */
  lemma EndKeeps(m: Market, aid: AuctionId, ts: seq<Txn>, w: World, w': World, i: nat, outcome: Outcome)
    requires Serializable(m, aid, ts, w) && i < |ts| && !w.states[i].Ended?
    requires w'.states == w.states[i := Ended(outcome)] && w'.done == w.done + [i]
    requires Effect(w'.committed, outcome) == Serial(w.committed, aid, ts[i])
    requires LockedAndEnded(w') == LockedAndEnded(w) || LockedAndEnded(w') == LockedAndEnded(w) + [i]
    ensures Serializable(m, aid, ts, w')
  {
    hide Serial, Within;
    EndOrder(w.done, w.states, i, outcome);
    SerialRunAppend(m, aid, ts, w.done, i);
    EndOutcomes(m, aid, ts, w, w', i, outcome);
    WithinLonger(LockedAndEnded(w), w.done, i);
  }

  lemma EndOrder(done: seq<nat>, states: seq<TxState>, i: nat, outcome: Outcome)
    requires InOrder(done, states) && i < |states| && !states[i].Ended?
    ensures InOrder(done + [i], states[i := Ended(outcome)])
  {
    var states' := states[i := Ended(outcome)];
    forall j | 0 <= j < |states'| && states'[j].Ended? ensures j in done + [i] {
      assert j != i ==> states[j].Ended? && j in done;
    }
  }

  lemma EndOutcomes(m: Market, aid: AuctionId, ts: seq<Txn>, w: World, w': World, i: nat, outcome: Outcome)
    requires Serializable(m, aid, ts, w) && i < |ts| && !w.states[i].Ended?
    requires w'.states == w.states[i := Ended(outcome)] && w'.done == w.done + [i] && InOrder(w'.done, w'.states)
    requires Serial(w.committed, aid, ts[i]).outcome == outcome
    ensures Outcomes(m, aid, ts, w')
  {
    hide Serial, SerialRun, Within;
    forall k | 0 <= k < |w'.done|
      ensures Serial(SerialRun(m, aid, ts, w'.done[..k]), aid, ts[w'.done[k]]).outcome == w'.states[w'.done[k]].outcome
    {
      assert w'.done[..k] == w.done[..k];
      if k == |w.done| {
        assert w.done[..k] == w.done;
      } else {
        assert w'.done[k] == w.done[k];
      }
    }
  }

  /** A transaction moves without ending. */
  lemma StayKeeps(m: Market, aid: AuctionId, ts: seq<Txn>, w: World, w': World, i: nat, f: Frame)
    requires Serializable(m, aid, ts, w) && i < |ts| && !w.states[i].Ended?
    requires w'.committed == w.committed && w'.done == w.done && w'.states == w.states[i := Running(f)]
    requires LockedAndEnded(w') == LockedAndEnded(w)
    ensures Serializable(m, aid, ts, w')
  {
    hide Serial, SerialRun, Within;
    assert InOrder(w'.done, w'.states);
    forall k | 0 <= k < |w.done| ensures w'.states[w.done[k]] == w.states[w.done[k]] {
      assert w.states[w.done[k]].Ended?;
    }
  }

  lemma MissKeeps(m: Market, aid: AuctionId, ts: seq<Txn>, w: World, i: nat, outcome: Outcome)
    requires Serializable(m, aid, ts, w) && HolderKnows(aid, ts, w) && i < |ts| && w.states[i].Idle?
    requires Serial(w.committed, aid, ts[i]) == Effect(w.committed, outcome)
    ensures Serializable(m, aid, ts, Miss(w, i, outcome)) && HolderKnows(aid, ts, Miss(w, i, outcome))
  {
    hide Serial, SerialRun, Within, At;
    EndKeeps(m, aid, ts, w, Miss(w, i, outcome), i, outcome);
    MissHolder(aid, ts, w, i, outcome);
  }

  lemma MissHolder(aid: AuctionId, ts: seq<Txn>, w: World, i: nat, outcome: Outcome)
    requires |w.states| == |ts| && HolderKnows(aid, ts, w) && i < |ts| && w.states[i].Idle?
    ensures HolderKnows(aid, ts, Miss(w, i, outcome))
  {
    hide Serial, At;
  }

  lemma IdleKeeps(m: Market, aid: AuctionId, ts: seq<Txn>, w: World, i: nat)
    requires Serializable(m, aid, ts, w) && HolderKnows(aid, ts, w)
    requires i < |ts| && w.states[i].Idle? && Concerns(ts[i], aid)
    ensures Serializable(m, aid, ts, Step(w, aid, ts, i)) && HolderKnows(aid, ts, Step(w, aid, ts, i))
  {
    hide Serial, SerialRun, Within, At, Outcomes, InOrder, Missed, Start, Statement, LockGuard;
    var w' := Step(w, aid, ts, i);
    if !Locks(w.committed, aid, Options(ts[i])) {
      MissKnows(w.committed, aid, ts[i]);
      MissKeeps(m, aid, ts, w, i, Missed(ts[i]));
    } else if w.holder.None? {
      StartKnows(w.committed, aid, ts[i]);
      assert w'.locked[..|w'.locked| - 1] == w.locked;
      StayKeeps(m, aid, ts, w, w', i, Start(ts[i]));
    }
  }

  lemma AdvanceKeeps(m: Market, aid: AuctionId, ts: seq<Txn>, w: World, i: nat, f: Frame, next: Next)
    requires Serializable(m, aid, ts, w) && HolderKnows(aid, ts, w) && i < |ts| && w.states[i] == Running(f)
    requires aid in w.committed.auctions && Leads(w.committed, aid, ts[i], f, next)
    ensures Serializable(m, aid, ts, Advance(w, aid, i, f, next)) && HolderKnows(aid, ts, Advance(w, aid, i, f, next))
  {
    hide Serial, SerialRun, Within, Overlay;
    match next
    case Go(f') => GoKeeps(m, aid, ts, w, i, f');
    case CommitTx(outcome) => FinishKeeps(m, aid, ts, w, i, outcome, Overlay(w.committed, aid, f.writes));
    case Rollback(outcome) => FinishKeeps(m, aid, ts, w, i, outcome, w.committed);
  }

  lemma RunningKeeps(m: Market, aid: AuctionId, ts: seq<Txn>, w: World, i: nat)
    requires Serializable(m, aid, ts, w) && HolderKnows(aid, ts, w) && i < |ts| && w.states[i].Running?
    ensures Serializable(m, aid, ts, Step(w, aid, ts, i)) && HolderKnows(aid, ts, Step(w, aid, ts, i))
  {
    var f := w.states[i].f;
    StatementKnows(w.committed, aid, ts[i], f);
    AdvanceKeeps(m, aid, ts, w, i, f, Statement(Overlay(w.committed, aid, f.writes), aid, ts[i], f));
  }

  lemma GoKeeps(m: Market, aid: AuctionId, ts: seq<Txn>, w: World, i: nat, f: Frame)
    requires Serializable(m, aid, ts, w) && HolderKnows(aid, ts, w) && i < |ts| && w.states[i].Running?
    requires At(w.committed, aid, ts[i], f)
    ensures var w' := w.(states := w.states[i := Running(f)]);
      Serializable(m, aid, ts, w') && HolderKnows(aid, ts, w')
  {
    hide Serial, SerialRun, Within, At;
    StayKeeps(m, aid, ts, w, w.(states := w.states[i := Running(f)]), i, f);
  }

  lemma FinishKeeps(m: Market, aid: AuctionId, ts: seq<Txn>, w: World, i: nat, outcome: Outcome, m': Market)
    requires Serializable(m, aid, ts, w) && HolderKnows(aid, ts, w) && i < |ts| && w.states[i].Running?
    requires Effect(m', outcome) == Serial(w.committed, aid, ts[i])
    ensures Serializable(m, aid, ts, Finish(w, i, m', outcome)) && HolderKnows(aid, ts, Finish(w, i, m', outcome))
  {
    hide Serial, SerialRun, Within, At, HoldsLock;
    var w' := Finish(w, i, m', outcome);
    assert w.locked == w.locked[..|w.locked| - 1] + [i];
    EndKeeps(m, aid, ts, w, w', i, outcome);
  }

  /** Every interleaving of the statements, with the row lock held from the lock statement to the end, leaves
      the auction, the bids and the orders, and gives every transaction the result, of the same transactions
      run one after another in lock order. */
  lemma {:induction false} InterleavingIsSerial(m: Market, aid: AuctionId, ts: seq<Txn>, schedule: seq<nat>)
    requires forall i :: 0 <= i < |ts| ==> Concerns(ts[i], aid)
    requires forall k :: 0 <= k < |schedule| ==> schedule[k] < |ts|
    ensures Serializable(m, aid, ts, Interleave(m, aid, ts, schedule))
    ensures HolderKnows(aid, ts, Interleave(m, aid, ts, schedule))
  {
    if schedule == [] {
    } else {
      var before, i := Interleave(m, aid, ts, schedule[..|schedule| - 1]), schedule[|schedule| - 1];
      InterleavingIsSerial(m, aid, ts, schedule[..|schedule| - 1]);
      if before.states[i].Idle? {
        IdleKeeps(m, aid, ts, before, i);
      } else if before.states[i].Running? {
        RunningKeeps(m, aid, ts, before, i);
      }
    }
  }

  /** No interleaving gets stuck: while a transaction has not ended, some transaction has a step to make. */
  lemma NeverDeadlocks(m: Market, aid: AuctionId, ts: seq<Txn>, schedule: seq<nat>, i: nat)
    requires forall i :: 0 <= i < |ts| ==> Concerns(ts[i], aid)
    requires forall k :: 0 <= k < |schedule| ==> schedule[k] < |ts|
    requires i < |ts| && !Interleave(m, aid, ts, schedule).states[i].Ended?
    ensures var w := Interleave(m, aid, ts, schedule);
      exists j :: 0 <= j < |ts| && Step(w, aid, ts, j) != w
  {
    var w := Interleave(m, aid, ts, schedule);
    InterleavingIsSerial(m, aid, ts, schedule);
    var j := if w.holder.Some? then w.holder.value else i;
    Moves(aid, ts, w, j);
  }

  lemma Moves(aid: AuctionId, ts: seq<Txn>, w: World, j: nat)
    requires |w.states| == |ts| && j < |ts| && HolderKnows(aid, ts, w) && !w.states[j].Ended?
    requires w.holder.Some? ==> w.holder == Some(j)
    ensures Step(w, aid, ts, j) != w
  {
    if w.states[j].Running? {
      var f := w.states[j].f;
      StatementKnows(w.committed, aid, ts[j], f);
      StatementMoves(Overlay(w.committed, aid, f.writes), aid, ts[j], f);
    }
  }

  lemma StatementMoves(m: Market, aid: AuctionId, t: Txn, f: Frame)
    ensures Statement(m, aid, t, f).Go? ==> Statement(m, aid, t, f).f.pc != f.pc
  {
  }
}
