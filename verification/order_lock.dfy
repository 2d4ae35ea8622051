/** Payments and reopenings of one order, statement by statement.

    A payment claims the order by an UPDATE of its row that asks for the status PENDING; it never locks the
    auction's row.  A reopening locks the auction's row, reads it and its bids, and only then claims the order in
    the same way.  An UPDATE whose WHERE fails on the committed row changes nothing and does not wait; one whose
    WHERE holds waits while another transaction's change of the row is uncommitted, and is evaluated again after
    that.  Each statement sees what is committed at that moment and its own writes.  What was read before the
    transaction (the order, the winner decision) and the wallet that the payment's balance check sees are
    inputs. */
module OrderLock {
  import opened Schema
  import opened WalletMoves
  import opened Transactions
  import opened Schedules
  import RowLock

  datatype Txn = Payment(isAuctionWinner: bool, now: Millis, wallet: Wallet) | Reopening(now: Millis)

  /** The transaction run alone, as `Transactions` defines it. */
  function Serial(m: Market, o: OrderRef, t: Txn): RowLock.Effect {
    match t
    case Payment(winner, now, wallet) =>
      var tx := PayOrder(Db(m, wallet), o, winner, now);
      RowLock.Effect(tx.db.market, match tx.result case Ok(_) => RowLock.Paid case Err(e) => RowLock.Threw(e))
    case Reopening(now) => RowLock.Serial(m, o.auctionId, RowLock.Reopening(o, now))
  }

  // ---------------------------------------------------------------- the statements of a payment

  /** The next statement of a payment that has claimed its order. */
  datatype PayPc = AtPay | AtBids | AtRefund(k: nat) | AtCommit

  datatype PayFrame = PayFrame(pc: PayPc, seen: seq<Bid>, writes: seq<RowLock.Write>)

  datatype PayNext = Go(f: PayFrame) | CommitPayment | Refuse(error: Error)

  function Claimed(o: OrderRef): PayFrame { PayFrame(AtPay, [], [RowLock.PaidOrder(o.id)]) }

  function Writing(f: PayFrame, write: RowLock.Write, pc: PayPc): PayNext {
    Go(f.(pc := pc, writes := f.writes + [write]))
  }

  /** One statement, given the bids the transaction sees. */
  function PayStatement(bids: seq<Bid>, o: OrderRef, t: Txn, f: PayFrame): PayNext
    requires t.Payment?
  {
    match f.pc
    case AtPay =>
      if t.isAuctionWinner then Writing(f, RowLock.ConvertTop, AtCommit)
      else if Covers(t.wallet, o.buyerUserId, o.finalPrice) then Go(f.(pc := AtBids))
      else Refuse(BadRequest)
    case AtBids => Go(f.(pc := AtRefund(0), seen := bids))
    case AtRefund(k) =>
      var live := LiveBids(f.seen, o.auctionId);
      if k < |live| then Writing(f, RowLock.DisqualifyBid(live[k], t.now), AtRefund(k + 1))
      else Go(f.(pc := AtCommit))
    case AtCommit => CommitPayment
  }

  function Sees(m: Market, o: OrderRef, writes: seq<RowLock.Write>): Market {
    RowLock.Overlay(m, o.auctionId, writes)
  }

  /** What holds before each statement of a payment that claimed the order when `m` was committed. */
  predicate PayKnows(m: Market, o: OrderRef, t: Txn, f: PayFrame) {
    && t.Payment? && Pending(m, o.id)
    && var v, claimed := Sees(m, o, f.writes), WithStatus(m, o.id, PAID);
       match f.pc
       case AtPay => v == claimed
       case AtBids => v == claimed && MayPay(o, t)
       case AtRefund(k) =>
         var live := LiveBids(m.bids, o.auctionId);
         f.seen == m.bids && k <= |live| && MayPay(o, t) && v == claimed.(bids := Disqualify(m.bids, live[..k], t.now))
       case AtCommit => PaidAlone(m, o, t) && v == PaidMarket(m, o, t.isAuctionWinner, t.now)
  }

  /** A direct payment that the wallet covers. */
  predicate MayPay(o: OrderRef, t: Txn) {
    t.Payment? && !t.isAuctionWinner && Covers(t.wallet, o.buyerUserId, o.finalPrice)
  }

  predicate PaidAlone(m: Market, o: OrderRef, t: Txn)
    requires t.Payment? && o.id in m.orders
  {
    Serial(m, o, t) == RowLock.Effect(PaidMarket(m, o, t.isAuctionWinner, t.now), RowLock.Paid)
  }

  predicate PayLeads(m: Market, o: OrderRef, t: Txn, f: PayFrame, next: PayNext)
    requires t.Payment? && o.id in m.orders
  {
    match next
    case Go(f') => PayKnows(m, o, t, f')
    case CommitPayment => PaidAlone(m, o, t) && Sees(m, o, f.writes) == PaidMarket(m, o, t.isAuctionWinner, t.now)
    case Refuse(e) => Serial(m, o, t) == RowLock.Effect(m, RowLock.Threw(e))
  }

  lemma ClaimKnows(m: Market, o: OrderRef, t: Txn)
    requires t.Payment? && Pending(m, o.id)
    ensures PayKnows(m, o, t, Claimed(o))
  {
    RowLock.OverlayAppend(m, o.auctionId, [], RowLock.PaidOrder(o.id));
    assert [] + [RowLock.PaidOrder(o.id)] == [RowLock.PaidOrder(o.id)];
  }

  lemma PaysAlone(m: Market, o: OrderRef, t: Txn)
    requires t.Payment? && Pending(m, o.id)
    ensures
      if t.isAuctionWinner || MayPay(o, t) then PaidAlone(m, o, t)
      else Serial(m, o, t) == RowLock.Effect(m, RowLock.Threw(BadRequest))
  {
    hide PaidMarket, LiveBids, ReleaseAll;
  }

  lemma PayStarts(m: Market, o: OrderRef, t: Txn, f: PayFrame)
    requires PayKnows(m, o, t, f) && (f.pc.AtPay? || f.pc.AtBids?)
    ensures PayLeads(m, o, t, f, PayStatement(Sees(m, o, f.writes).bids, o, t, f))
  {
    hide LiveBids, ReleaseAll, Serial, Disqualify;
    PaysAlone(m, o, t);
    RowLock.OverlayAppend(m, o.auctionId, f.writes, RowLock.ConvertTop);
    NothingDisqualified(m, o, t.now);
  }

  lemma NothingDisqualified(m: Market, o: OrderRef, now: Millis)
    ensures Disqualify(m.bids, LiveBids(m.bids, o.auctionId)[..0], now) == m.bids
  {
    hide LiveBids;
  }

  lemma RefundNext(m: Market, o: OrderRef, t: Txn, f: PayFrame)
    requires PayKnows(m, o, t, f) && f.pc.AtRefund? && f.pc.k < |LiveBids(m.bids, o.auctionId)|
    ensures var w := RowLock.DisqualifyBid(LiveBids(m.bids, o.auctionId)[f.pc.k], t.now);
      PayKnows(m, o, t, f.(pc := AtRefund(f.pc.k + 1), writes := f.writes + [w]))
  {
    hide LiveBids, Disqualify, Serial, RowLock.Overlay, RowLock.Perform, PaidMarket;
    var live, k := LiveBids(m.bids, o.auctionId), f.pc.k;
    RowLock.OverlayAppend(m, o.auctionId, f.writes, RowLock.DisqualifyBid(live[k], t.now));
    RowLock.NextLoser(WithStatus(m, o.id, PAID), o.auctionId, m.bids, live, k, t.now);
  }

  lemma RefundsDone(m: Market, o: OrderRef, t: Txn, f: PayFrame)
    requires PayKnows(m, o, t, f) && f.pc.AtRefund? && f.pc.k == |LiveBids(m.bids, o.auctionId)|
    ensures PayKnows(m, o, t, f.(pc := AtCommit))
  {
    hide LiveBids, Disqualify, Serial, RowLock.Overlay, RowLock.Perform;
    PaysAlone(m, o, t);
    assert LiveBids(m.bids, o.auctionId)[..f.pc.k] == LiveBids(m.bids, o.auctionId);
  }

  lemma PayRefunds(m: Market, o: OrderRef, t: Txn, f: PayFrame)
    requires PayKnows(m, o, t, f) && f.pc.AtRefund?
    ensures PayLeads(m, o, t, f, PayStatement(Sees(m, o, f.writes).bids, o, t, f))
  {
    hide LiveBids, Disqualify, Serial, RowLock.Overlay, PaidMarket;
    if f.pc.k < |LiveBids(m.bids, o.auctionId)| {
      RefundNext(m, o, t, f);
    } else {
      RefundsDone(m, o, t, f);
    }
  }

  lemma PayStatementKnows(m: Market, o: OrderRef, t: Txn, f: PayFrame)
    requires PayKnows(m, o, t, f)
    ensures PayLeads(m, o, t, f, PayStatement(Sees(m, o, f.writes).bids, o, t, f))
  {
    if f.pc.AtRefund? {
      PayRefunds(m, o, t, f);
    } else if !f.pc.AtCommit? {
      PayStarts(m, o, t, f);
    }
  }

  // ---------------------------------------------------------------- the statements of a reopening

  function AsReopening(o: OrderRef, t: Txn): RowLock.Txn
    requires t.Reopening?
  {
    RowLock.Reopening(o, t.now)
  }

  /** A reopening that has not claimed the order knows the row it locked, which nobody else writes; the bids it
      read are still so unless the order has been taken. */
  predicate ReopenReads(m: Market, o: OrderRef, f: RowLock.Frame) {
    && f.writes == []
    && match f.pc
       case AtRow => true
       case AtBids => o.auctionId in m.auctions && f.row == Some(m.auctions[o.auctionId])
       case AtClaim =>
         && o.auctionId in m.auctions && f.row == Some(m.auctions[o.auctionId])
         && m.auctions[o.auctionId].status == CLOSED && (Pending(m, o.id) ==> f.seen == m.bids)
       case AtCommit(outcome) => outcome == RowLock.Reopened(false) && !Reopens(m, o)
       case _ => false
  }

  /** One that has claimed it knows what it knows under the row lock, see `RowLock.At`. */
  predicate ReopenWrites(m: Market, o: OrderRef, t: Txn, f: RowLock.Frame)
    requires o.auctionId in m.auctions
  {
    t.Reopening? && f.writes != [] && Pending(m, o.id) && RowLock.At(m, o.auctionId, AsReopening(o, t), f)
  }

  predicate ReopenKnows(m: Market, o: OrderRef, t: Txn, f: RowLock.Frame) {
    t.Reopening? && o.auctionId in m.auctions && (ReopenReads(m, o, f) || ReopenWrites(m, o, t, f))
  }

  /** The claim succeeds at this statement. */
  predicate Claims(m: Market, o: OrderRef, f: RowLock.Frame) { f.pc.AtClaim? && Pending(m, o.id) }

  predicate ReopenLeads(m: Market, o: OrderRef, t: Txn, f: RowLock.Frame, next: RowLock.Next)
    requires t.Reopening? && o.auctionId in m.auctions
  {
    match next
    case Go(f') =>
      if f.writes != [] || Claims(m, o, f) then ReopenWrites(m, o, t, f') else ReopenReads(m, o, f')
    case CommitTx(outcome) => Serial(m, o, t) == RowLock.Effect(Sees(m, o, f.writes), outcome)
    case Rollback(outcome) => Serial(m, o, t) == RowLock.Effect(m, outcome)
  }

  lemma WriterLeads(m: Market, o: OrderRef, t: Txn, f: RowLock.Frame)
    requires t.Reopening? && o.auctionId in m.auctions
    requires ReopenWrites(m, o, t, f) || (ReopenReads(m, o, f) && Claims(m, o, f))
    ensures ReopenLeads(m, o, t, f, RowLock.Statement(Sees(m, o, f.writes), o.auctionId, AsReopening(o, t), f))
  {
    hide RowLock.Statement, RowLock.Serial, RowLock.Perform, IsAuctionWinner, LiveBids;
    RowLock.StatementKnows(m, o.auctionId, AsReopening(o, t), f);
    WritesGrow(Sees(m, o, f.writes), o.auctionId, AsReopening(o, t), f);
  }

  lemma WritesGrow(m: Market, aid: AuctionId, t: RowLock.Txn, f: RowLock.Frame)
    requires t.Reopening?
    ensures var next := RowLock.Statement(m, aid, t, f);
      next.Go? ==> f.writes <= next.f.writes && (Claims(m, t.o, f) ==> next.f.writes != [])
  {
    hide IsAuctionWinner, LiveBids, BaselinePrice, RowOk;
  }

  lemma ReaderLeads(m: Market, o: OrderRef, t: Txn, f: RowLock.Frame)
    requires t.Reopening? && o.auctionId in m.auctions && ReopenReads(m, o, f) && !Claims(m, o, f)
    ensures ReopenLeads(m, o, t, f, RowLock.Statement(Sees(m, o, f.writes), o.auctionId, AsReopening(o, t), f))
  {
    hide IsAuctionWinner, LiveBids, RowLock.Serial;
    if !Reopens(m, o) {
      RowLock.ReopensNothing(m, o.auctionId, AsReopening(o, t));
    }
  }

  // ---------------------------------------------------------------- schedules

  datatype TxState =
    | Idle | InPayment(f: PayFrame) | InReopening(r: RowLock.Frame) | Ended(outcome: RowLock.Outcome) | GaveUp

  datatype End = End(tx: nat, outcome: RowLock.Outcome)

  /** The transactions `txns` on the order `o`: the committed tables, who holds the auction's row and who has
      claimed the order, and which transactions have ended, in the order of their ends. */
  datatype World = World(
    o: OrderRef, txns: seq<Txn>, committed: Market, auctionHolder: Option<nat>, orderHolder: Option<nat>,
    states: seq<TxState>, ended: seq<End>)

  function Opening(m: Market, o: OrderRef, txns: seq<Txn>): World {
    World(o, txns, m, None, None, seq(|txns|, _ => Idle), [])
  }

  function Without(holder: Option<nat>, i: nat): Option<nat> { if holder == Some(i) then None else holder }

  function Leave(w: World, i: nat, m: Market, state: TxState): World
    requires i < |w.states|
  {
    w.(committed := m, auctionHolder := Without(w.auctionHolder, i), orderHolder := Without(w.orderHolder, i),
       states := w.states[i := state])
  }

  function Finish(w: World, i: nat, m: Market, outcome: RowLock.Outcome): World
    requires i < |w.states|
  {
    Leave(w, i, m, Ended(outcome)).(ended := w.ended + [End(i, outcome)])
  }

  function Begin(w: World, i: nat): World
    requires i < |w.states| == |w.txns|
  {
    if w.txns[i].Payment? then
      if !Pending(w.committed, w.o.id) then Finish(w, i, w.committed, RowLock.Threw(Conflict))
      else if w.orderHolder.Some? then w
      else w.(orderHolder := Some(i), states := w.states[i := InPayment(Claimed(w.o))])
    else
      if w.o.auctionId !in w.committed.auctions then Finish(w, i, w.committed, RowLock.Reopened(false))
      else if w.auctionHolder.Some? then w
      else
        var f := RowLock.Start(AsReopening(w.o, w.txns[i]));
        w.(auctionHolder := Some(i), states := w.states[i := InReopening(f)])
  }

  function GoOnPaying(w: World, i: nat, f: PayFrame): World
    requires i < |w.states| == |w.txns| && w.txns[i].Payment?
  {
    match PayStatement(Sees(w.committed, w.o, f.writes).bids, w.o, w.txns[i], f)
    case Go(f') => w.(states := w.states[i := InPayment(f')])
    case CommitPayment => Finish(w, i, Sees(w.committed, w.o, f.writes), RowLock.Paid)
    case Refuse(e) => Finish(w, i, w.committed, RowLock.Threw(e))
  }

  /** The order's row is changed by another transaction that has not ended. */
  predicate Waits(w: World, i: nat, f: RowLock.Frame) {
    Claims(w.committed, w.o, f) && w.orderHolder.Some? && w.orderHolder != Some(i)
  }

  function GoOnReopening(w: World, i: nat, f: RowLock.Frame): World
    requires i < |w.states| == |w.txns| && w.txns[i].Reopening?
  {
    if Waits(w, i, f) then w
    else
      var view := Sees(w.committed, w.o, f.writes);
      match RowLock.Statement(view, w.o.auctionId, AsReopening(w.o, w.txns[i]), f)
      case Go(f') =>
        w.(orderHolder := if Claims(w.committed, w.o, f) then Some(i) else w.orderHolder,
           states := w.states[i := InReopening(f')])
      case CommitTx(outcome) => Finish(w, i, view, outcome)
      case Rollback(outcome) => Finish(w, i, w.committed, outcome)
  }

  /** Transaction `i` tries its next statement; one that waits or is over does nothing. */
  function Next(w: World, i: nat): World {
    if i >= |w.states| || |w.states| != |w.txns| then w
    else
      match w.states[i]
      case Idle => Begin(w, i)
      case InPayment(f) => if w.txns[i].Payment? then GoOnPaying(w, i, f) else w
      case InReopening(f) => if w.txns[i].Reopening? then GoOnReopening(w, i, f) else w
      case _ => w
  }

  function AbortTx(w: World, i: nat): World {
    if i < |w.states| && !w.states[i].Ended? then Leave(w, i, w.committed, GaveUp) else w
  }

  const CLAIMS := Rules(Next, AbortTx)

  /** The transactions of `ended` run one after another from `m` return and throw what they did and end at `m'`. */
  ghost predicate OneByOne(m: Market, o: OrderRef, txns: seq<Txn>, ended: seq<End>, m': Market) {
    if ended == [] then m' == m
    else
      var n := |ended| - 1;
      exists before :: OneByOne(m, o, txns, ended[..n], before) && RunsAs(before, o, txns, ended[n], m')
  }

  predicate RunsAs(m: Market, o: OrderRef, txns: seq<Txn>, e: End, m': Market) {
    e.tx < |txns| && Serial(m, o, txns[e.tx]) == RowLock.Effect(m', e.outcome)
  }

  /** What transaction `i` knows, and which locks it holds. */
  predicate Knows(w: World, i: nat)
    requires i < |w.states| == |w.txns|
  {
    match w.states[i]
    case InPayment(f) =>
      w.orderHolder == Some(i) && w.auctionHolder != Some(i) && PayKnows(w.committed, w.o, w.txns[i], f)
    case InReopening(f) =>
      && w.auctionHolder == Some(i) && ReopenKnows(w.committed, w.o, w.txns[i], f)
      && (f.writes != [] <==> w.orderHolder == Some(i))
    case _ => w.orderHolder != Some(i) && w.auctionHolder != Some(i)
  }

  /** `ended` lists the ended transactions and no others. */
  predicate Logged(w: World) {
    && (forall k :: 0 <= k < |w.ended| ==>
          w.ended[k].tx < |w.states| && w.states[w.ended[k].tx] == Ended(w.ended[k].outcome))
    && (forall i :: 0 <= i < |w.states| && w.states[i].Ended? ==> End(i, w.states[i].outcome) in w.ended)
  }

  predicate WorldOk(w: World) {
    && |w.states| == |w.txns| && Logged(w)
    && (forall i: nat :: i < |w.states| ==> Knows(w, i))
    && (w.auctionHolder.Some? ==> w.auctionHolder.value < |w.states|)
    && (w.orderHolder.Some? ==> w.orderHolder.value < |w.states|)
  }

  /** Committed tables and outcomes are those of the ended transactions run one after another. */
  ghost predicate Serializable(m: Market, w: World) { OneByOne(m, w.o, w.txns, w.ended, w.committed) }

  /** What a move of `i` does to a lock. */
  predicate Hands(before: Option<nat>, after: Option<nat>, i: nat) {
    after == before || (before.None? && after == Some(i)) || (before == Some(i) && after.None?)
  }

  /** What a move of `i` does to the tables: a commit takes the order, and touches the auction's row only under
      its lock. */
  predicate Publishes(w: World, m': Market, i: nat) {
    || m' == w.committed
    || (w.orderHolder == Some(i) && !Pending(m', w.o.id)
        && (m'.auctions == w.committed.auctions
            || (w.auctionHolder == Some(i) && w.o.auctionId in m'.auctions)))
  }

  /** A move of `i` leaves the knowledge of the others alone. */
  lemma OthersKnow(w: World, w': World, i: nat, j: nat)
    requires i < |w.states| == |w.txns| == |w'.states| && j < |w.states| && j != i && Knows(w, j)
    requires w'.o == w.o && w'.txns == w.txns && w'.states[j] == w.states[j]
    requires Hands(w.auctionHolder, w'.auctionHolder, i) && Hands(w.orderHolder, w'.orderHolder, i)
    requires Publishes(w, w'.committed, i)
    ensures Knows(w', j)
  {
    hide PayKnows, RowLock.At;
  }

  lemma MoveKeeps(w: World, w': World, i: nat)
    requires WorldOk(w) && i < |w.states| && !w.states[i].Ended?
    requires w'.o == w.o && w'.txns == w.txns && |w'.states| == |w.states|
    requires w'.states == w.states[i := w'.states[i]]
    requires w'.ended == if w'.states[i].Ended? then w.ended + [End(i, w'.states[i].outcome)] else w.ended
    requires Hands(w.auctionHolder, w'.auctionHolder, i) && Hands(w.orderHolder, w'.orderHolder, i)
    requires Publishes(w, w'.committed, i) && Knows(w', i)
    ensures WorldOk(w')
  {
    hide Knows, Publishes;
    forall j: nat | j < |w'.states| ensures Knows(w', j) {
      if j != i {
        OthersKnow(w, w', i, j);
      }
    }
    assert Logged(w') by {
      forall k | 0 <= k < |w'.ended|
        ensures w'.ended[k].tx < |w'.states| && w'.states[w'.ended[k].tx] == Ended(w'.ended[k].outcome)
      {
        if k < |w.ended| {
          assert w'.ended[k] == w.ended[k] && w.states[w.ended[k].tx].Ended?;
        }
      }
    }
  }

  lemma RunsNext(m: Market, o: OrderRef, txns: seq<Txn>, ended: seq<End>, before: Market, e: End, m': Market)
    requires OneByOne(m, o, txns, ended, before) && RunsAs(before, o, txns, e, m')
    ensures OneByOne(m, o, txns, ended + [e], m')
  {
    hide RunsAs;
    assert (ended + [e])[..|ended|] == ended;
  }

  lemma FinishKeeps(m: Market, w: World, i: nat, m': Market, outcome: RowLock.Outcome)
    requires WorldOk(w) && Serializable(m, w) && i < |w.states| && !w.states[i].Ended?
    requires RunsAs(w.committed, w.o, w.txns, End(i, outcome), m') && Publishes(w, m', i)
    ensures WorldOk(Finish(w, i, m', outcome)) && Serializable(m, Finish(w, i, m', outcome))
  {
    hide RunsAs, Publishes, OneByOne, Logged;
    MoveKeeps(w, Finish(w, i, m', outcome), i);
    RunsNext(m, w.o, w.txns, w.ended, w.committed, End(i, outcome), m');
  }

  lemma BeginKeeps(m: Market, w: World, i: nat)
    requires WorldOk(w) && Serializable(m, w) && i < |w.states| && w.states[i].Idle?
    ensures WorldOk(Begin(w, i)) && Serializable(m, Begin(w, i))
  {
    hide OneByOne, Logged, RowLock.At, PayKnows;
    assert Knows(w, i);
    if w.txns[i].Payment? {
      if !Pending(w.committed, w.o.id) {
        FinishKeeps(m, w, i, w.committed, RowLock.Threw(Conflict));
      } else if w.orderHolder.None? {
        ClaimKnows(w.committed, w.o, w.txns[i]);
        MoveKeeps(w, Begin(w, i), i);
      }
    } else if w.o.auctionId !in w.committed.auctions {
      RowLock.ReopensNothing(w.committed, w.o.auctionId, AsReopening(w.o, w.txns[i]));
      FinishKeeps(m, w, i, w.committed, RowLock.Reopened(false));
    } else if w.auctionHolder.None? {
      MoveKeeps(w, Begin(w, i), i);
    }
  }

  lemma PayPublishes(w: World, i: nat, winner: bool, now: Millis)
    requires w.orderHolder == Some(i) && w.o.id in w.committed.orders
    ensures Publishes(w, PaidMarket(w.committed, w.o, winner, now), i)
  {
    hide LiveBids, Disqualify;
  }

  lemma PayingKeeps(m: Market, w: World, i: nat, f: PayFrame)
    requires WorldOk(w) && Serializable(m, w) && i < |w.states| && w.states[i] == InPayment(f)
    ensures w.txns[i].Payment?
    ensures WorldOk(GoOnPaying(w, i, f)) && Serializable(m, GoOnPaying(w, i, f))
  {
    hide OneByOne, Logged, Serial, PaidMarket, Publishes, PayStatement, Sees;
    assert Knows(w, i);
    PayStatementKnows(w.committed, w.o, w.txns[i], f);
    match PayStatement(Sees(w.committed, w.o, f.writes).bids, w.o, w.txns[i], f)
    case Go(f') =>
      Stays(w, i);
      MoveKeeps(w, GoOnPaying(w, i, f), i);
    case CommitPayment =>
      PayPublishes(w, i, w.txns[i].isAuctionWinner, w.txns[i].now);
      FinishKeeps(m, w, i, Sees(w.committed, w.o, f.writes), RowLock.Paid);
    case Refuse(e) =>
      Stays(w, i);
      FinishKeeps(m, w, i, w.committed, RowLock.Threw(e));
  }

  lemma Stays(w: World, i: nat)
    ensures Publishes(w, w.committed, i)
  {
  }

  lemma ReopenPublishes(w: World, i: nat, t: RowLock.Txn)
    requires t.Reopening? && t.o == w.o && w.orderHolder == Some(i) == w.auctionHolder
    ensures Publishes(w, RowLock.Serial(w.committed, w.o.auctionId, t).market, i)
  {
    hide LiveBids, Disqualify, BaselinePrice, IsAuctionWinner, RowOk;
  }

  lemma ReopeningKeeps(m: Market, w: World, i: nat, f: RowLock.Frame)
    requires WorldOk(w) && Serializable(m, w) && i < |w.states| && w.states[i] == InReopening(f)
    ensures w.txns[i].Reopening?
    ensures WorldOk(GoOnReopening(w, i, f)) && Serializable(m, GoOnReopening(w, i, f))
  {
    hide OneByOne, Logged, RowLock.Serial, Publishes, RowLock.Statement, RowLock.At;
    assert Knows(w, i);
    var o, t := w.o, w.txns[i];
    if Claims(w.committed, o, f) || ReopenWrites(w.committed, o, t, f) {
      WriterLeads(w.committed, o, t, f);
    } else {
      ReaderLeads(w.committed, o, t, f);
    }
    if !Waits(w, i, f) {
      match RowLock.Statement(Sees(w.committed, o, f.writes), o.auctionId, AsReopening(o, t), f)
      case Go(f') =>
        Stays(w, i);
        MoveKeeps(w, GoOnReopening(w, i, f), i);
      case CommitTx(outcome) =>
        if f.writes == [] {
          Stays(w, i);
        } else {
          ReopenPublishes(w, i, AsReopening(o, t));
        }
        FinishKeeps(m, w, i, Sees(w.committed, o, f.writes), outcome);
      case Rollback(outcome) =>
        Stays(w, i);
        FinishKeeps(m, w, i, w.committed, outcome);
    }
  }

  lemma AbortKeeps(m: Market, w: World, i: nat)
    requires WorldOk(w) && Serializable(m, w)
    ensures WorldOk(AbortTx(w, i)) && Serializable(m, AbortTx(w, i))
  {
    hide OneByOne, PayKnows, ReopenKnows;
    if i < |w.states| && !w.states[i].Ended? {
      Stays(w, i);
      MoveKeeps(w, AbortTx(w, i), i);
    }
  }

  lemma HappenKeeps(m: Market, w: World, e: Event)
    requires WorldOk(w) && Serializable(m, w)
    ensures WorldOk(Happen(CLAIMS, w, e)) && Serializable(m, Happen(CLAIMS, w, e))
    ensures Happen(CLAIMS, w, e).o == w.o && Happen(CLAIMS, w, e).txns == w.txns
  {
    hide OneByOne, Logged, PayKnows, ReopenKnows, PayStatement, RowLock.Statement, Sees, Begin;
    if e.Abort? {
      AbortKeeps(m, w, e.i);
    } else if e.i < |w.states| {
      assert Knows(w, e.i);
      match w.states[e.i]
      case Idle =>
        BeginKeeps(m, w, e.i);
        BeginSame(w, e.i);
      case InPayment(f) => PayingKeeps(m, w, e.i, f);
      case InReopening(f) => ReopeningKeeps(m, w, e.i, f);
      case _ =>
    }
  }

  lemma BeginSame(w: World, i: nat)
    requires i < |w.states| == |w.txns|
    ensures Begin(w, i).o == w.o && Begin(w, i).txns == w.txns
  {
  }

  /** Every schedule, with claims that wait and claims that fail, and with transactions that give up anywhere:
      the tables and every result are those of the transactions that ended, run one after another in the order
      of their ends. */
  lemma {:induction false} InterleavingIsSerial(m: Market, o: OrderRef, txns: seq<Txn>, es: seq<Event>)
    ensures var w := Play(CLAIMS, Opening(m, o, txns), es);
      WorldOk(w) && Serializable(m, w) && w.o == o && w.txns == txns
  {
    hide WorldOk, Serializable, Happen;
    if es == [] {
      OpeningOk(m, o, txns);
    } else {
      InterleavingIsSerial(m, o, txns, es[..|es| - 1]);
      HappenKeeps(m, Play(CLAIMS, Opening(m, o, txns), es[..|es| - 1]), es[|es| - 1]);
    }
  }

  lemma OpeningOk(m: Market, o: OrderRef, txns: seq<Txn>)
    ensures WorldOk(Opening(m, o, txns)) && Serializable(m, Opening(m, o, txns))
  {
  }

  // ---------------------------------------------------------------- what that means for the order

  predicate Took(outcome: RowLock.Outcome) { outcome == RowLock.Paid || outcome == RowLock.Reopened(true) }

  /** What a transaction that finds the order taken comes to. */
  function TooLate(t: Txn): RowLock.Outcome {
    if t.Payment? then RowLock.Threw(Conflict) else RowLock.Reopened(false)
  }

  /** The order after a transaction that took it. */
  function StatusAfter(outcome: RowLock.Outcome): OrderStatus { if outcome == RowLock.Paid then PAID else CANCELLED }

  /** Alone on a pending order a transaction takes it or changes nothing; on an order that is not pending it is too
      late. */
  lemma TakesOrNot(m: Market, o: OrderRef, t: Txn)
    ensures var e := Serial(m, o, t);
      if Pending(m, o.id) && Took(e.outcome)
      then o.id in e.market.orders && e.market.orders[o.id].status == StatusAfter(e.outcome)
      else e.market == m && (!Pending(m, o.id) ==> e.outcome == TooLate(t))
  {
    hide LiveBids, Disqualify, BaselinePrice, IsAuctionWinner, RowOk, ReleaseAll, MarkConverted;
  }

  predicate NobodyTook(ended: seq<End>) { forall k :: 0 <= k < |ended| ==> !Took(ended[k].outcome) }

  /** The `k`-th end is what the transaction comes to alone if nobody before it took the order, and too late
      otherwise. */
  predicate EndsAs(m: Market, o: OrderRef, txns: seq<Txn>, ended: seq<End>, k: nat)
    requires k < |ended|
  {
    && ended[k].tx < |txns|
    && ended[k].outcome ==
         if NobodyTook(ended[..k]) then Serial(m, o, txns[ended[k].tx]).outcome else TooLate(txns[ended[k].tx])
  }

  /** The tables after `ended`: untouched while nobody took the order; taken by the one who did. */
  predicate Settles(m: Market, o: OrderRef, ended: seq<End>, m': Market) {
    && (NobodyTook(ended) ==> m' == m)
    && (forall k :: 0 <= k < |ended| && Took(ended[k].outcome) ==>
          o.id in m'.orders && m'.orders[o.id].status == StatusAfter(ended[k].outcome))
  }

  lemma {:induction false} TakenOnce(m: Market, o: OrderRef, txns: seq<Txn>, ended: seq<End>, m': Market)
    requires Pending(m, o.id) && OneByOne(m, o, txns, ended, m')
    ensures Settles(m, o, ended, m') && forall k: nat :: k < |ended| ==> EndsAs(m, o, txns, ended, k)
  {
    hide Serial;
    if ended == [] {
    } else {
      var n := |ended| - 1;
      var before :| OneByOne(m, o, txns, ended[..n], before) && RunsAs(before, o, txns, ended[n], m');
      TakenOnce(m, o, txns, ended[..n], before);
      TakesOrNot(before, o, txns[ended[n].tx]);
      forall k: nat | k < |ended| ensures EndsAs(m, o, txns, ended, k) {
        if k < n {
          assert EndsAs(m, o, txns, ended[..n], k);
          assert ended[..n][..k] == ended[..k];
        }
      }
    }
  }

  /** An order is paid or reopened, and never both.  In every schedule at most one transaction takes a pending
      order: those that end before it come to what they come to alone, those that end after it are too late,
      and the tables are as that one leaves them. */
  lemma PaidOrReopened(m: Market, o: OrderRef, txns: seq<Txn>, es: seq<Event>)
    requires Pending(m, o.id)
    ensures var w := Play(CLAIMS, Opening(m, o, txns), es);
      && Settles(m, o, w.ended, w.committed) && (forall k: nat :: k < |w.ended| ==> EndsAs(m, o, txns, w.ended, k))
      && (Pending(w.committed, o.id) <==> NobodyTook(w.ended))
      && forall j, k :: 0 <= j < k < |w.ended| ==> !(Took(w.ended[j].outcome) && Took(w.ended[k].outcome))
  {
    hide Serial, WorldOk, Play;
    var w := Play(CLAIMS, Opening(m, o, txns), es);
    InterleavingIsSerial(m, o, txns, es);
    TakenOnce(m, o, txns, w.ended, w.committed);
    forall j, k | 0 <= j < k < |w.ended| ensures !(Took(w.ended[j].outcome) && Took(w.ended[k].outcome)) {
      assert EndsAs(m, o, txns, w.ended, k);
      assert w.ended[..k][j] == w.ended[j];
    }
  }

  /** No schedule gets stuck: while a transaction has neither ended nor given up, some transaction has a step to
      make. */
  lemma NeverDeadlocks(m: Market, o: OrderRef, txns: seq<Txn>, es: seq<Event>, i: nat)
    requires i < |txns|
    ensures var w := Play(CLAIMS, Opening(m, o, txns), es);
      |w.states| == |txns| && (w.states[i].Ended? || w.states[i].GaveUp? || exists j :: Next(w, j) != w)
  {
    hide Next, Play, Serializable;
    var w := Play(CLAIMS, Opening(m, o, txns), es);
    InterleavingIsSerial(m, o, txns, es);
    if !w.states[i].Ended? && !w.states[i].GaveUp? {
      var j := if w.orderHolder.Some? then w.orderHolder.value
               else if w.auctionHolder.Some? then w.auctionHolder.value else i;
      if j != i {
        HolderRuns(w, j);
      }
      Moves(w, j);
    }
  }

  lemma HolderRuns(w: World, j: nat)
    requires WorldOk(w) && (w.orderHolder == Some(j) || w.auctionHolder == Some(j))
    ensures j < |w.states| && !w.states[j].Ended? && !w.states[j].GaveUp?
  {
    hide PayKnows, ReopenKnows, Logged;
    assert j < |w.states| && Knows(w, j);
  }

  lemma Moves(w: World, i: nat)
    requires WorldOk(w) && i < |w.states| && !w.states[i].Ended? && !w.states[i].GaveUp?
    requires w.orderHolder == Some(i) || (w.orderHolder.None? && w.auctionHolder == Some(i))
      || (w.orderHolder.None? && w.auctionHolder.None?)
    ensures Next(w, i) != w
  {
    hide RowLock.At, RowLock.Statement, PayStatement, Sees, Logged;
    assert Knows(w, i);
    match w.states[i]
    case Idle => BeginMoves(w, i);
    case InPayment(f) => PayingMoves(w, i, f);
    case InReopening(f) => ReopeningMoves(w, i, f);
  }

  lemma BeginMoves(w: World, i: nat)
    requires i < |w.states| == |w.txns| && w.states[i].Idle? && w.orderHolder.None? && w.auctionHolder.None?
    ensures Begin(w, i) != w
  {
  }

  lemma PayingMoves(w: World, i: nat, f: PayFrame)
    requires i < |w.states| == |w.txns| && w.states[i] == InPayment(f) && w.txns[i].Payment?
    ensures GoOnPaying(w, i, f) != w
  {
    hide LiveBids, Sees;
  }

  lemma ReopeningMoves(w: World, i: nat, f: RowLock.Frame)
    requires i < |w.states| == |w.txns| && w.states[i] == InReopening(f) && w.txns[i].Reopening?
    requires !Waits(w, i, f)
    ensures GoOnReopening(w, i, f) != w
  {
    hide RowLock.Statement, Sees;
    RowLock.StatementMoves(Sees(w.committed, w.o, f.writes), w.o.auctionId, AsReopening(w.o, w.txns[i]), f);
  }
}
