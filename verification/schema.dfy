/** The tables the backend writes, as values.

    Ids are abstract: a bid's id is its position in the bid table and a user's id is the position of the
    balance; auction and order ids come from counters and are never used again.  Times are integer
    milliseconds and prices are integers. */
module Schema {
  type UserId = nat
  type AuctionId = nat
  type BidId = nat
  type OrderId = nat
  type Millis = int

  datatype Option<+T> = None | Some(value: T)

  datatype Error = NotFound | BadRequest | Forbidden | Conflict | ConstraintViolation | LockOptionsClash

  /** JSON as the payload column holds it.  Ids are the only strings that occur, so a string is its id. */
  datatype Json =
    | Null
    | Bool(b: bool)
    | Num(n: int)
    | NotFinite
    | Str(id: nat)
    | Arr(items: seq<Json>)
    | Obj(fields: map<string, Json>)

  datatype AuctionStatus = OPEN | CLOSED
  datatype OrderStatus = PENDING | PAID | CANCELLED
  datatype TxType = BID_HOLD | BID_RELEASE | PAYMENT | ADJUSTMENT

  datatype Auction = Auction(
    startPrice: int,
    currentPrice: int,
    buyNowPrice: Option<int>,
    minimumIncrement: int,
    status: AuctionStatus,
    endTime: Millis,
    winnerUserId: Option<UserId>,
    closedAt: Option<Millis>,
    lastExtendedAt: Option<Millis>,
    extendCount: int,
    sellerUserId: UserId,
    postCloseFinalizePayload: Option<Json>)

  /** `converted` is a history variable, not a column: the bid's hold was turned into an order's payment. */
  datatype Bid = Bid(
    auctionId: AuctionId, userId: UserId, bidPrice: int, disqualifiedAt: Option<Millis>, converted: bool)

  datatype Order = Order(auctionId: AuctionId, buyerUserId: UserId, finalPrice: int, status: OrderStatus)

  /** A wallet transaction row.  The reference is a bid for holds and releases, an order otherwise. */
  datatype Entry = Entry(userId: UserId, amount: int, kind: TxType, refId: nat)

  /** `uniqueOrder` says whether the index Order_auctionId_key is in place; no transaction changes it. */
  datatype Market = Market(
    auctions: map<AuctionId, Auction>,
    bids: seq<Bid>,
    orders: map<OrderId, Order>,
    nextAuction: AuctionId,
    nextOrder: OrderId,
    uniqueOrder: bool)

  datatype Wallet = Wallet(balance: seq<int>, ledger: seq<Entry>)

  datatype Db = Db(market: Market, wallet: Wallet)

  datatype LosingBid = LosingBid(userId: UserId, bidPrice: int, id: BidId)

  datatype CloseResult = CloseResult(
    auctionId: AuctionId, winnerUserId: Option<UserId>, finalPrice: int, losingBids: seq<LosingBid>)

  /** An order row joined with its auction's seller, as the payment and timeout paths read it. */
  datatype OrderRef = OrderRef(
    id: OrderId, auctionId: AuctionId, buyerUserId: UserId, finalPrice: int, sellerUserId: UserId)

  /** The CHECK constraints of the auction table: a statement that breaks one aborts its transaction. */
  predicate RowOk(a: Auction) {
    && 0 <= a.startPrice <= a.currentPrice
    && 0 < a.minimumIncrement
    && (a.buyNowPrice.Some? ==> a.currentPrice <= a.buyNowPrice.value)
    && 0 <= a.extendCount
  }

  /** The unique index on the order's auction rejects a second order, whatever the first one's status. */
  predicate OrderInsertOk(m: Market, aid: AuctionId) {
    m.uniqueOrder ==> forall o :: o in m.orders ==> m.orders[o].auctionId != aid
  }

  /** The row as an update of the auction table leaves it; an update of a missing row changes nothing. */
  function WithAuction(m: Market, aid: AuctionId, row: Auction): Market {
    if aid in m.auctions then m.(auctions := m.auctions[aid := row]) else m
  }

  predicate Live(bids: seq<Bid>, aid: AuctionId, i: nat) {
    i < |bids| && bids[i].auctionId == aid && bids[i].disqualifiedAt.None?
  }

  predicate Rows(bids: seq<Bid>, ids: seq<BidId>) {
    forall k :: 0 <= k < |ids| ==> ids[k] < |bids|
  }

  /** Position `i` enters a list sorted by price downwards, after the bids priced at least as high. */
  function InsertByPrice(bids: seq<Bid>, ids: seq<BidId>, i: BidId): seq<BidId>
    requires i < |bids| && Rows(bids, ids)
  {
    if ids == [] then [i]
    else if bids[ids[0]].bidPrice < bids[i].bidPrice then [i] + ids
    else [ids[0]] + InsertByPrice(bids, ids[1..], i)
  }

  /** Price never rises along the list and no id occurs twice. */
  predicate SortedByPrice(bids: seq<Bid>, ids: seq<BidId>)
    requires Rows(bids, ids)
  {
    && (forall x, y :: 0 <= x < y < |ids| ==> bids[ids[y]].bidPrice <= bids[ids[x]].bidPrice)
    && (forall x, y :: 0 <= x < y < |ids| ==> ids[x] != ids[y])
  }

  lemma {:induction false} InsertSorts(bids: seq<Bid>, ids: seq<BidId>, i: BidId)
    requires i < |bids| && Rows(bids, ids) && SortedByPrice(bids, ids) && i !in ids
    ensures forall j: BidId :: j in InsertByPrice(bids, ids, i) <==> j in ids || j == i
    ensures Rows(bids, InsertByPrice(bids, ids, i)) && SortedByPrice(bids, InsertByPrice(bids, ids, i))
  {
    var out := InsertByPrice(bids, ids, i);
    if ids == [] {
    } else if bids[ids[0]].bidPrice < bids[i].bidPrice {
      assert out == [i] + ids;
    } else {
      InsertSorts(bids, ids[1..], i);
      var rest := InsertByPrice(bids, ids[1..], i);
      assert ids == [ids[0]] + ids[1..];
      assert out == [ids[0]] + rest;
      forall y | 0 <= y < |rest| ensures bids[rest[y]].bidPrice <= bids[ids[0]].bidPrice && rest[y] != ids[0] {
        assert rest[y] in rest;
      }
    }
  }

  function LiveUpTo(bids: seq<Bid>, aid: AuctionId, n: nat): (r: seq<BidId>)
    requires n <= |bids|
    ensures forall i: BidId :: i in r <==> i < n && Live(bids, aid, i)
    ensures Rows(bids, r) && SortedByPrice(bids, r)
  {
    if n == 0 then []
    else
      var before := LiveUpTo(bids, aid, n - 1);
      if Live(bids, aid, n - 1) then
        InsertSorts(bids, before, n - 1);
        InsertByPrice(bids, before, n - 1)
      else before
  }

  /** The bids that `findUnique` joins to an auction: not disqualified, highest price first.  SQL leaves the
      order of equal prices open; here the earlier row comes first. */
  function LiveBids(bids: seq<Bid>, aid: AuctionId): (r: seq<BidId>)
    ensures forall i: BidId :: i in r <==> Live(bids, aid, i)
    ensures Rows(bids, r) && SortedByPrice(bids, r)
  {
    LiveUpTo(bids, aid, |bids|)
  }

  /** The rows at `ids` get a disqualification time. */
  function Disqualify(bids: seq<Bid>, ids: seq<BidId>, now: Millis): (r: seq<Bid>)
    ensures |r| == |bids|
    ensures forall i :: 0 <= i < |bids| ==>
      r[i] == if i in ids then bids[i].(disqualifiedAt := Some(now)) else bids[i]
  {
    seq(|bids|, i requires 0 <= i < |bids| =>
      if i in ids then bids[i].(disqualifiedAt := Some(now)) else bids[i])
  }

  /** Disqualifying a list one row at a time. */
  lemma DisqualifyNext(bids: seq<Bid>, ids: seq<BidId>, k: nat, now: Millis)
    requires k < |ids| && ids[k] < |bids|
    ensures var before := Disqualify(bids, ids[..k], now);
      before[ids[k] := before[ids[k]].(disqualifiedAt := Some(now))] == Disqualify(bids, ids[..k + 1], now)
  {
    assert ids[..k + 1] == ids[..k] + [ids[k]];
  }

  lemma DisqualifyOne(bids: seq<Bid>, i: BidId, now: Millis)
    requires i < |bids|
    ensures bids[i := bids[i].(disqualifiedAt := Some(now))] == Disqualify(bids, [i], now)
  {
  }

  lemma {:induction false} LiveFrameUpTo(b1: seq<Bid>, b2: seq<Bid>, aid: AuctionId, n: nat)
    requires n <= |b1| && n <= |b2|
    requires forall i :: 0 <= i < n ==> (Live(b1, aid, i) <==> Live(b2, aid, i))
    requires forall i :: 0 <= i < n && Live(b1, aid, i) ==> b1[i].bidPrice == b2[i].bidPrice
    ensures LiveUpTo(b1, aid, n) == LiveUpTo(b2, aid, n)
  {
    if n == 0 {
    } else {
      LiveFrameUpTo(b1, b2, aid, n - 1);
      if Live(b1, aid, n - 1) {
        var ids := LiveUpTo(b1, aid, n - 1);
        forall k | 0 <= k < |ids| ensures b1[ids[k]].bidPrice == b2[ids[k]].bidPrice {
          assert ids[k] in ids;
        }
        InsertFrame(b1, b2, LiveUpTo(b1, aid, n - 1), n - 1);
      }
    }
  }

  lemma {:induction false} InsertFrame(b1: seq<Bid>, b2: seq<Bid>, ids: seq<BidId>, i: BidId)
    requires i < |b1| && i < |b2| && Rows(b1, ids) && Rows(b2, ids)
    requires b1[i].bidPrice == b2[i].bidPrice
    requires forall k :: 0 <= k < |ids| ==> b1[ids[k]].bidPrice == b2[ids[k]].bidPrice
    ensures InsertByPrice(b1, ids, i) == InsertByPrice(b2, ids, i)
  {
    if ids == [] {
    } else {
      InsertFrame(b1, b2, ids[1..], i);
    }
  }

  /** Rows of other auctions, appended or changed, do not show in an auction's live bids. */
  lemma LiveFrame(b1: seq<Bid>, b2: seq<Bid>, aid: AuctionId)
    requires |b1| <= |b2|
    requires forall i :: 0 <= i < |b1| ==> (Live(b1, aid, i) <==> Live(b2, aid, i))
    requires forall i :: 0 <= i < |b1| && Live(b1, aid, i) ==> b1[i].bidPrice == b2[i].bidPrice
    requires forall i :: |b1| <= i < |b2| ==> !Live(b2, aid, i)
    ensures LiveBids(b1, aid) == LiveBids(b2, aid)
  {
    LiveFrameUpTo(b1, b2, aid, |b1|);
    LiveTail(b2, aid, |b1|);
  }

  lemma {:induction false} LiveTail(bids: seq<Bid>, aid: AuctionId, n: nat)
    requires n <= |bids|
    requires forall i :: n <= i < |bids| ==> !Live(bids, aid, i)
    ensures LiveBids(bids, aid) == LiveUpTo(bids, aid, n)
    decreases |bids| - n
  {
    if n == |bids| {
    } else {
      LiveTail(bids, aid, n + 1);
    }
  }

  /** The live bid priced above every other live bid of its auction heads the list. */
  lemma HeadIs(bids: seq<Bid>, aid: AuctionId, t: BidId)
    requires Live(bids, aid, t)
    requires forall i: BidId :: Live(bids, aid, i) && i != t ==> bids[i].bidPrice < bids[t].bidPrice
    ensures LiveBids(bids, aid) != [] && LiveBids(bids, aid)[0] == t
  {
    var ids := LiveBids(bids, aid);
    assert t in ids;
    var k :| 0 <= k < |ids| && ids[k] == t;
    assert ids[0] in ids;
  }

  lemma HeadIsMember(ids: seq<BidId>)
    ensures ids == [] || ids[0] in ids
  {
  }

  lemma NoneLive(bids: seq<Bid>, aid: AuctionId)
    requires forall i: BidId :: !Live(bids, aid, i)
    ensures LiveBids(bids, aid) == []
  {
    HeadIsMember(LiveBids(bids, aid));
  }
}
