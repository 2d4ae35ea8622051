/** The five wallet moves as functions of the wallet tables, and what the ledger says about the money. */
module WalletMoves {
  import opened Schema

  // ---------------------------------------------------------------- the moves

  /** Adds to the balance where it stands; without such a user no row changes. */
  function Credit(balance: seq<int>, user: UserId, amount: int): seq<int> {
    if user < |balance| then balance[user := balance[user] + amount] else balance
  }

  /** Moves a balance and writes the ledger row for it. */
  function Post(w: Wallet, e: Entry): Wallet {
    Wallet(Credit(w.balance, e.userId, e.amount), w.ledger + [e])
  }

  function Covers(w: Wallet, user: UserId, amount: int): bool {
    user < |w.balance| && amount <= w.balance[user]
  }

  function HoldForBid(w: Wallet, user: UserId, amount: int, bid: BidId): Option<Wallet> {
    if Covers(w, user, amount) then Some(Post(w, Entry(user, -amount, BID_HOLD, bid))) else None
  }

  function ReleaseBidHold(w: Wallet, user: UserId, amount: int, bid: BidId): Wallet {
    if Releases(w.ledger, bid) > 0 then w else Post(w, Entry(user, amount, BID_RELEASE, bid))
  }

  function Pay(w: Wallet, user: UserId, amount: int, order: OrderId): Option<Wallet> {
    if Covers(w, user, amount) then Some(Post(w, Entry(user, -amount, PAYMENT, order))) else None
  }

  function SettleSeller(w: Wallet, seller: UserId, amount: int, order: OrderId): Wallet {
    Post(w, Entry(seller, amount, ADJUSTMENT, order))
  }

  /** Writes the payment's row and moves no balance: the hold already took the money. */
  function ConvertHoldToPayment(w: Wallet, user: UserId, amount: int, order: OrderId): Wallet {
    w.(ledger := w.ledger + [Entry(user, -amount, PAYMENT, order)])
  }

  /** Releases along a list, as the finalize and payment loops do. */
  function ReleaseAll(w: Wallet, ls: seq<LosingBid>): Wallet {
    if ls == [] then w
    else
      var l := ls[|ls| - 1];
      ReleaseBidHold(ReleaseAll(w, ls[..|ls| - 1]), l.userId, l.bidPrice, l.id)
  }

  lemma ReleaseNext(w: Wallet, ls: seq<LosingBid>, k: nat)
    requires k < |ls|
    ensures ReleaseAll(w, ls[..k + 1]) == ReleaseBidHold(ReleaseAll(w, ls[..k]), ls[k].userId, ls[k].bidPrice, ls[k].id)
  {
    assert ls[..k + 1][..k] == ls[..k];
  }

  // ---------------------------------------------------------------- reading the ledger

  /** `countBidReleaseForBid`. */
  function Releases(ledger: seq<Entry>, bid: BidId): nat {
    if ledger == [] then 0
    else
      var e := ledger[|ledger| - 1];
      Releases(ledger[..|ledger| - 1], bid) + if e.kind == BID_RELEASE && e.refId == bid then 1 else 0
  }

  /** The bids of the BID_HOLD rows, oldest row first. */
  function HoldRefs(ledger: seq<Entry>): seq<BidId> {
    if ledger == [] then []
    else
      var e := ledger[|ledger| - 1];
      HoldRefs(ledger[..|ledger| - 1]) + if e.kind == BID_HOLD then [e.refId] else []
  }

  function LedgerSum(ledger: seq<Entry>, user: UserId): int {
    if ledger == [] then 0
    else
      var e := ledger[|ledger| - 1];
      LedgerSum(ledger[..|ledger| - 1], user) + if e.userId == user then e.amount else 0
  }

  /** `sumActiveBidHoldAmount`: rows of `ledger` are summed, the NOT EXISTS looks through `all`. */
  function ActiveHolds(ledger: seq<Entry>, all: seq<Entry>, user: UserId): int {
    if ledger == [] then 0
    else
      var e := ledger[|ledger| - 1];
      ActiveHolds(ledger[..|ledger| - 1], all, user) +
      if e.userId == user && e.kind == BID_HOLD && Releases(all, e.refId) == 0
      then (if e.amount < 0 then -e.amount else e.amount) else 0
  }

  function SumActiveBidHoldAmount(w: Wallet, user: UserId): int {
    ActiveHolds(w.ledger, w.ledger, user)
  }

  lemma LedgerAppend(ledger: seq<Entry>, e: Entry, bid: BidId, user: UserId)
    ensures Releases(ledger + [e], bid) ==
      Releases(ledger, bid) + if e.kind == BID_RELEASE && e.refId == bid then 1 else 0
    ensures HoldRefs(ledger + [e]) == HoldRefs(ledger) + if e.kind == BID_HOLD then [e.refId] else []
    ensures LedgerSum(ledger + [e], user) == LedgerSum(ledger, user) + if e.userId == user then e.amount else 0
  {
    assert (ledger + [e])[..|ledger + [e]| - 1] == ledger;
  }

  lemma {:induction false} NoEntryNoRelease(ledger: seq<Entry>, bid: BidId)
    requires forall k :: 0 <= k < |ledger| ==> ledger[k].kind == BID_RELEASE ==> ledger[k].refId != bid
    ensures Releases(ledger, bid) == 0
  {
    if ledger == [] {
    } else {
      NoEntryNoRelease(ledger[..|ledger| - 1], bid);
    }
  }

  lemma {:induction false} ReleasedHasEntry(ledger: seq<Entry>, bid: BidId)
    requires Releases(ledger, bid) > 0
    ensures exists k :: 0 <= k < |ledger| && ledger[k].kind == BID_RELEASE && ledger[k].refId == bid
  {
    var rest, e := ledger[..|ledger| - 1], ledger[|ledger| - 1];
    if e.kind == BID_RELEASE && e.refId == bid {
    } else {
      ReleasedHasEntry(rest, bid);
      var k :| 0 <= k < |rest| && rest[k].kind == BID_RELEASE && rest[k].refId == bid;
      assert ledger[k] == rest[k];
    }
  }

  // ---------------------------------------------------------------- sums

  function Sum(s: seq<int>): int {
    if s == [] then 0 else Sum(s[..|s| - 1]) + s[|s| - 1]
  }

  lemma {:induction false} SumUpdate(s: seq<int>, i: nat, v: int)
    requires i < |s|
    ensures Sum(s[i := v]) == Sum(s) - s[i] + v
  {
    var n := |s| - 1;
    if i < n {
      SumUpdate(s[..n], i, v);
      assert s[i := v][..n] == s[..n][i := v];
    } else {
      assert s[i := v][..n] == s[..n];
    }
  }

  lemma SumAppend(s: seq<int>, v: int)
    ensures Sum(s + [v]) == Sum(s) + v
  {
    assert (s + [v])[..|s|] == s;
  }

  /** What bid `i` withholds: its price while it is held and neither released nor converted. */
  function Withheld(bids: seq<Bid>, ledger: seq<Entry>, i: BidId): int
    requires i < |bids|
  {
    if i in HoldRefs(ledger) && Releases(ledger, i) == 0 && !bids[i].converted then bids[i].bidPrice else 0
  }

  /** What bid `i` brought into being: its price, if it was released or converted without ever being held. */
  function Minted(bids: seq<Bid>, ledger: seq<Entry>, i: BidId): int
    requires i < |bids|
  {
    if i !in HoldRefs(ledger) && (Releases(ledger, i) > 0 || bids[i].converted) then bids[i].bidPrice else 0
  }

  /** The account of bid `i`: its hold, less its release, less its conversion. */
  function Claim(bids: seq<Bid>, ledger: seq<Entry>, i: BidId): int
    requires i < |bids|
  {
    (if i in HoldRefs(ledger) then bids[i].bidPrice else 0)
    - (if Releases(ledger, i) > 0 then bids[i].bidPrice else 0)
    - (if bids[i].converted then bids[i].bidPrice else 0)
  }

  function WithheldAll(bids: seq<Bid>, ledger: seq<Entry>): seq<int> {
    seq(|bids|, i requires 0 <= i < |bids| => Withheld(bids, ledger, i))
  }

  function MintedAll(bids: seq<Bid>, ledger: seq<Entry>): seq<int> {
    seq(|bids|, i requires 0 <= i < |bids| => Minted(bids, ledger, i))
  }

  function Claims(bids: seq<Bid>, ledger: seq<Entry>): seq<int> {
    seq(|bids|, i requires 0 <= i < |bids| => Claim(bids, ledger, i))
  }

  /** The balances and the accounts of all bids. */
  function Wealth(bids: seq<Bid>, w: Wallet): int {
    Sum(w.balance) + Sum(Claims(bids, w.ledger))
  }

  function ConvertedPrices(bids: seq<Bid>, user: UserId): seq<int> {
    seq(|bids|, i requires 0 <= i < |bids| =>
      if bids[i].converted && bids[i].userId == user then bids[i].bidPrice else 0)
  }

  /** The part of a balance that neither the ledger nor the converted holds explain: the opening balance and
      the top-ups. */
  function Unexplained(bids: seq<Bid>, w: Wallet, user: UserId): int
    requires user < |w.balance|
  {
    w.balance[user] - LedgerSum(w.ledger, user) - Sum(ConvertedPrices(bids, user))
  }

  // ---------------------------------------------------------------- the wallet invariant

  /** A hold row takes the price of its bid from the bidder, a release row gives the same price back to the
      same user, and only for a disqualified bid. */
  predicate EntryOk(bids: seq<Bid>, e: Entry) {
    && (e.kind == BID_HOLD ==>
          e.refId < |bids| && e.userId == bids[e.refId].userId && e.amount == -bids[e.refId].bidPrice)
    && (e.kind == BID_RELEASE ==>
          && e.refId < |bids| && e.userId == bids[e.refId].userId && e.amount == bids[e.refId].bidPrice
          && bids[e.refId].disqualifiedAt.Some?)
  }

  predicate Ascending(ids: seq<BidId>) { forall x, y :: 0 <= x < y < |ids| ==> ids[x] < ids[y] }

  predicate WalletInv(bids: seq<Bid>, w: Wallet) {
    && (forall u :: 0 <= u < |w.balance| ==> 0 <= w.balance[u])
    && (forall k :: 0 <= k < |w.ledger| ==> EntryOk(bids, w.ledger[k]))
    && Ascending(HoldRefs(w.ledger))
    && (forall b: BidId :: b < |bids| ==> Releases(w.ledger, b) <= 1)
    && (forall b: BidId :: b < |bids| && bids[b].converted ==> bids[b].disqualifiedAt.None?)
    && (forall b: BidId :: b < |bids| ==> bids[b].userId < |w.balance| && 0 < bids[b].bidPrice)
  }

  lemma {:induction false} HeldHasEntry(ledger: seq<Entry>, bid: BidId)
    requires bid in HoldRefs(ledger)
    ensures exists k :: 0 <= k < |ledger| && ledger[k].kind == BID_HOLD && ledger[k].refId == bid
  {
    var rest, e := ledger[..|ledger| - 1], ledger[|ledger| - 1];
    if e.kind == BID_HOLD && e.refId == bid {
    } else {
      HeldHasEntry(rest, bid);
      var k :| 0 <= k < |rest| && rest[k].kind == BID_HOLD && rest[k].refId == bid;
      assert ledger[k] == rest[k];
    }
  }

  /** Only bids in the table were held. */
  lemma HeldInside(bids: seq<Bid>, w: Wallet, b: BidId)
    requires WalletInv(bids, w) && b in HoldRefs(w.ledger)
    ensures b < |bids|
  {
    HeldHasEntry(w.ledger, b);
  }

  lemma LiveUnreleased(bids: seq<Bid>, w: Wallet, b: BidId)
    requires WalletInv(bids, w) && (b < |bids| ==> bids[b].disqualifiedAt.None?)
    ensures Releases(w.ledger, b) == 0
  {
    NoEntryNoRelease(w.ledger, b);
  }

  /** Which rows of the bid table may change under the wallet's feet: users, prices and the history stay,
      and a disqualification is never taken back. */
  predicate BidsAdvance(b1: seq<Bid>, b2: seq<Bid>) {
    && |b1| == |b2|
    && forall i :: 0 <= i < |b1| ==>
      && b2[i].userId == b1[i].userId && b2[i].bidPrice == b1[i].bidPrice && b2[i].converted == b1[i].converted
      && (b1[i].disqualifiedAt.Some? ==> b2[i].disqualifiedAt.Some?)
      && (b2[i].converted ==> b2[i].disqualifiedAt.None?)
  }

  lemma AdvanceKeeps(b1: seq<Bid>, b2: seq<Bid>, w: Wallet)
    requires WalletInv(b1, w) && BidsAdvance(b1, b2)
    ensures WalletInv(b2, w)
    ensures Wealth(b2, w) == Wealth(b1, w)
    ensures forall u :: 0 <= u < |w.balance| ==> Unexplained(b2, w, u) == Unexplained(b1, w, u)
  {
    assert Claims(b2, w.ledger) == Claims(b1, w.ledger);
    forall u | 0 <= u < |w.balance| ensures Unexplained(b2, w, u) == Unexplained(b1, w, u) {
      assert ConvertedPrices(b2, u) == ConvertedPrices(b1, u);
    }
  }

  /** A posted row moves the balance and the ledger sum of its user alike. */
  lemma PostExplains(bids: seq<Bid>, w: Wallet, e: Entry)
    requires e.userId < |w.balance|
    ensures forall u :: 0 <= u < |w.balance| ==> Unexplained(bids, Post(w, e), u) == Unexplained(bids, w, u)
    ensures Sum(Post(w, e).balance) == Sum(w.balance) + e.amount
  {
    SumUpdate(w.balance, e.userId, w.balance[e.userId] + e.amount);
    forall u: UserId | u < |w.balance| ensures Unexplained(bids, Post(w, e), u) == Unexplained(bids, w, u) {
      LedgerAppend(w.ledger, e, 0, u);
    }
  }

  /** An entry about an order says nothing about bids. */
  lemma OrderEntryFrames(bids: seq<Bid>, ledger: seq<Entry>, e: Entry)
    requires e.kind == PAYMENT || e.kind == ADJUSTMENT
    ensures HoldRefs(ledger + [e]) == HoldRefs(ledger)
    ensures forall b: BidId :: Releases(ledger + [e], b) == Releases(ledger, b)
    ensures Claims(bids, ledger + [e]) == Claims(bids, ledger)
  {
    LedgerAppend(ledger, e, 0, 0);
    forall b: BidId ensures Releases(ledger + [e], b) == Releases(ledger, b) {
      LedgerAppend(ledger, e, b, 0);
    }
  }

  predicate FreshBid(w: Wallet, b: Bid) {
    && b.disqualifiedAt.None? && !b.converted && 0 < b.bidPrice && Covers(w, b.userId, b.bidPrice)
  }

  lemma HoldKeepsInv(bids: seq<Bid>, w: Wallet, b: Bid)
    requires WalletInv(bids, w) && FreshBid(w, b)
    ensures var w' := HoldForBid(w, b.userId, b.bidPrice, |bids|).value;
      && WalletInv(bids + [b], w') && |w'.balance| == |w.balance|
      && forall i: BidId :: Releases(w'.ledger, i) == Releases(w.ledger, i)
  {
    hide Releases, HoldRefs, LedgerSum;
    var n, bids', e := |bids|, bids + [b], Entry(b.userId, -b.bidPrice, BID_HOLD, |bids|);
    var w' := Post(w, e);
    LiveUnreleased(bids, w, n);
    forall i: BidId ensures Releases(w'.ledger, i) == Releases(w.ledger, i) {
      LedgerAppend(w.ledger, e, i, 0);
    }
    LedgerAppend(w.ledger, e, n, 0);
    forall x | 0 <= x < |HoldRefs(w.ledger)| ensures HoldRefs(w.ledger)[x] < n {
      HeldInside(bids, w, HoldRefs(w.ledger)[x]);
    }
  }

  /** A hold for a bid just inserted: the balance falls by what the bid now withholds. */
  lemma HoldKeeps(bids: seq<Bid>, w: Wallet, b: Bid)
    requires WalletInv(bids, w) && FreshBid(w, b)
    ensures var w' := HoldForBid(w, b.userId, b.bidPrice, |bids|).value;
      && WalletInv(bids + [b], w') && |w'.balance| == |w.balance|
      && Wealth(bids + [b], w') == Wealth(bids, w)
      && forall u :: 0 <= u < |w.balance| ==> Unexplained(bids + [b], w', u) == Unexplained(bids, w, u)
  {
    hide Releases, HoldRefs, Sum, ConvertedPrices, LedgerSum, WalletInv, Claims;
    var n, bids', e := |bids|, bids + [b], Entry(b.userId, -b.bidPrice, BID_HOLD, |bids|);
    var w' := Post(w, e);
    HoldKeepsInv(bids, w, b);
    LedgerAppend(w.ledger, e, n, 0);
    HoldWithholds(bids, w, b, w');
    PostExplains(bids, w, e);
    forall u: UserId | u < |w.balance| ensures Unexplained(bids', w', u) == Unexplained(bids, w, u) {
      NewBidConvertsNothing(bids, b, u);
    }
  }

  lemma NewBidConvertsNothing(bids: seq<Bid>, b: Bid, user: UserId)
    requires !b.converted
    ensures Sum(ConvertedPrices(bids + [b], user)) == Sum(ConvertedPrices(bids, user))
  {
    assert ConvertedPrices(bids + [b], user) == ConvertedPrices(bids, user) + [0];
    SumAppend(ConvertedPrices(bids, user), 0);
  }

  lemma HoldWithholds(bids: seq<Bid>, w: Wallet, b: Bid, w': Wallet)
    requires WalletInv(bids, w) && !b.converted
    requires HoldRefs(w'.ledger) == HoldRefs(w.ledger) + [|bids|]
    requires forall i: BidId :: Releases(w'.ledger, i) == Releases(w.ledger, i)
    ensures Sum(Claims(bids + [b], w'.ledger)) == Sum(Claims(bids, w.ledger)) + b.bidPrice
  {
    LiveUnreleased(bids, w, |bids|);
    assert Claims(bids + [b], w'.ledger) == Claims(bids, w.ledger) + [b.bidPrice];
    SumAppend(Claims(bids, w.ledger), b.bidPrice);
  }

  /** A bid inserted without a hold has nothing coming. */
  lemma UnheldKeeps(bids: seq<Bid>, w: Wallet, b: Bid)
    requires WalletInv(bids, w) && b.disqualifiedAt.None? && !b.converted && 0 < b.bidPrice && b.userId < |w.balance|
    ensures WalletInv(bids + [b], w) && Wealth(bids + [b], w) == Wealth(bids, w)
    ensures forall u :: 0 <= u < |w.balance| ==> Unexplained(bids + [b], w, u) == Unexplained(bids, w, u)
  {
    hide Releases, HoldRefs, Sum, ConvertedPrices, LedgerSum;
    LiveUnreleased(bids, w, |bids|);
    if |bids| in HoldRefs(w.ledger) {
      HeldInside(bids, w, |bids|);
    }
    assert Claims(bids + [b], w.ledger) == Claims(bids, w.ledger) + [0];
    SumAppend(Claims(bids, w.ledger), 0);
    forall u: UserId | u < |w.balance| ensures Unexplained(bids + [b], w, u) == Unexplained(bids, w, u) {
      NewBidConvertsNothing(bids, b, u);
    }
  }

  /** A losing bid as some close listed it still names the user, the price and the disqualified row. */
  predicate LosingOk(bids: seq<Bid>, l: LosingBid) {
    && l.id < |bids| && bids[l.id].userId == l.userId && bids[l.id].bidPrice == l.bidPrice
    && bids[l.id].disqualifiedAt.Some?
  }

  function ReleaseEntry(l: LosingBid): Entry { Entry(l.userId, l.bidPrice, BID_RELEASE, l.id) }

  /** A release row counts for its bid and says nothing about holds. */
  lemma ReleaseFrames(ledger: seq<Entry>, l: LosingBid)
    ensures HoldRefs(ledger + [ReleaseEntry(l)]) == HoldRefs(ledger)
    ensures forall i: BidId ::
      Releases(ledger + [ReleaseEntry(l)], i) == Releases(ledger, i) + if i == l.id then 1 else 0
  {
    hide Releases, HoldRefs, LedgerSum;
    LedgerAppend(ledger, ReleaseEntry(l), 0, 0);
    forall i: BidId
      ensures Releases(ledger + [ReleaseEntry(l)], i) == Releases(ledger, i) + if i == l.id then 1 else 0
    {
      LedgerAppend(ledger, ReleaseEntry(l), i, 0);
    }
  }

  lemma ReleaseKeepsInv(bids: seq<Bid>, w: Wallet, l: LosingBid)
    requires WalletInv(bids, w) && LosingOk(bids, l) && Releases(w.ledger, l.id) == 0
    ensures WalletInv(bids, Post(w, ReleaseEntry(l)))
  {
    hide Releases, HoldRefs, Ascending;
    ReleaseFrames(w.ledger, l);
  }

  /** The first release takes the price of the bid off its account. */
  lemma ReleaseClaims(bids: seq<Bid>, ledger: seq<Entry>, l: LosingBid)
    requires LosingOk(bids, l) && Releases(ledger, l.id) == 0
    ensures Sum(Claims(bids, ledger + [ReleaseEntry(l)])) == Sum(Claims(bids, ledger)) - l.bidPrice
  {
    hide Releases, HoldRefs, Sum;
    ReleaseFrames(ledger, l);
    var before := Claims(bids, ledger);
    var after := before[l.id] - l.bidPrice;
    assert Claims(bids, ledger + [ReleaseEntry(l)]) == before[l.id := after];
    SumUpdate(before, l.id, after);
  }

  /** Releasing a disqualified bid: what it withheld goes back to its user, once. */
  lemma ReleaseKeeps(bids: seq<Bid>, w: Wallet, l: LosingBid)
    requires WalletInv(bids, w) && LosingOk(bids, l)
    ensures var w' := ReleaseBidHold(w, l.userId, l.bidPrice, l.id);
      && WalletInv(bids, w') && Wealth(bids, w') == Wealth(bids, w) && |w'.balance| == |w.balance|
      && Releases(w'.ledger, l.id) == 1
      && (forall i: BidId :: i != l.id ==> Releases(w'.ledger, i) == Releases(w.ledger, i))
      && forall u :: 0 <= u < |w.balance| ==> Unexplained(bids, w', u) == Unexplained(bids, w, u)
  {
    hide Releases, HoldRefs, Sum, Claims, Unexplained, Ascending, EntryOk;
    if Releases(w.ledger, l.id) == 0 {
      ReleaseFrames(w.ledger, l);
      ReleaseKeepsInv(bids, w, l);
      ReleaseClaims(bids, w.ledger, l);
      PostExplains(bids, w, ReleaseEntry(l));
    }
  }

  lemma {:induction false} ReleaseAllKeeps(bids: seq<Bid>, w: Wallet, ls: seq<LosingBid>)
    requires WalletInv(bids, w) && forall k :: 0 <= k < |ls| ==> LosingOk(bids, ls[k])
    ensures var w' := ReleaseAll(w, ls);
      && WalletInv(bids, w') && Wealth(bids, w') == Wealth(bids, w) && |w'.balance| == |w.balance|
      && (forall k :: 0 <= k < |ls| ==> Releases(w'.ledger, ls[k].id) == 1)
      && (forall i: BidId :: (forall k :: 0 <= k < |ls| ==> ls[k].id != i) ==>
            Releases(w'.ledger, i) == Releases(w.ledger, i))
      && forall u :: 0 <= u < |w.balance| ==> Unexplained(bids, w', u) == Unexplained(bids, w, u)
  {
    hide Releases, Wealth, Unexplained, WalletInv, ReleaseBidHold;
    if ls == [] {
    } else {
      var n := |ls| - 1;
      ReleaseAllKeeps(bids, w, ls[..n]);
      assert forall k :: 0 <= k < n ==> ls[..n][k] == ls[k];
      ReleaseKeeps(bids, ReleaseAll(w, ls[..n]), ls[n]);
    }
  }

  /** Releasing other bids releases this one not. */
  lemma {:induction false} ReleaseAllElsewhere(w: Wallet, ls: seq<LosingBid>, b: BidId)
    requires forall k :: 0 <= k < |ls| ==> ls[k].id != b
    ensures Releases(ReleaseAll(w, ls).ledger, b) == Releases(w.ledger, b)
  {
    if ls == [] {
    } else {
      var l, w1 := ls[|ls| - 1], ReleaseAll(w, ls[..|ls| - 1]);
      ReleaseAllElsewhere(w, ls[..|ls| - 1], b);
      LedgerAppend(w1.ledger, Entry(l.userId, l.bidPrice, BID_RELEASE, l.id), b, 0);
    }
  }

  /** A direct payment and its settlement: the amount passes from the buyer to the seller. */
  lemma PayKeeps(bids: seq<Bid>, w: Wallet, user: UserId, amount: int, order: OrderId)
    requires WalletInv(bids, w) && Covers(w, user, amount)
    ensures var w' := Pay(w, user, amount, order).value;
      && WalletInv(bids, w') && Wealth(bids, w') == Wealth(bids, w) - amount && |w'.balance| == |w.balance|
      && (forall i: BidId :: Releases(w'.ledger, i) == Releases(w.ledger, i))
      && forall u :: 0 <= u < |w.balance| ==> Unexplained(bids, w', u) == Unexplained(bids, w, u)
  {
    var e := Entry(user, -amount, PAYMENT, order);
    OrderEntryFrames(bids, w.ledger, e);
    PostExplains(bids, w, e);
  }

  lemma SettleKeeps(bids: seq<Bid>, w: Wallet, seller: UserId, amount: int, order: OrderId)
    requires WalletInv(bids, w) && seller < |w.balance| && 0 <= amount
    ensures var w' := SettleSeller(w, seller, amount, order);
      && WalletInv(bids, w') && Wealth(bids, w') == Wealth(bids, w) + amount && |w'.balance| == |w.balance|
      && (forall i: BidId :: Releases(w'.ledger, i) == Releases(w.ledger, i))
      && forall u :: 0 <= u < |w.balance| ==> Unexplained(bids, w', u) == Unexplained(bids, w, u)
  {
    var e := Entry(seller, amount, ADJUSTMENT, order);
    OrderEntryFrames(bids, w.ledger, e);
    PostExplains(bids, w, e);
  }

  function Converted(bids: seq<Bid>, t: BidId): seq<Bid>
    requires t < |bids|
  {
    bids[t := bids[t].(converted := true)]
  }

  lemma ConvertClaims(bids: seq<Bid>, ledger: seq<Entry>, t: BidId, e: Entry)
    requires t < |bids| && !bids[t].converted && e.kind == PAYMENT
    ensures Sum(Claims(Converted(bids, t), ledger + [e])) == Sum(Claims(bids, ledger)) - bids[t].bidPrice
  {
    hide Releases, HoldRefs, Sum;
    OrderEntryFrames(bids, ledger, e);
    var before := Claims(bids, ledger);
    var after := before[t] - bids[t].bidPrice;
    assert Claims(Converted(bids, t), ledger + [e]) == before[t := after];
    SumUpdate(before, t, after);
  }

  lemma ConvertPrices(bids: seq<Bid>, t: BidId, user: UserId)
    requires t < |bids| && !bids[t].converted
    ensures Sum(ConvertedPrices(Converted(bids, t), user)) ==
      Sum(ConvertedPrices(bids, user)) + if bids[t].userId == user then bids[t].bidPrice else 0
  {
    hide Sum;
    var prices := ConvertedPrices(bids, user);
    var gain := if bids[t].userId == user then bids[t].bidPrice else 0;
    assert ConvertedPrices(Converted(bids, t), user) == prices[t := gain];
    SumUpdate(prices, t, gain);
  }

  lemma ConvertKeepsInv(bids: seq<Bid>, w: Wallet, t: BidId, e: Entry)
    requires WalletInv(bids, w) && t < |bids| && bids[t].disqualifiedAt.None? && e.kind == PAYMENT
    ensures WalletInv(Converted(bids, t), w.(ledger := w.ledger + [e]))
  {
    hide Releases, HoldRefs, Ascending;
    OrderEntryFrames(bids, w.ledger, e);
  }

  /** Converting the hold of a live bid: it stops withholding its price, and the ledger row that no balance
      matches is made up for by the converted price. */
  lemma ConvertKeeps(bids: seq<Bid>, w: Wallet, t: BidId, order: OrderId)
    requires WalletInv(bids, w) && t < |bids| && bids[t].disqualifiedAt.None? && !bids[t].converted
    ensures var w' := ConvertHoldToPayment(w, bids[t].userId, bids[t].bidPrice, order);
      var bids' := Converted(bids, t);
      && WalletInv(bids', w') && Wealth(bids', w') == Wealth(bids, w) - bids[t].bidPrice
      && w'.balance == w.balance
      && (forall i: BidId :: Releases(w'.ledger, i) == Releases(w.ledger, i))
      && forall u :: 0 <= u < |w.balance| ==> Unexplained(bids', w', u) == Unexplained(bids, w, u)
  {
    hide Releases, HoldRefs, Sum, Claims, ConvertedPrices, Converted, WalletInv, LedgerSum;
    var e, bids' := Entry(bids[t].userId, -bids[t].bidPrice, PAYMENT, order), Converted(bids, t);
    var w' := ConvertHoldToPayment(w, bids[t].userId, bids[t].bidPrice, order);
    OrderEntryFrames(bids, w.ledger, e);
    ConvertKeepsInv(bids, w, t, e);
    ConvertClaims(bids, w.ledger, t, e);
    forall u: UserId | u < |w.balance| ensures Unexplained(bids', w', u) == Unexplained(bids, w, u) {
      LedgerAppend(w.ledger, e, 0, u);
      ConvertPrices(bids, t, u);
    }
  }

  // ---------------------------------------------------------------- what the accounts add up to

  lemma {:induction false} SumPlus(a: seq<int>, b: seq<int>, c: seq<int>)
    requires |a| == |b| == |c| && forall i :: 0 <= i < |a| ==> a[i] + b[i] == c[i]
    ensures Sum(a) + Sum(b) == Sum(c)
  {
    if a == [] {
    } else {
      var n := |a| - 1;
      SumPlus(a[..n], b[..n], c[..n]);
    }
  }

  lemma {:induction false} SumNonNegative(s: seq<int>)
    requires forall i :: 0 <= i < |s| ==> 0 <= s[i]
    ensures 0 <= Sum(s) && (Sum(s) == 0 <==> forall i :: 0 <= i < |s| ==> s[i] == 0)
  {
    if s == [] {
    } else {
      var n := |s| - 1;
      SumNonNegative(s[..n]);
      assert forall i :: 0 <= i < n ==> s[i] == s[..n][i];
    }
  }

  /** The accounts of all bids together: what is withheld, less what was minted. */
  lemma ClaimsSplit(bids: seq<Bid>, w: Wallet)
    requires WalletInv(bids, w)
    ensures Wealth(bids, w) == Sum(w.balance) + Sum(WithheldAll(bids, w.ledger)) - Sum(MintedAll(bids, w.ledger))
  {
    forall i: BidId | i < |bids|
      ensures Claim(bids, w.ledger, i) + Minted(bids, w.ledger, i) == Withheld(bids, w.ledger, i)
    {
      if bids[i].converted {
        LiveUnreleased(bids, w, i);
      }
    }
    SumPlus(Claims(bids, w.ledger), MintedAll(bids, w.ledger), WithheldAll(bids, w.ledger));
  }

  // ---------------------------------------------------------------- sumActiveBidHoldAmount

  /** The prices of a user's unreleased bids among `refs`. */
  function UnreleasedPrices(bids: seq<Bid>, ledger: seq<Entry>, user: UserId, refs: seq<BidId>): seq<int> {
    seq(|bids|, i requires 0 <= i < |bids| =>
      if i in refs && bids[i].userId == user && Releases(ledger, i) == 0 then bids[i].bidPrice else 0)
  }

  /** The last row of a part of the ledger, if it is a hold: a bid of the table, not held before. */
  lemma LastHold(bids: seq<Bid>, w: Wallet, ledger: seq<Entry>)
    requires WalletInv(bids, w) && ledger <= w.ledger && ledger != [] && ledger[|ledger| - 1].kind == BID_HOLD
    ensures var e, refs := ledger[|ledger| - 1], HoldRefs(ledger[..|ledger| - 1]);
      && EntryOk(bids, e) && e.refId !in refs && HoldRefs(ledger) == refs + [e.refId]
      && 0 < bids[e.refId].bidPrice
  {
    hide Ascending, Releases;
    var n := |ledger| - 1;
    assert ledger[n] == w.ledger[n];
    RefsPrefix(ledger, w.ledger);
    LastIsNew(HoldRefs(w.ledger), HoldRefs(ledger[..n]), ledger[n].refId);
  }

  lemma LastIsNew(all: seq<BidId>, refs: seq<BidId>, id: BidId)
    requires Ascending(all) && refs + [id] <= all
    ensures id !in refs
  {
    forall x | 0 <= x < |refs| ensures refs[x] < id {
      assert all[x] == (refs + [id])[x] && all[|refs|] == (refs + [id])[|refs|];
    }
  }

  lemma {:induction false} ActiveHoldsUpTo(bids: seq<Bid>, w: Wallet, user: UserId, ledger: seq<Entry>)
    requires WalletInv(bids, w) && ledger <= w.ledger
    ensures ActiveHolds(ledger, w.ledger, user) == Sum(UnreleasedPrices(bids, w.ledger, user, HoldRefs(ledger)))
  {
    hide WalletInv, UnreleasedPrices;
    if ledger == [] {
      NoneUnreleased(bids, w.ledger, user);
    } else {
      var n := |ledger| - 1;
      ActiveHoldsUpTo(bids, w, user, ledger[..n]);
      if ledger[n].kind == BID_HOLD {
        LastHold(bids, w, ledger);
        ActiveHoldAdds(bids, w.ledger, user, HoldRefs(ledger[..n]), ledger[n].refId);
      } else {
        assert HoldRefs(ledger) == HoldRefs(ledger[..n]);
      }
    }
  }

  lemma NoneUnreleased(bids: seq<Bid>, ledger: seq<Entry>, user: UserId)
    ensures Sum(UnreleasedPrices(bids, ledger, user, [])) == 0
  {
    SumNonNegative(UnreleasedPrices(bids, ledger, user, []));
  }

  lemma ActiveHoldAdds(bids: seq<Bid>, ledger: seq<Entry>, user: UserId, refs: seq<BidId>, x: BidId)
    requires x < |bids| && x !in refs
    ensures Sum(UnreleasedPrices(bids, ledger, user, refs + [x])) == Sum(UnreleasedPrices(bids, ledger, user, refs))
      + if bids[x].userId == user && Releases(ledger, x) == 0 then bids[x].bidPrice else 0
  {
    var before := UnreleasedPrices(bids, ledger, user, refs);
    var added := if bids[x].userId == user && Releases(ledger, x) == 0 then bids[x].bidPrice else 0;
    assert UnreleasedPrices(bids, ledger, user, refs + [x]) == before[x := added];
    SumUpdate(before, x, added);
  }

  lemma {:induction false} RefsPrefix(l1: seq<Entry>, l2: seq<Entry>)
    requires l1 <= l2
    ensures HoldRefs(l1) <= HoldRefs(l2)
  {
    if |l1| < |l2| {
      RefsPrefix(l1, l2[..|l2| - 1]);
    } else {
      assert l1 == l2;
    }
  }

  /** What the user's bids withhold, and what the user paid by conversion. */
  function WithheldOf(bids: seq<Bid>, ledger: seq<Entry>, user: UserId): seq<int> {
    seq(|bids|, i requires 0 <= i < |bids| => if bids[i].userId == user then Withheld(bids, ledger, i) else 0)
  }

  predicate PaidByHold(bids: seq<Bid>, ledger: seq<Entry>, user: UserId, i: BidId) {
    i < |bids| && bids[i].userId == user && bids[i].converted && i in HoldRefs(ledger)
  }

  function ConvertedHolds(bids: seq<Bid>, ledger: seq<Entry>, user: UserId): seq<int> {
    seq(|bids|, i requires 0 <= i < |bids| => if PaidByHold(bids, ledger, user, i) then bids[i].bidPrice else 0)
  }

  /** The query answers with what the user's bids withhold and, on top, the prices the user paid by converting a
      hold: such a hold is never released, so it stays in the sum.  The promise that the balance and this sum
      are the user's total assets therefore holds exactly for users who never paid that way. */
  lemma SumActiveIs(bids: seq<Bid>, w: Wallet, user: UserId)
    requires WalletInv(bids, w)
    ensures SumActiveBidHoldAmount(w, user) ==
      Sum(WithheldOf(bids, w.ledger, user)) + Sum(ConvertedHolds(bids, w.ledger, user))
    ensures SumActiveBidHoldAmount(w, user) == Sum(WithheldOf(bids, w.ledger, user)) <==>
      forall i: BidId :: !PaidByHold(bids, w.ledger, user, i)
  {
    ActiveHoldsUpTo(bids, w, user, w.ledger);
    forall i: BidId | i < |bids| && bids[i].converted ensures Releases(w.ledger, i) == 0 {
      LiveUnreleased(bids, w, i);
    }
    var paid := ConvertedHolds(bids, w.ledger, user);
    SumPlus(WithheldOf(bids, w.ledger, user), paid, UnreleasedPrices(bids, w.ledger, user, HoldRefs(w.ledger)));
    SumNonNegative(paid);
    forall i: BidId | PaidByHold(bids, w.ledger, user, i) ensures paid[i] > 0 {
    }
  }
}
