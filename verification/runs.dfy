/** Safety and conservation over every run of the service. */
module Runs {
  import opened Schema
  import opened WalletMoves
  import opened Transactions
  import opened MarketInvariant
  import opened DatabaseInvariant
  import opened Service
  import Payload

  function DepositsTo(s: Sys, acts: seq<Action>, user: UserId): int {
    if acts == [] then 0
    else DepositsTo(s, acts[..|acts| - 1], user) +
         DepositTo(Exec(s, acts[..|acts| - 1]), acts[|acts| - 1], user)
  }

  function AllDeposits(s: Sys, acts: seq<Action>): int {
    if acts == [] then 0
    else
      var before, a := Exec(s, acts[..|acts| - 1]), acts[|acts| - 1];
      AllDeposits(s, acts[..|acts| - 1]) + if a.Deposit? && a.user < |before.db.wallet.balance| then a.amount else 0
  }

  /** The invariant survives every run, and the tables only evolve. */
  lemma {:induction false} RunInv(s: Sys, acts: seq<Action>)
    requires Inv(s)
    ensures Inv(Exec(s, acts)) && Evolves(s.db.market, Exec(s, acts).db.market)
    ensures |Exec(s, acts).db.wallet.balance| == |s.db.wallet.balance|
  {
    if acts == [] {
      Same(s.db);
    } else {
      var before := Exec(s, acts[..|acts| - 1]);
      RunInv(s, acts[..|acts| - 1]);
      ApplyGood(before, acts[|acts| - 1]);
      EvolvesTransitive(s.db.market, before.db.market, Exec(s, acts).db.market, |s.db.wallet.balance|);
    }
  }

  /** The states the service can be in. */
  ghost predicate Reachable(s: Sys) {
    exists balance: seq<nat>, uniqueOrder: bool, acts: seq<Action> :: s == Exec(Init(balance, uniqueOrder), acts)
  }

  lemma ReachableInv(s: Sys)
    requires Reachable(s)
    ensures Inv(s)
  {
    var balance: seq<nat>, uniqueOrder: bool, acts: seq<Action> :| s == Exec(Init(balance, uniqueOrder), acts);
    InitInv(balance, uniqueOrder);
    RunInv(Init(balance, uniqueOrder), acts);
  }

  /** Some run leads from one state to the other. */
  ghost predicate Reaches(s: Sys, s': Sys) { exists acts :: Exec(s, acts) == s' }

  lemma ReachesItself(s: Sys)
    ensures Reaches(s, s)
  {
    assert Exec(s, []) == s;
  }

  lemma ReachesNext(s: Sys, s1: Sys, a: Action)
    requires Reaches(s, s1)
    ensures Reaches(s, Apply(s1, a))
  {
    hide Apply;
    var acts :| Exec(s, acts) == s1;
    var more := acts + [a];
    assert more[..|more| - 1] == acts;
    assert Exec(s, more) == Apply(s1, a);
  }

  lemma ReachesTwo(s: Sys, a: Action, b: Action)
    ensures Reaches(s, Apply(Apply(s, a), b))
  {
    hide Apply;
    ReachesItself(s);
    ReachesNext(s, s, a);
    ReachesNext(s, Apply(s, a), b);
  }

  /** Conservation, over any run: the balances and the accounts of all bids grow by the deposits and nothing
      else. */
  lemma {:induction false} MoneyConserved(s: Sys, acts: seq<Action>)
    requires Inv(s)
    ensures TotalMoney(Exec(s, acts).db) == TotalMoney(s.db) + AllDeposits(s, acts)
  {
    if acts == [] {
    } else {
      var n := |acts| - 1;
      RunInv(s, acts[..n]);
      MoneyConserved(s, acts[..n]);
      ApplyGood(Exec(s, acts[..n]), acts[n]);
    }
  }

  /** What the users own: their balances and what their bids withhold. */
  function Owned(db: Db): int { Sum(db.wallet.balance) + Sum(WithheldAll(db.market.bids, db.wallet.ledger)) }

  function AllMinted(db: Db): int { Sum(MintedAll(db.market.bids, db.wallet.ledger)) }

  /** So what the users own is what they opened with, what they deposited, and the prices of the bids that were
      released or converted without ever being held.  It is no more than opened and deposited exactly if there
      is no such bid. */
  lemma MoneyAccounted(balance: seq<nat>, uniqueOrder: bool, acts: seq<Action>)
    ensures var s := Init(balance, uniqueOrder); var db := Exec(s, acts).db;
      && Owned(db) == Sum(balance) + AllDeposits(s, acts) + AllMinted(db) && 0 <= AllMinted(db)
      && (Owned(db) == Sum(balance) + AllDeposits(s, acts) <==>
            forall i: BidId :: i < |db.market.bids| ==> Minted(db.market.bids, db.wallet.ledger, i) == 0)
  {
    hide Minted, Claim, Apply;
    var s := Init(balance, uniqueOrder);
    var db := Exec(s, acts).db;
    InitInv(balance, uniqueOrder);
    RunInv(s, acts);
    MoneyConserved(s, acts);
    assert Claims([], []) == [];
    ClaimsSplit(db.market.bids, db.wallet);
    MintedNonNegative(db.market.bids, db.wallet);
  }

  lemma MintedNonNegative(bids: seq<Bid>, w: Wallet)
    requires WalletInv(bids, w)
    ensures var minted := MintedAll(bids, w.ledger);
      0 <= Sum(minted) && (Sum(minted) == 0 <==> forall i: BidId :: i < |bids| ==> Minted(bids, w.ledger, i) == 0)
  {
    var minted := MintedAll(bids, w.ledger);
    SumNonNegative(minted);
    assert forall i: BidId :: i < |bids| ==> minted[i] == Minted(bids, w.ledger, i);
  }

  lemma {:induction false} DepositedGrows(s: Sys, acts: seq<Action>, user: UserId)
    requires Inv(s) && user < |s.db.wallet.balance|
    ensures |Exec(s, acts).db.wallet.balance| == |s.db.wallet.balance|
    ensures Deposited(Exec(s, acts).db, user) == Deposited(s.db, user) + DepositsTo(s, acts, user)
  {
    if acts == [] {
    } else {
      var n := |acts| - 1;
      RunInv(s, acts[..n]);
      DepositedGrows(s, acts[..n], user);
      ApplyGood(Exec(s, acts[..n]), acts[n]);
    }
  }

  /** The ledger explains the wallet: opening balance, deposits, ledger rows, converted holds; and the balance
      is never negative. */
  lemma LedgerExplainsBalance(balance: seq<nat>, uniqueOrder: bool, acts: seq<Action>, user: UserId)
    requires user < |balance|
    ensures var s := Init(balance, uniqueOrder); var db := Exec(s, acts).db;
      && |db.wallet.balance| == |balance|
      && db.wallet.balance[user] ==
           balance[user] + DepositsTo(s, acts, user) + LedgerSum(db.wallet.ledger, user)
           + Sum(ConvertedPrices(db.market.bids, user))
      && 0 <= db.wallet.balance[user]
  {
    var s := Init(balance, uniqueOrder);
    InitInv(balance, uniqueOrder);
    RunInv(s, acts);
    DepositedGrows(s, acts, user);
    assert ConvertedPrices([], user) == [];
  }

  /** The total assets of a user as the service reports them: the balance, what the user's bids withhold, and
      the holds the user paid by.  The promise that they are balance plus withheld holds exactly for users who
      never paid by a hold. */
  lemma TotalAssets(s: Sys, user: UserId)
    requires Reachable(s) && user < |s.db.wallet.balance|
    ensures var bids, w := s.db.market.bids, s.db.wallet;
      var assets := w.balance[user] + SumActiveBidHoldAmount(w, user);
      && assets == w.balance[user] + Sum(WithheldOf(bids, w.ledger, user)) + Sum(ConvertedHolds(bids, w.ledger, user))
      && (assets == w.balance[user] + Sum(WithheldOf(bids, w.ledger, user)) <==>
            forall i: BidId :: !PaidByHold(bids, w.ledger, user, i))
  {
    ReachableInv(s);
    SumActiveIs(s.db.market.bids, s.db.wallet, user);
  }

  /** At most one release, in any reachable state, and at most one hold: holds come in the order of the bids;
      a release gives the bid's own price back to its own user, only after disqualification, and never for a
      bid that was converted into a payment. */
  lemma ReleasedOnce(s: Sys, b: BidId)
    requires Reachable(s) && b < |s.db.market.bids|
    ensures var bids, ledger := s.db.market.bids, s.db.wallet.ledger;
      && Ascending(HoldRefs(ledger)) && Releases(ledger, b) <= 1
      && (b in HoldRefs(ledger) ==>
            exists k :: 0 <= k < |ledger| && ledger[k] == Entry(bids[b].userId, -bids[b].bidPrice, BID_HOLD, b))
      && (Releases(ledger, b) == 1 ==>
            && bids[b].disqualifiedAt.Some? && !bids[b].converted
            && exists k :: 0 <= k < |ledger| && ledger[k] == Entry(bids[b].userId, bids[b].bidPrice, BID_RELEASE, b))
  {
    ReachableInv(s);
    var bids, ledger := s.db.market.bids, s.db.wallet.ledger;
    if b in HoldRefs(ledger) {
      HeldHasEntry(ledger, b);
      var k :| 0 <= k < |ledger| && ledger[k].kind == BID_HOLD && ledger[k].refId == b;
      assert EntryOk(bids, ledger[k]);
      assert ledger[k] == Entry(bids[b].userId, -bids[b].bidPrice, BID_HOLD, b);
    }
    if Releases(ledger, b) == 1 {
      ReleasedHasEntry(ledger, b);
      var k :| 0 <= k < |ledger| && ledger[k].kind == BID_RELEASE && ledger[k].refId == b;
      assert EntryOk(bids, ledger[k]);
      assert ledger[k] == Entry(bids[b].userId, bids[b].bidPrice, BID_RELEASE, b);
    }
  }

  /** No run ever releases a bid that paid for an order. */
  lemma ConvertedNeverReleased(s: Sys, acts: seq<Action>, b: BidId)
    requires Inv(s) && b < |s.db.market.bids| && s.db.market.bids[b].converted
    ensures Releases(Exec(s, acts).db.wallet.ledger, b) == 0
  {
    RunInv(s, acts);
    var s' := Exec(s, acts);
    LiveUnreleased(s'.db.market.bids, s'.db.wallet, b);
  }

  /** Order and auction, in any reachable state. */
  lemma OrderAuctionCoupling(s: Sys, aid: AuctionId)
    requires Reachable(s) && aid in s.db.market.auctions
    ensures var m := s.db.market; var row := m.auctions[aid];
      && (row.status == OPEN ==> ActiveOrders(m, aid) == {} && row.winnerUserId.None?)
      && (row.status == CLOSED && row.winnerUserId.None? ==> ActiveOrders(m, aid) == {})
      && (row.status == CLOSED && row.winnerUserId.Some? ==>
            exists o :: o in m.orders && ActiveOrders(m, aid) == {o} && Some(m.orders[o].buyerUserId) == row.winnerUserId)
  {
    ReachableInv(s);
    assert AuctionInv(s.db.market, |s.db.wallet.balance|, aid);
  }

  /** Once an order is paid its auction never reopens, whatever runs after it. */
  lemma PaidNeverReopens(s: Sys, acts: seq<Action>, o: OrderId)
    requires Inv(s)
    requires o in s.db.market.orders && s.db.market.orders[o].status == PAID
    ensures var m, m' := s.db.market, Exec(s, acts).db.market; var aid := m.orders[o].auctionId;
      && o in m'.orders && m'.orders[o].status == PAID
      && aid in m'.auctions && m'.auctions[aid].status == CLOSED && ActiveOrders(m', aid) == {o}
  {
    RunInv(s, acts);
    var m, m' := s.db.market, Exec(s, acts).db.market;
    var aid := m.orders[o].auctionId;
    assert Stands(m, m', o);
    assert AuctionInv(m', |s.db.wallet.balance|, aid);
    assert o in ActiveOrders(m', aid);
  }

  /** The winner decision that `payOrder` takes before its transaction is the one it would take inside,
      whenever the transaction's claim on the pending order succeeds. */
  lemma DecisionMatchesClaim(s: Sys, o: OrderRef, winner: bool)
    requires Reachable(s) && Decided(o, winner) in s.tasks && Pending(s.db.market, o.id)
    ensures winner == IsAuctionWinner(s.db.market.bids, o)
  {
    ReachableInv(s);
    assert TaskOk(s.db.market, Decided(o, winner));
  }

  /** The retry job never drops a payload: whatever a reachable row holds is a close result of that auction as
      the service printed it, and it parses. */
  lemma PayloadNeverDropped(s: Sys, aid: AuctionId)
    requires Reachable(s) && aid in s.db.market.auctions
    ensures var p := s.db.market.auctions[aid].postCloseFinalizePayload;
      p.Some? ==> exists r :: Payload.ParseSpec(aid, p.value) == Some(r) && Payload.ToDbPayload(r) == p.value
    ensures Apply(s, Retry(aid)).db == s.db
  {
    ReachableInv(s);
    RetryGood(s, Retry(aid));
    assert PayloadOk(s.db.market, aid);
  }

  /** What a paid order leaves withheld stays withheld: its live bids are never released in any later run. */
  lemma PaidStrandsLiveBids(s: Sys, acts: seq<Action>, o: OrderId, b: BidId)
    requires Inv(s)
    requires o in s.db.market.orders && s.db.market.orders[o].status == PAID
    requires Live(s.db.market.bids, s.db.market.orders[o].auctionId, b)
    ensures var s' := Exec(s, acts);
      Live(s'.db.market.bids, s.db.market.orders[o].auctionId, b) && Releases(s'.db.wallet.ledger, b) == 0
  {
    RunInv(s, acts);
    var s' := Exec(s, acts);
    assert Stands(s.db.market, s'.db.market, o);
    LiveUnreleased(s'.db.market.bids, s'.db.wallet, b);
  }
}
