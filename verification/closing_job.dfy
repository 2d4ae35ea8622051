/** What the closing job gets done: where it throws, and what it never closes. */
module ClosingJob {
  import opened Schema
  import opened WalletMoves
  import opened Transactions
  import opened MarketInvariant
  import opened DatabaseInvariant
  import opened Service
  import opened Runs
  import opened Locality
  import opened Bidding
  import opened Stuck
  import opened Outcomes
  import opened Jobs
  import Payload

  // ---------------------------------------------------------------- one job

  /** Open, and its end time reached. */
  predicate Expired(m: Market, aid: AuctionId, now: Millis) {
    aid in m.auctions && m.auctions[aid].status == OPEN && m.auctions[aid].endTime <= now
  }

  /** Expired open auctions, each once. */
  predicate ExpiredIds(m: Market, ids: seq<AuctionId>, now: Millis) {
    && (forall k :: 0 <= k < |ids| ==> Expired(m, ids[k], now))
    && (forall j, k :: 0 <= j < k < |ids| ==> ids[j] != ids[k])
  }

  /** No close of the auction commits. */
  ghost predicate Blocked(m: Market, aid: AuctionId) { IsStuck(m, aid) || Jammed(m, aid) }

  lemma UntouchedStuck(m: Market, m': Market, aid: AuctionId)
    requires Untouched(m, m', aid) && m'.uniqueOrder == m.uniqueOrder
    ensures IsStuck(m', aid) <==> IsStuck(m, aid)
  {
    UntouchedViews(m, m', aid);
    if HadOrder(m, aid) {
      var o :| o in m.orders && m.orders[o].auctionId == aid;
      assert o in m'.orders && m'.orders[o].auctionId == aid;
    }
    if HadOrder(m', aid) {
      var o :| o in m'.orders && m'.orders[o].auctionId == aid;
      assert o in m.orders && m.orders[o].auctionId == aid;
    }
  }

  lemma UntouchedJammed(m: Market, m': Market, aid: AuctionId)
    requires Untouched(m, m', aid)
    ensures Jammed(m', aid) <==> Jammed(m, aid)
  {
    forall i: BidId ensures Live(m'.bids, aid, i) <==> Live(m.bids, aid, i) {
    }
  }

  /** One round on `t` leaves another auction alone. */
  lemma OneRound(db: Db, t: AuctionId, now: Millis, aid: AuctionId)
    requires DbInv(db) && aid in db.market.auctions && aid != t
    ensures var m' := ExecuteClose(db, t, OpenUntil(now), now).db.market;
      Untouched(db.market, m', aid) && m'.uniqueOrder == db.market.uniqueOrder
  {
    hide AuctionInv, CloseResultOf, ClosedMarket;
    Itself(db.market, aid);
    if Locks(db.market, t, OpenUntil(now)) && ExecuteClose(db, t, OpenUntil(now), now).result.Ok? {
      CloseElsewhere(db.market, |db.wallet.balance|, t, now);
      CloseOrders(db.market, t, now);
    }
  }

  /** Finalizing, successful or not, works on the wallet and on payloads only. */
  lemma FinalizingIsLocal(db: Db, r: CloseResult, fault: Fault, persistFails: bool, aid: AuctionId)
    requires DbInv(db) && ResultOk(db.market, r) && aid in db.market.auctions
    ensures var db' := SafelyFinalized(db, r, fault, persistFails);
      DbInv(db') && Untouched(db.market, db'.market, aid) && db'.market.uniqueOrder == db.market.uniqueOrder
  {
    Itself(db.market, aid);
    PayloadLocal(db.market, r.auctionId, None, aid);
    PayloadLocal(db.market, r.auctionId, Some(Payload.ToDbPayload(r)), aid);
    if FinalizeFails(r, fault) {
      PayloadKeepsDb(db, r.auctionId, Some(Payload.ToDbPayload(r)));
    } else {
      ReleaseKeepsDb(db, r);
      PayloadKeepsDb(ReleaseLosers(db, r), r.auctionId, None);
    }
  }

  lemma RoundKeepsDb(db: Db, t: AuctionId, now: Millis, f: RoundFault, db': Db)
    requires DbInv(db) && Round(db, t, now, f, db')
    ensures DbInv(db') && db'.market.uniqueOrder == db.market.uniqueOrder
  {
    hide DbInv, SafelyFinalized, ResultOk, ClosedMarket, CloseResultOf, RowOk, OrderInsertOk;
    var tx := ExecuteClose(db, t, OpenUntil(now), now);
    CloseKeepsDb(db, t, OpenUntil(now), now);
    if tx.result.value.Some? {
      CloseResultIsOk(db.market, t, now);
      CloseOrders(db.market, t, now);
      FinalizingIsLocal(tx.db, tx.result.value.value, f.0, f.1, t);
    }
  }

  /** A round leaves another auction as it was. */
  lemma NextRound(m0: Market, db: Db, t: AuctionId, now: Millis, f: RoundFault, aid: AuctionId, db': Db)
    requires DbInv(db) && t != aid && Untouched(m0, db.market, aid) && Round(db, t, now, f, db')
    ensures Untouched(m0, db'.market, aid)
  {
    hide DbInv, SafelyFinalized, ResultOk, ClosedMarket, CloseResultOf, RowOk, OrderInsertOk;
    var tx := ExecuteClose(db, t, OpenUntil(now), now);
    CloseKeepsDb(db, t, OpenUntil(now), now);
    OneRound(db, t, now, aid);
    UntouchedTransitive(m0, db.market, tx.db.market, aid);
    if tx.result.value.Some? {
      CloseResultIsOk(db.market, t, now);
      FinalizingIsLocal(tx.db, tx.result.value.value, f.0, f.1, aid);
      UntouchedTransitive(m0, tx.db.market, db'.market, aid);
    }
  }

  /** After any number of rounds, an auction whose turn did not come is as the job found it. */
  lemma {:induction false} RoundsLeave(dbs: seq<Db>, ids: seq<AuctionId>, now: Millis, faults: seq<RoundFault>,
                                       aid: AuctionId)
    requires Rounds(dbs, ids, now, faults) && DbInv(dbs[0]) && aid in dbs[0].market.auctions && aid !in ids[..|dbs| - 1]
    ensures Untouched(dbs[0].market, dbs[|dbs| - 1].market, aid)
    ensures DbInv(dbs[|dbs| - 1]) && dbs[|dbs| - 1].market.uniqueOrder == dbs[0].market.uniqueOrder
  {
    hide Round, DbInv, Untouched;
    var n := |dbs| - 1;
    if n == 0 {
      Itself(dbs[0].market, aid);
    } else {
      assert ids[..n] == ids[..n - 1] + [ids[n - 1]];
      RoundsLeave(dbs[..n], ids, now, faults, aid);
      RoundKeepsDb(dbs[n - 1], ids[n - 1], now, faults[n - 1], dbs[n]);
      NextRound(dbs[0].market, dbs[n - 1], ids[n - 1], now, faults[n - 1], aid, dbs[n]);
    }
  }

  /** The round on `t` throws exactly when `t` was stuck or jammed in `m0`. */
  ghost predicate ThrowsIfBlocked(m0: Market, db: Db, t: AuctionId, now: Millis) {
    Throws(db, t, now) <==> Blocked(m0, t)
  }

  lemma ThrowsIff(m0: Market, db: Db, t: AuctionId, now: Millis)
    requires DbInv(db) && db.market.uniqueOrder == m0.uniqueOrder && Untouched(m0, db.market, t)
    requires Locks(m0, t, OpenUntil(now))
    ensures ThrowsIfBlocked(m0, db, t, now)
  {
    hide IsStuck, Jammed, DbInv;
    CloseFailsIff(db, t, OpenUntil(now), now);
    UntouchedStuck(m0, db.market, t);
    UntouchedJammed(m0, db.market, t);
  }

  /** The job that got to an auction throws there exactly when that auction was stuck or jammed to begin with. */
  lemma BatchThrowsIff(dbs: seq<Db>, ids: seq<AuctionId>, now: Millis, faults: seq<RoundFault>)
    requires Rounds(dbs, ids, now, faults) && DbInv(dbs[0]) && ExpiredIds(dbs[0].market, ids, now) && |dbs| <= |ids|
    ensures ThrowsIfBlocked(dbs[0].market, dbs[|dbs| - 1], ids[|dbs| - 1], now)
  {
    hide Round, DbInv, Untouched, ThrowsIfBlocked;
    var n := |dbs| - 1;
    RoundsLeave(dbs, ids, now, faults, ids[n]);
    ThrowsIff(dbs[0].market, dbs[n], ids[n], now);
  }

  lemma RoundDoesNotThrow(db: Db, t: AuctionId, now: Millis, f: RoundFault, db': Db)
    requires Round(db, t, now, f, db')
    ensures !Throws(db, t, now)
  {
  }

  lemma LastRound(dbs: seq<Db>, ids: seq<AuctionId>, now: Millis, faults: seq<RoundFault>)
    requires Rounds(dbs, ids, now, faults) && |dbs| >= 2
    ensures var n := |dbs| - 2;
      Rounds(dbs[..n + 1], ids, now, faults) && Round(dbs[n], ids[n], now, faults[n], dbs[n + 1])
  {
    hide Round;
  }

  lemma PastBlocked(dbs: seq<Db>, ids: seq<AuctionId>, now: Millis, faults: seq<RoundFault>)
    requires Rounds(dbs, ids, now, faults) && DbInv(dbs[0]) && ExpiredIds(dbs[0].market, ids, now) && |dbs| >= 2
    ensures !Blocked(dbs[0].market, ids[|dbs| - 2])
  {
    hide Round, Throws, Blocked, DbInv, ExpiredIds;
    var n := |dbs| - 2;
    LastRound(dbs, ids, now, faults);
    BatchThrowsIff(dbs[..n + 1], ids, now, faults);
    RoundDoesNotThrow(dbs[n], ids[n], now, faults[n], dbs[n + 1]);
  }

  /** So the job never gets past a stuck or jammed auction: what it has not closed before stays open. */
  lemma NothingBehindBlocked(dbs: seq<Db>, ids: seq<AuctionId>, now: Millis, faults: seq<RoundFault>, k: nat)
    requires Rounds(dbs, ids, now, faults) && DbInv(dbs[0]) && ExpiredIds(dbs[0].market, ids, now)
    requires k < |ids| && Blocked(dbs[0].market, ids[k])
    ensures |dbs| <= k + 1
    ensures forall x :: x in dbs[0].market.auctions && x !in ids[..k] ==>
      Untouched(dbs[0].market, dbs[|dbs| - 1].market, x)
  {
    hide Round, Blocked, DbInv, ExpiredIds, Untouched;
    if |dbs| > k + 1 {
      RoundsPrefix(dbs, ids, now, faults, k + 2);
      PastBlocked(dbs[..k + 2], ids, now, faults);
    }
    forall x | x in dbs[0].market.auctions && x !in ids[..k]
      ensures Untouched(dbs[0].market, dbs[|dbs| - 1].market, x)
    {
      assert ids[..|dbs| - 1] <= ids[..k];
      RoundsLeave(dbs, ids, now, faults, x);
    }
  }

  // ---------------------------------------------------------------- job after job

  /** What `findExpiredForClose` answers: expired open auctions, earliest end first, `limit` at most; one that
      is left out ends no earlier than those that are not, and none is left out below the limit. */
  predicate ExpiredAnswer(m: Market, ids: seq<AuctionId>, now: Millis, limit: nat) {
    && ExpiredIds(m, ids, now) && |ids| <= limit
    && (forall j, k :: 0 <= j < k < |ids| ==> m.auctions[ids[j]].endTime <= m.auctions[ids[k]].endTime)
    && (forall a :: a in m.auctions && Expired(m, a, now) && a !in ids ==>
          |ids| == limit && forall k :: 0 <= k < |ids| ==> m.auctions[ids[k]].endTime <= m.auctions[a].endTime)
  }

  /** One job: while a stuck or jammed auction is expired, no auction that ends later is closed, whether the
      query lists the blocked one or its limit cuts it off. */
  lemma JobStopsAtBlocked(dbs: seq<Db>, ids: seq<AuctionId>, now: Millis, faults: seq<RoundFault>, limit: nat,
                          aid: AuctionId, x: AuctionId)
    requires Rounds(dbs, ids, now, faults) && DbInv(dbs[0]) && ExpiredAnswer(dbs[0].market, ids, now, limit)
    requires Expired(dbs[0].market, aid, now) && Blocked(dbs[0].market, aid)
    requires x in dbs[0].market.auctions && dbs[0].market.auctions[aid].endTime < dbs[0].market.auctions[x].endTime
    ensures Untouched(dbs[0].market, dbs[|dbs| - 1].market, x)
  {
    hide Round, Blocked, DbInv, Untouched, LockGuard;
    var m := dbs[0].market;
    if aid in ids {
      var k :| 0 <= k < |ids| && ids[k] == aid;
      NothingBehindBlocked(dbs, ids, now, faults, k);
      assert x !in ids[..k];
    } else {
      assert x !in ids;
      RoundsLeave(dbs, ids, now, faults, x);
    }
  }

  /** The time an action reads from the clock, if it reads one. */
  function TimeOf(a: Action): Option<Millis> {
    match a
    case PlaceBidBy(_, _, _, now) => Some(now)
    case BotBidBy(_, _, _, now) => Some(now)
    case TimedClose(_, now) => Some(now)
    case AdminClose(_, now) => Some(now)
    case Buy(_, _, _, now) => Some(now)
    case Create(_, _, now) => Some(now)
    case Edit(_, _, now) => Some(now)
    case Commit(_, now) => Some(now)
    case Reopen(_, now) => Some(now)
    case _ => None
  }

  /** Clocks that have passed `t` and do not run backwards. */
  predicate After(acts: seq<Action>, t: Millis) {
    forall k :: 0 <= k < |acts| && TimeOf(acts[k]).Some? ==> t <= TimeOf(acts[k]).value
  }

  lemma EndStandsHere(s: Sys, a: Action, aid: AuctionId)
    requires Inv(s) && IsStuck(s.db.market, aid) && Plain(a) && Target(a) == Some(aid)
    requires TimeOf(a).Some? ==> s.db.market.auctions[aid].endTime <= TimeOf(a).value
    requires aid in Apply(s, a).db.market.auctions
    ensures Apply(s, a).db.market.auctions[aid].endTime == s.db.market.auctions[aid].endTime
  {
    hide Inv, HasBids, RowOk, HoldForBid, LiveBids;
    if a.Buy? {
      BuyFailsAfterOrder(s.db, aid, a.user, a.price, a.now);
    }
  }

  lemma EndStandsStep(s: Sys, a: Action, aid: AuctionId)
    requires Inv(s) && IsStuck(s.db.market, aid)
    requires TimeOf(a).Some? ==> s.db.market.auctions[aid].endTime <= TimeOf(a).value
    ensures IsStuck(Apply(s, a).db.market, aid)
    ensures Apply(s, a).db.market.auctions[aid].endTime == s.db.market.auctions[aid].endTime
  {
    hide Work, CloseBy, LiveBids;
    StuckStep(s, a, aid);
    if Target(a) != Some(aid) {
      ActionLocal(s, a, aid);
    } else if Plain(a) {
      EndStandsHere(s, a, aid);
    } else if OnTask(a) {
      if a.task in s.tasks {
        OpenIsUnsellable(s.db.market, |s.db.wallet.balance|, aid);
        UnsellableWork(s, a, aid);
      }
    } else {
      CloseClock(s, aid, if a.TimedClose? then OpenUntil(a.now) else OpenAny(), a.now, aid);
    }
  }

  /** Once the clocks have passed its end, a stuck auction keeps that end in every run: nobody can bid on it,
      edit it or reopen it any more. */
  lemma {:induction false} EndStands(s: Sys, acts: seq<Action>, aid: AuctionId)
    requires Inv(s) && IsStuck(s.db.market, aid) && After(acts, s.db.market.auctions[aid].endTime)
    ensures IsStuck(Exec(s, acts).db.market, aid)
    ensures Exec(s, acts).db.market.auctions[aid].endTime == s.db.market.auctions[aid].endTime
  {
    hide Apply, Inv, IsStuck;
    if acts == [] {
    } else {
      var n := |acts| - 1;
      EndStands(s, acts[..n], aid);
      InvBefore(s, acts);
      EndStandsStep(Exec(s, acts[..n]), acts[n], aid);
    }
  }

  /** The rows the retry query read. */
  predicate RowsRead(m: Market, rows: seq<(AuctionId, Json)>) {
    forall k :: 0 <= k < |rows| ==>
      rows[k].0 in m.auctions && m.auctions[rows[k].0].postCloseFinalizePayload == Some(rows[k].1)
  }

  lemma RetryIsLocal(db: Db, r: CloseResult, fault: Fault, aid: AuctionId)
    requires DbInv(db) && ResultOk(db.market, r) && aid in db.market.auctions
    ensures var db' := Finalized(db, r, fault);
      && DbInv(db') && Untouched(db.market, db'.market, aid) && db'.market.bids == db.market.bids
      && db'.market.uniqueOrder == db.market.uniqueOrder
  {
    Itself(db.market, aid);
    PayloadLocal(db.market, r.auctionId, None, aid);
    if !FinalizeFails(r, fault) {
      ReleaseKeepsDb(db, r);
      PayloadKeepsDb(ReleaseLosers(db, r), r.auctionId, None);
    }
  }

  /** The retry pass works on the wallet and on payloads only. */
  lemma {:induction false} RetryPassLeaves(s: Sys, rows: seq<(AuctionId, Json)>, faults: seq<Fault>, n: nat,
                                           aid: AuctionId)
    requires Inv(s) && RowsRead(s.db.market, rows) && n <= |rows| == |faults| && aid in s.db.market.auctions
    ensures var db' := RetriedUpTo(s.db, rows, faults, n);
      && DbInv(db') && Untouched(s.db.market, db'.market, aid) && db'.market.bids == s.db.market.bids
      && db'.market.uniqueOrder == s.db.market.uniqueOrder
  {
    hide DbInv, Finalized;
    if n == 0 {
      Itself(s.db.market, aid);
    } else {
      RetryPassLeaves(s, rows, faults, n - 1, aid);
      var db := RetriedUpTo(s.db, rows, faults, n - 1);
      assert PayloadOk(s.db.market, rows[n - 1].0);
      var r := Payload.ParseSpec(rows[n - 1].0, rows[n - 1].1).value;
      assert ResultOk(db.market, r);
      RetryIsLocal(db, r, faults[n - 1], aid);
      UntouchedTransitive(s.db.market, db.market, Finalized(db, r, faults[n - 1]).market, aid);
    }
  }

  /** Job after job: from a stuck auction's end on, whatever ran before, no closing job (retry pass first, then
      the rounds over the answer of its query) ever closes an auction that ends later. */
  lemma JobsNeverPassStuck(s: Sys, acts: seq<Action>, aid: AuctionId, rows: seq<(AuctionId, Json)>,
                           retryFaults: seq<Fault>, dbs: seq<Db>, ids: seq<AuctionId>, now: Millis,
                           faults: seq<RoundFault>, limit: nat, x: AuctionId)
    requires Inv(s) && IsStuck(s.db.market, aid) && After(acts, s.db.market.auctions[aid].endTime)
    requires s.db.market.auctions[aid].endTime <= now
    requires RowsRead(Exec(s, acts).db.market, rows) && |rows| == |retryFaults|
    requires Rounds(dbs, ids, now, faults) && dbs[0] == RetriedUpTo(Exec(s, acts).db, rows, retryFaults, |rows|)
    requires ExpiredAnswer(dbs[0].market, ids, now, limit)
    requires IsOpen(dbs[0].market, x) && s.db.market.auctions[aid].endTime < dbs[0].market.auctions[x].endTime
    ensures IsOpen(dbs[|dbs| - 1].market, x)
  {
    hide Round, IsStuck, ExpiredAnswer, Exec, DbInv, RetriedUpTo, RowsRead;
    var s1 := Exec(s, acts);
    EndStands(s, acts, aid);
    RunInv(s, acts);
    StuckIsOpen(s1.db.market, aid);
    RetryPassLeaves(s1, rows, retryFaults, |rows|, aid);
    UntouchedStuck(s1.db.market, dbs[0].market, aid);
    assert Expired(dbs[0].market, aid, now) by { StuckIsOpen(dbs[0].market, aid); }
    JobStopsAtBlocked(dbs, ids, now, faults, limit, aid, x);
  }

  lemma StuckIsOpen(m: Market, aid: AuctionId)
    requires IsStuck(m, aid)
    ensures IsOpen(m, aid)
  {
  }
}
