/** What finalize, its retry and the closing job leave of a close result, fault by fault: every loser released, or
    the result in the row for the next retry, or nothing at all. */
module JobAccounts {
  import opened Schema
  import opened WalletMoves
  import opened Transactions
  import opened MarketInvariant
  import opened DatabaseInvariant
  import opened Service
  import opened Finalize
  import opened Outcomes
  import opened Jobs
  import opened ClosingJob
  import Payload

  // ---------------------------------------------------------------- one finalize

  /** Finalize throws: before it released anybody, or in its release transaction. */
  predicate ThrowsUnder(r: CloseResult, fault: Fault) {
    fault.HistoryFails? || (fault.ReleaseFails? && r.losingBids != [])
  }

  /** The `k`-th loser of a list is due: not released before, and not listed twice. */
  predicate Due(ledger: seq<Entry>, ls: seq<LosingBid>, k: nat)
    requires k < |ls|
  {
    Releases(ledger, ls[k].id) == 0 && forall j :: 0 <= j < k ==> ls[j].id != ls[k].id
  }

  /** What a user gets back from releasing a list. */
  function Refund(ledger: seq<Entry>, ls: seq<LosingBid>, user: UserId): int {
    if ls == [] then 0
    else
      var n := |ls| - 1;
      Refund(ledger, ls[..n], user) + if Due(ledger, ls, n) && ls[n].userId == user then ls[n].bidPrice else 0
  }

  /** Every loser has one release, each user the own prices that were due, and nobody else's count changes. */
  ghost predicate ReleasesLosers(db: Db, db': Db, r: CloseResult) {
    && |db'.wallet.balance| == |db.wallet.balance|
    && (forall u: UserId :: u < |db.wallet.balance| ==>
          db'.wallet.balance[u] == db.wallet.balance[u] + Refund(db.wallet.ledger, r.losingBids, u))
    && (forall k :: 0 <= k < |r.losingBids| ==> Releases(db'.wallet.ledger, r.losingBids[k].id) == 1)
    && forall i: BidId :: (forall k :: 0 <= k < |r.losingBids| ==> r.losingBids[k].id != i) ==>
         Releases(db'.wallet.ledger, i) == Releases(db.wallet.ledger, i)
  }

  /** The payload column of the auction, if its row is there, and nothing else of the tables. */
  predicate PayloadSet(m: Market, m': Market, aid: AuctionId, payload: Option<Json>) {
    if aid in m.auctions then RowSet(m, m', aid, m.auctions[aid].(postCloseFinalizePayload := payload)) else m' == m
  }

  /** The row keeps the result, for the retry job to read. */
  predicate Stores(m: Market, m': Market, r: CloseResult) {
    if r.auctionId in m.auctions then
      && r.auctionId in m'.auctions && m'.auctions[r.auctionId].postCloseFinalizePayload.Some?
      && var p := m'.auctions[r.auctionId].postCloseFinalizePayload;
         PayloadSet(m, m', r.auctionId, p) && Payload.ParseSpec(r.auctionId, p.value) == Some(r)
    else m' == m
  }

  lemma {:induction false} ListedIsReleased(w: Wallet, ls: seq<LosingBid>, k: nat)
    requires k < |ls|
    ensures Releases(ReleaseAll(w, ls).ledger, ls[k].id) > 0
  {
    hide Releases;
    var n := |ls| - 1;
    var w1, l := ReleaseAll(w, ls[..n]), ls[n];
    LedgerAppend(w1.ledger, Entry(l.userId, l.bidPrice, BID_RELEASE, l.id), ls[k].id, 0);
    if k < n {
      ListedIsReleased(w, ls[..n], k);
    }
  }

  lemma DueIff(w: Wallet, ls: seq<LosingBid>, n: nat)
    requires n < |ls|
    ensures Due(w.ledger, ls, n) <==> Releases(ReleaseAll(w, ls[..n]).ledger, ls[n].id) == 0
  {
    hide Releases, ReleaseAll;
    if forall j :: 0 <= j < n ==> ls[j].id != ls[n].id {
      ReleaseAllElsewhere(w, ls[..n], ls[n].id);
    } else {
      var j :| 0 <= j < n && ls[j].id == ls[n].id;
      ListedIsReleased(w, ls[..n], j);
    }
  }

  lemma {:induction false} ReleaseAllPays(w: Wallet, ls: seq<LosingBid>, user: UserId)
    requires user < |w.balance|
    ensures |ReleaseAll(w, ls).balance| == |w.balance|
    ensures ReleaseAll(w, ls).balance[user] == w.balance[user] + Refund(w.ledger, ls, user)
  {
    hide Releases, Due;
    if ls == [] {
    } else {
      var n := |ls| - 1;
      ReleaseAllPays(w, ls[..n], user);
      DueIff(w, ls, n);
    }
  }

  lemma ReleasingIs(db: Db, r: CloseResult)
    requires DbInv(db) && ResultOk(db.market, r)
    ensures ReleasesLosers(db, ReleaseLosers(db, r), r) && ReleaseLosers(db, r).market == db.market
  {
    hide WalletInv, MarketInv, Wealth, Unexplained;
    assert WalletInv(db.market.bids, db.wallet);
    ReleaseAllKeeps(db.market.bids, db.wallet, r.losingBids);
    forall u: UserId | u < |db.wallet.balance|
      ensures ReleaseAll(db.wallet, r.losingBids).balance[u] ==
        db.wallet.balance[u] + Refund(db.wallet.ledger, r.losingBids, u)
    {
      ReleaseAllPays(db.wallet, r.losingBids, u);
    }
  }

  /** `finalizeAuctionClose`: it throws and leaves everything, or releases every loser once; then the payload is
      cleared unless that fails. */
  lemma FinalizeOutcome(db: Db, r: CloseResult, fault: Fault)
    requires DbInv(db) && ResultOk(db.market, r)
    ensures FinalizeFails(r, fault) <==> ThrowsUnder(r, fault)
    ensures var db' := Finalized(db, r, fault);
      if ThrowsUnder(r, fault) then db' == db
      else
        && ReleasesLosers(db, db', r)
        && if fault.ClearFails? then db'.market == db.market else PayloadSet(db.market, db'.market, r.auctionId, None)
  {
    hide ReleaseLosers, Releases;
    ReleasingIs(db, r);
  }

  /** `safeFinalizeAuctionClose`, fault by fault: if finalize throws, the row keeps the result, unless that fails too
      and nothing is done at all. */
  lemma SafeFinalizeOutcome(db: Db, r: CloseResult, fault: Fault, persistFails: bool)
    requires DbInv(db) && ResultOk(db.market, r)
    ensures var db' := SafelyFinalized(db, r, fault, persistFails);
      if ThrowsUnder(r, fault) then
        if persistFails then db' == db else db'.wallet == db.wallet && Stores(db.market, db'.market, r)
      else
        && ReleasesLosers(db, db', r)
        && if fault.ClearFails? then db'.market == db.market else PayloadSet(db.market, db'.market, r.auctionId, None)
  {
    hide Finalized, FinalizeFails, ReleasesLosers, Payload.ParseSpec, Payload.ToDbPayload;
    FinalizeOutcome(db, r, fault);
    Payload.RoundTrip(r);
  }

  // ---------------------------------------------------------------- accounted for

  predicate Released(db: Db, r: CloseResult) {
    forall k :: 0 <= k < |r.losingBids| ==> Releases(db.wallet.ledger, r.losingBids[k].id) > 0
  }

  predicate Stored(m: Market, r: CloseResult) {
    && r.auctionId in m.auctions && m.auctions[r.auctionId].postCloseFinalizePayload.Some?
    && Payload.ParseSpec(r.auctionId, m.auctions[r.auctionId].postCloseFinalizePayload.value) == Some(r)
  }

  /** The losers have their money back, or the next retry finds them. */
  predicate Safe(db: Db, r: CloseResult) { Released(db, r) || Stored(db.market, r) }

  /** Finalize threw and so did the persist: the only way to lose a result here. */
  predicate Dropped(r: CloseResult, f: RoundFault) { ThrowsUnder(r, f.0) && f.1 }

  lemma SafeAfter(db: Db, r: CloseResult, f: RoundFault)
    requires DbInv(db) && ResultOk(db.market, r) && r.auctionId in db.market.auctions
    ensures Dropped(r, f) || Safe(SafelyFinalized(db, r, f.0, f.1), r)
    ensures Dropped(r, f) ==> SafelyFinalized(db, r, f.0, f.1) == db
  {
    hide DbInv, SafelyFinalized, ThrowsUnder, Payload.ParseSpec;
    SafeFinalizeOutcome(db, r, f.0, f.1);
  }

  /** The ledger grows, and the auction's payload stands. */
  predicate Preserves(db: Db, db': Db, aid: AuctionId) {
    && db.wallet.ledger <= db'.wallet.ledger
    && (aid in db.market.auctions ==>
          aid in db'.market.auctions && db'.market.auctions[aid].postCloseFinalizePayload ==
                                        db.market.auctions[aid].postCloseFinalizePayload)
  }

  lemma SafeStays(db: Db, db': Db, r: CloseResult)
    requires Preserves(db, db', r.auctionId) && Safe(db, r)
    ensures Safe(db', r)
  {
    hide Releases, Payload.ParseSpec;
    if Released(db, r) {
      forall k | 0 <= k < |r.losingBids| ensures Releases(db'.wallet.ledger, r.losingBids[k].id) > 0 {
        ReleasesMonotone(db.wallet.ledger, db'.wallet.ledger, r.losingBids[k].id);
      }
    }
  }

  lemma ReleasedStays(db: Db, db': Db, r: CloseResult)
    requires db.wallet.ledger <= db'.wallet.ledger && Released(db, r)
    ensures Released(db', r)
  {
    hide Releases;
    forall k | 0 <= k < |r.losingBids| ensures Releases(db'.wallet.ledger, r.losingBids[k].id) > 0 {
      ReleasesMonotone(db.wallet.ledger, db'.wallet.ledger, r.losingBids[k].id);
    }
  }

  lemma PreservesTransitive(d1: Db, d2: Db, d3: Db, aid: AuctionId)
    requires Preserves(d1, d2, aid) && Preserves(d2, d3, aid)
    ensures Preserves(d1, d3, aid)
  {
  }

  lemma FinalizePreserves(db: Db, r: CloseResult, fault: Fault, persistFails: bool, aid: AuctionId)
    requires aid != r.auctionId
    ensures Preserves(db, Finalized(db, r, fault), aid)
    ensures Preserves(db, SafelyFinalized(db, r, fault, persistFails), aid)
  {
    hide Payload.ToDbPayload;
    ReleaseAllAppends(db.wallet, r.losingBids);
  }

  // ---------------------------------------------------------------- the closing job

  lemma ClosePreserves(db: Db, t: AuctionId, now: Millis, aid: AuctionId)
    requires aid != t
    ensures Preserves(db, ExecuteClose(db, t, OpenUntil(now), now).db, aid)
  {
    hide CloseResultOf, CloseRowOk, LockGuard;
    CloseOutcome(db, t, OpenUntil(now), now);
  }

  /** A round on another auction keeps the result safe. */
  lemma RoundPreserves(db: Db, t: AuctionId, now: Millis, f: RoundFault, db': Db, aid: AuctionId)
    requires Round(db, t, now, f, db') && aid != t
    ensures Preserves(db, db', aid)
  {
    hide ExecuteClose, SafelyFinalized, Names, ClosesAs, Preserves;
    var tx := ExecuteClose(db, t, OpenUntil(now), now);
    ClosePreserves(db, t, now, aid);
    CloseOutcome(db, t, OpenUntil(now), now);
    if tx.result.value.Some? {
      assert tx.result.value.value.auctionId == t by { ClosesItself(db, t, OpenUntil(now), now); }
      FinalizePreserves(tx.db, tx.result.value.value, f.0, f.1, aid);
      PreservesTransitive(db, tx.db, db', aid);
    }
  }

  lemma ClosesItself(db: Db, t: AuctionId, options: LockOptions, now: Millis)
    ensures var tx := ExecuteClose(db, t, options, now);
      tx.result.Ok? && tx.result.value.Some? ==>
        tx.result.value.value.auctionId == t && tx.result.value.value == CloseResultOf(db.market, t)
        && t in db.market.auctions && t in tx.db.market.auctions
  {
    hide CloseRowOk;
  }

  lemma ClosesTo(db: Db, t: AuctionId, options: LockOptions, now: Millis)
    ensures var tx := ExecuteClose(db, t, options, now);
      tx.result.Ok? && tx.result.value.Some? ==>
        t in db.market.auctions && tx.db.market == ClosedMarket(db.market, t, now)
  {
    hide CloseRowOk, CloseResultOf;
  }

  /** A close with the finalize after it, timed or by an administrator, leaves the losers safe, unless finalize and
      persist both failed. */
  lemma CloseAccounts(db: Db, t: AuctionId, options: LockOptions, now: Millis, f: RoundFault)
    requires DbInv(db) && options.statusOpen
    ensures var tx := ExecuteClose(db, t, options, now);
      tx.result.Ok? && tx.result.value.Some? ==> var r := tx.result.value.value;
        var db' := SafelyFinalized(tx.db, r, f.0, f.1);
        if Dropped(r, f) then db' == tx.db else Safe(db', r)
  {
    hide DbInv, SafelyFinalized, ResultOk, ClosedMarket, CloseResultOf, ExecuteClose, Dropped, Safe;
    var tx := ExecuteClose(db, t, options, now);
    if tx.result.Ok? && tx.result.value.Some? {
      CloseKeepsDb(db, t, options, now);
      ClosesItself(db, t, options, now);
      CloseResultIsOk(db.market, t, now);
      ClosesTo(db, t, options, now);
      SafeAfter(tx.db, tx.result.value.value, f);
    }
  }

  lemma RoundAccounts(db: Db, t: AuctionId, now: Millis, f: RoundFault, db': Db)
    requires DbInv(db) && Round(db, t, now, f, db')
    ensures var tx := ExecuteClose(db, t, OpenUntil(now), now);
      tx.result.value.Some? ==> var r := tx.result.value.value;
        if Dropped(r, f) then db' == tx.db else Safe(db', r)
  {
    hide DbInv, SafelyFinalized, ExecuteClose, Dropped, Safe;
    CloseAccounts(db, t, OpenUntil(now), now, f);
  }

  /** Rounds on other auctions keep a result safe. */
  lemma {:induction false} RoundsPreserve(dbs: seq<Db>, ids: seq<AuctionId>, now: Millis, faults: seq<RoundFault>,
                                          from: nat, aid: AuctionId)
    requires Rounds(dbs, ids, now, faults) && from < |dbs| && aid !in ids[from..|dbs| - 1]
    ensures Preserves(dbs[from], dbs[|dbs| - 1], aid)
  {
    hide Round;
    var n := |dbs| - 1;
    if from == n {
    } else {
      assert ids[from..n] == ids[from..n - 1] + [ids[n - 1]];
      RoundsPreserve(dbs[..n], ids, now, faults, from, aid);
      RoundPreserves(dbs[n - 1], ids[n - 1], now, faults[n - 1], dbs[n], aid);
    }
  }

  lemma {:induction false} RoundAt(dbs: seq<Db>, ids: seq<AuctionId>, now: Millis, faults: seq<RoundFault>, k: nat)
    requires Rounds(dbs, ids, now, faults) && k + 1 < |dbs| && DbInv(dbs[0])
    ensures DbInv(dbs[k]) && Round(dbs[k], ids[k], now, faults[k], dbs[k + 1])
  {
    hide Round, DbInv;
    if k + 2 == |dbs| {
      RoundsInv(dbs[..k + 1], ids, now, faults);
    } else {
      RoundAt(dbs[..|dbs| - 1], ids, now, faults, k);
    }
  }

  lemma {:induction false} RoundsInv(dbs: seq<Db>, ids: seq<AuctionId>, now: Millis, faults: seq<RoundFault>)
    requires Rounds(dbs, ids, now, faults) && DbInv(dbs[0])
    ensures DbInv(dbs[|dbs| - 1])
  {
    hide Round, DbInv;
    var n := |dbs| - 1;
    if n == 0 {
    } else {
      RoundsInv(dbs[..n], ids, now, faults);
      RoundKeepsDb(dbs[n - 1], ids[n - 1], now, faults[n - 1], dbs[n]);
    }
  }

  lemma RoundCommits(db: Db, t: AuctionId, now: Millis, f: RoundFault, db': Db)
    requires Round(db, t, now, f, db')
    ensures ExecuteClose(db, t, OpenUntil(now), now).result.Ok?
  {
  }

  lemma RoundsAreShort(dbs: seq<Db>, ids: seq<AuctionId>, now: Millis, faults: seq<RoundFault>)
    requires Rounds(dbs, ids, now, faults)
    ensures 1 <= |dbs| <= |ids| + 1 && |ids| == |faults|
  {
  }

  /** The closing job accounts for every loser of every auction it closed: at its end they have their money back or
      the row lists them, unless in that round finalize threw and the persist failed. */
  lemma JobAccountsForLosers(dbs: seq<Db>, ids: seq<AuctionId>, now: Millis, faults: seq<RoundFault>, k: nat)
    requires Rounds(dbs, ids, now, faults) && DbInv(dbs[0]) && k + 1 < |dbs|
    requires forall i, j :: 0 <= i < j < |ids| ==> ids[i] != ids[j]
    ensures var tx := ExecuteClose(dbs[k], ids[k], OpenUntil(now), now);
      && tx.result.Ok?
      && (tx.result.value.Some? ==>
            Dropped(tx.result.value.value, faults[k]) || Safe(dbs[|dbs| - 1], tx.result.value.value))
  {
    hide Round, DbInv, ExecuteClose, Rounds, Safe, Dropped, Preserves;
    RoundsAreShort(dbs, ids, now, faults);
    RoundAt(dbs, ids, now, faults, k);
    RoundCommits(dbs[k], ids[k], now, faults[k], dbs[k + 1]);
    RoundAccounts(dbs[k], ids[k], now, faults[k], dbs[k + 1]);
    var closed := ExecuteClose(dbs[k], ids[k], OpenUntil(now), now).result.value;
    if closed.Some? && !Dropped(closed.value, faults[k]) {
      ClosesItself(dbs[k], ids[k], OpenUntil(now), now);
      assert ids[k] !in ids[k + 1..|dbs| - 1];
      RoundsPreserve(dbs, ids, now, faults, k + 1, ids[k]);
      SafeStays(dbs[k + 1], dbs[|dbs| - 1], closed.value);
    }
  }

  // ---------------------------------------------------------------- the retry pass

  /** One auction once. */
  predicate DistinctRows(rows: seq<(AuctionId, Json)>) {
    forall j, k :: 0 <= j < k < |rows| ==> rows[j].0 != rows[k].0
  }

  /** The result a row lists, as the retry job reads it. */
  function ResultIn(row: (AuctionId, Json)): Option<CloseResult> { Payload.ParseSpec(row.0, row.1) }

  lemma ReadResult(s: Sys, rows: seq<(AuctionId, Json)>, k: nat)
    requires Inv(s) && RowsRead(s.db.market, rows) && k < |rows|
    ensures ResultIn(rows[k]).Some? && ResultOk(s.db.market, ResultIn(rows[k]).value)
    ensures ResultIn(rows[k]).value.auctionId == rows[k].0 && Stored(s.db.market, ResultIn(rows[k]).value)
  {
    hide Payload.WellFormed;
    assert PayloadOk(s.db.market, rows[k].0);
  }

  lemma {:induction false} RetriesPreserve(s: Sys, rows: seq<(AuctionId, Json)>, faults: seq<Fault>, from: nat, n: nat,
                                           aid: AuctionId)
    requires Inv(s) && RowsRead(s.db.market, rows) && from <= n <= |rows| == |faults|
    requires forall k :: from <= k < n ==> rows[k].0 != aid
    ensures Preserves(RetriedUpTo(s.db, rows, faults, from), RetriedUpTo(s.db, rows, faults, n), aid)
  {
    hide Inv, Finalized, Payload.ParseSpec, RowsRead;
    if n == from {
    } else {
      RetriesPreserve(s, rows, faults, from, n - 1, aid);
      ReadResult(s, rows, n - 1);
      FinalizePreserves(RetriedUpTo(s.db, rows, faults, n - 1), ResultIn(rows[n - 1]).value, faults[n - 1], false, aid);
    }
  }

  lemma {:induction false} RetriesGrowLedger(s: Sys, rows: seq<(AuctionId, Json)>, faults: seq<Fault>, from: nat, n: nat)
    requires from <= n <= |rows| == |faults|
    ensures RetriedUpTo(s.db, rows, faults, from).wallet.ledger <= RetriedUpTo(s.db, rows, faults, n).wallet.ledger
  {
    hide Payload.ParseSpec;
    if n == from {
    } else {
      RetriesGrowLedger(s, rows, faults, from, n - 1);
      var db := RetriedUpTo(s.db, rows, faults, n - 1);
      if ResultIn(rows[n - 1]).Some? {
        ReleaseAllAppends(db.wallet, ResultIn(rows[n - 1]).value.losingBids);
      }
    }
  }

  /** The retry pass over the rows its query read: a row whose finalize goes through has every loser released, and
      one whose finalize throws still holds its result, for the next pass. */
  lemma RetryAccountsForLosers(s: Sys, rows: seq<(AuctionId, Json)>, faults: seq<Fault>, k: nat)
    requires Inv(s) && RowsRead(s.db.market, rows) && DistinctRows(rows) && k < |rows| == |faults|
    ensures ResultIn(rows[k]).Some?
    ensures var db', r := RetriedUpTo(s.db, rows, faults, |rows|), ResultIn(rows[k]).value;
      if ThrowsUnder(r, faults[k]) then Stored(db'.market, r) else Released(db', r)
  {
    hide Inv, Finalized, Payload.ParseSpec, RowsRead, RetriedUpTo, Releases, DbInv, ResultOk;
    ReadResult(s, rows, k);
    var r := ResultIn(rows[k]).value;
    var db, db1 := RetriedUpTo(s.db, rows, faults, k), RetriedUpTo(s.db, rows, faults, k + 1);
    RetryPassLeaves(s, rows, faults, k, rows[k].0);
    assert ResultOk(db.market, r) by { ResultKept(s.db.market, db.market, r); }
    FinalizeOutcome(db, r, faults[k]);
    assert db1 == Finalized(db, r, faults[k]) by { RetriesNext(s.db, rows, faults, k); }
    RetriesPreserve(s, rows, faults, 0, k, rows[k].0);
    RetriesNone(s.db, rows, faults);
    if ThrowsUnder(r, faults[k]) {
      RetriesPreserve(s, rows, faults, k + 1, |rows|, rows[k].0);
    } else {
      RetriesGrowLedger(s, rows, faults, k + 1, |rows|);
      ReleasedStays(db1, RetriedUpTo(s.db, rows, faults, |rows|), r);
    }
  }

  lemma ResultKept(m: Market, m': Market, r: CloseResult)
    requires m'.bids == m.bids && ResultOk(m, r)
    ensures ResultOk(m', r)
  {
  }

  lemma RetriesNext(db: Db, rows: seq<(AuctionId, Json)>, faults: seq<Fault>, k: nat)
    requires k < |rows| == |faults| && ResultIn(rows[k]).Some?
    ensures RetriedUpTo(db, rows, faults, k + 1) ==
      Finalized(RetriedUpTo(db, rows, faults, k), ResultIn(rows[k]).value, faults[k])
  {
    hide Finalized;
  }

  lemma RetriesNone(db: Db, rows: seq<(AuctionId, Json)>, faults: seq<Fault>)
    requires |rows| == |faults|
    ensures RetriedUpTo(db, rows, faults, 0) == db
  {
  }
}
