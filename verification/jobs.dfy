/** The scheduled jobs over the rows their queries returned, round by round, as functions and relations of the
    database. */
module Jobs {
  import opened Schema
  import opened Transactions
  import Payload

  // ---------------------------------------------------------------- the retry pass

  /** The retry job on one row: a payload that does not parse is dropped. */
  function Retried(db: Db, aid: AuctionId, payload: Json, fault: Fault): Db {
    match Payload.ParseSpec(aid, payload)
    case Some(r) => Finalized(db, r, fault)
    case None => db.(market := SetPayload(db.market, aid, None))
  }

  /** The first `n` rows of the retry job. */
  function RetriedUpTo(db: Db, rows: seq<(AuctionId, Json)>, faults: seq<Fault>, n: nat): Db
    requires n <= |rows| == |faults|
  {
    if n == 0 then db else Retried(RetriedUpTo(db, rows, faults, n - 1), rows[n - 1].0, rows[n - 1].1, faults[n - 1])
  }

  /** A row at which the pass throws: an invalid payload whose clearing fails. */
  predicate RetryThrows(row: (AuctionId, Json), fault: Fault) {
    Payload.ParseSpec(row.0, row.1).None? && fault.ClearFails?
  }

  // ---------------------------------------------------------------- the closing job

  /** What goes wrong in one round: in its finalize, and in persisting after that. */
  type RoundFault = (Fault, bool)

  /** One round of `closeExpiredAuctions` on `t`: the close commits, and what it closed is finalized, with what
      goes wrong there. */
  predicate Round(db: Db, t: AuctionId, now: Millis, f: RoundFault, db': Db) {
    var tx := ExecuteClose(db, t, OpenUntil(now), now);
    match tx.result
    case Ok(None) => db' == tx.db
    case Ok(Some(r)) => db' == SafelyFinalized(tx.db, r, f.0, f.1)
    case Err(_) => false
  }

  /** A round throws, and with it the whole job: it has no handler around the transaction. */
  predicate Throws(db: Db, t: AuctionId, now: Millis) {
    ExecuteClose(db, t, OpenUntil(now), now).result.Err?
  }

  /** The databases between the rounds of the job, as far as it got. */
  predicate Rounds(dbs: seq<Db>, ids: seq<AuctionId>, now: Millis, faults: seq<RoundFault>) {
    && 1 <= |dbs| <= |ids| + 1 && |ids| == |faults|
    && var n := |dbs| - 1;
       n > 0 ==> Rounds(dbs[..n], ids, now, faults) && Round(dbs[n - 1], ids[n - 1], now, faults[n - 1], dbs[n])
  }

  lemma NoRounds(db: Db, ids: seq<AuctionId>, now: Millis, faults: seq<RoundFault>)
    requires |ids| == |faults|
    ensures Rounds([db], ids, now, faults)
  {
  }

  lemma RoundsAppend(dbs: seq<Db>, ids: seq<AuctionId>, now: Millis, faults: seq<RoundFault>, db': Db)
    requires Rounds(dbs, ids, now, faults) && |dbs| <= |ids|
    requires Round(dbs[|dbs| - 1], ids[|dbs| - 1], now, faults[|dbs| - 1], db')
    ensures Rounds(dbs + [db'], ids, now, faults)
  {
    hide Round;
    assert (dbs + [db'])[..|dbs|] == dbs;
  }

  lemma {:induction false} RoundsPrefix(dbs: seq<Db>, ids: seq<AuctionId>, now: Millis, faults: seq<RoundFault>, n: nat)
    requires Rounds(dbs, ids, now, faults) && 1 <= n <= |dbs|
    ensures Rounds(dbs[..n], ids, now, faults)
  {
    if n < |dbs| {
      RoundsPrefix(dbs[..|dbs| - 1], ids, now, faults, n);
      assert dbs[..|dbs| - 1][..n] == dbs[..n];
    } else {
      assert dbs[..n] == dbs;
    }
  }

  // ---------------------------------------------------------------- the timeout job

  /** The first `n` orders of the timeout job, each reopened at its own time. */
  function ReopenedUpTo(db: Db, expired: seq<OrderRef>, times: seq<Millis>, n: nat): Db
    requires n <= |expired| == |times|
  {
    if n == 0 then db
    else ReopenAuction(ReopenedUpTo(db, expired, times, n - 1), expired[n - 1], times[n - 1]).db
  }

  /** The transaction of the `n`-th order throws, and with it the whole job: it has no handler around it. */
  predicate ThrowsAt(db: Db, expired: seq<OrderRef>, times: seq<Millis>, n: nat)
    requires n < |expired| == |times|
  {
    ReopenAuction(ReopenedUpTo(db, expired, times, n), expired[n], times[n]).result.Err?
  }

  /** The job ends after `done` orders: at the first one that throws, or at the end of the list. */
  predicate StopsAfter(db: Db, expired: seq<OrderRef>, times: seq<Millis>, done: nat)
    requires |expired| == |times|
  {
    && done <= |expired| && (forall j: nat :: j < done ==> !ThrowsAt(db, expired, times, j))
    && (done < |expired| ==> ThrowsAt(db, expired, times, done))
  }
}
