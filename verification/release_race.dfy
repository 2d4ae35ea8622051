/** Release transactions at the level of their statements.  A release counts the release rows of a bid, credits
    its user and inserts the row, under the database's default isolation: the count sees committed rows and the
    transaction's own, nothing locks the bid, and no index refuses a second row.  The credit locks the user's
    row until the transaction ends.  Two retries of one payload run such transactions side by side. */
module ReleaseRace {
  import opened Schema
  import opened Schedules
  import opened WalletMoves
  import opened Transactions
  import opened MarketInvariant
  import opened Service
  import opened Runs
  import opened Finalize
  import Payload

  // ---------------------------------------------------------------- the statements

  datatype Stage = Idle | Counted | Credited

  /** One release transaction: the losing bids it goes through, how far it is, and the rows it inserted. */
  datatype Releaser = Releaser(ls: seq<LosingBid>, pos: nat, stage: Stage, pending: seq<Entry>, status: Status)

  /** The committed wallet and the transactions on it. */
  datatype Race = Race(w: Wallet, txs: seq<Releaser>)

  function RowOf(l: LosingBid): Entry { Entry(l.userId, l.bidPrice, BID_RELEASE, l.id) }

  function PostAll(w: Wallet, es: seq<Entry>): Wallet {
    if es == [] then w else Post(PostAll(w, es[..|es| - 1]), es[|es| - 1])
  }

  predicate LocksUser(t: Releaser, user: UserId) {
    t.status == Running &&
    ((exists k :: 0 <= k < |t.pending| && t.pending[k].userId == user)
     || (t.stage == Credited && t.pos < |t.ls| && t.ls[t.pos].userId == user))
  }

  predicate UserFree(r: Race, i: nat, user: UserId) {
    forall j :: 0 <= j < |r.txs| && j != i ==> !LocksUser(r.txs[j], user)
  }

  function Next(r: Race, i: nat): Race {
    if i >= |r.txs| || r.txs[i].status != Running then r
    else
      var t := r.txs[i];
      if t.pos >= |t.ls| then Race(PostAll(r.w, t.pending), r.txs[i := t.(status := Committed)])
      else
        var l := t.ls[t.pos];
        match t.stage
        case Idle =>
          if Releases(r.w.ledger, l.id) + Releases(t.pending, l.id) > 0 then r.(txs := r.txs[i := t.(pos := t.pos + 1)])
          else r.(txs := r.txs[i := t.(stage := Counted)])
        case Counted => if UserFree(r, i, l.userId) then r.(txs := r.txs[i := t.(stage := Credited)]) else r
        case Credited =>
          r.(txs := r.txs[i := t.(pending := t.pending + [RowOf(l)], pos := t.pos + 1, stage := Idle)])
  }

  function AbortTx(r: Race, i: nat): Race {
    if i < |r.txs| && r.txs[i].status == Running then r.(txs := r.txs[i := r.txs[i].(status := Aborted)]) else r
  }

  const RELEASES := Rules(Next, AbortTx)

  function Start(w: Wallet, lists: seq<seq<LosingBid>>): Race {
    Race(w, seq(|lists|, i requires 0 <= i < |lists| => Releaser(lists[i], 0, Idle, [], Running)))
  }

  // ---------------------------------------------------------------- who counts before the first commit

  /** The event is a count of bid `b` that finds no release. */
  predicate CountsNone(r: Race, e: Event, b: BidId) {
    && e.Step? && e.i < |r.txs|
    && var t := r.txs[e.i];
       && t.status == Running && t.pos < |t.ls| && t.stage == Idle && t.ls[t.pos].id == b
       && Releases(r.w.ledger, b) == 0 && Releases(t.pending, b) == 0
  }

  /** The transactions that counted `b` before a release of it was committed. */
  function Early(r: Race, es: seq<Event>, b: BidId): set<nat> {
    if es == [] then {}
    else
      var n := |es| - 1;
      Early(r, es[..n], b) + if CountsNone(Play(RELEASES, r, es[..n]), es[n], b) then {es[n].i} else {}
  }

  /** The transaction released `b` or is about to. */
  predicate Takes(t: Releaser, b: BidId) {
    Releases(t.pending, b) == 1 || (t.stage != Idle && t.pos < |t.ls| && t.ls[t.pos].id == b)
  }

  predicate TxOk(w: Wallet, t: Releaser, b: BidId) {
    && Releases(t.pending, b) <= 1 && t.pos <= |t.ls|
    && (t.stage != Idle ==> t.pos < |t.ls| && (t.ls[t.pos].id == b ==> Releases(t.pending, b) == 0))
    && (t.status == Committed ==> t.stage == Idle && t.pos == |t.ls|)
    && forall k :: 0 <= k < t.pos && t.ls[k].id == b ==> Releases(w.ledger, b) + Releases(t.pending, b) > 0
  }

  function Committers(r: Race, b: BidId): set<nat> {
    set i | 0 <= i < |r.txs| && r.txs[i].status == Committed && Releases(r.txs[i].pending, b) == 1
  }

  ghost predicate RaceOk(r: Race, early: set<nat>, before: nat, b: BidId) {
    && (forall i :: 0 <= i < |r.txs| ==> TxOk(r.w, r.txs[i], b) && (i in early <==> Takes(r.txs[i], b)))
    && (forall i :: i in early ==> i < |r.txs|)
    && Releases(r.w.ledger, b) == before + |Committers(r, b)|
  }

  lemma {:induction false} PostAllAppends(w: Wallet, es: seq<Entry>)
    ensures PostAll(w, es).ledger == w.ledger + es
  {
    if es == [] {
    } else {
      PostAllAppends(w, es[..|es| - 1]);
      assert w.ledger + es == w.ledger + es[..|es| - 1] + [es[|es| - 1]];
    }
  }

  lemma {:induction false} ReleasesConcat(l1: seq<Entry>, l2: seq<Entry>, b: BidId)
    ensures Releases(l1 + l2, b) == Releases(l1, b) + Releases(l2, b)
  {
    if l2 == [] {
      assert l1 + l2 == l1;
    } else {
      var n := |l2| - 1;
      ReleasesConcat(l1, l2[..n], b);
      assert l1 + l2 == l1 + l2[..n] + [l2[n]];
      LedgerAppend(l1 + l2[..n], l2[n], b, 0);
    }
  }

  lemma TxOkLater(w1: Wallet, w2: Wallet, t: Releaser, b: BidId)
    requires TxOk(w1, t, b) && Releases(w1.ledger, b) <= Releases(w2.ledger, b)
    ensures TxOk(w2, t, b)
  {
  }

  /** An event of one running transaction only has to be checked there. */
  lemma OneTx(r: Race, r': Race, early: set<nat>, added: set<nat>, before: nat, b: BidId, i: nat)
    requires RaceOk(r, early, before, b) && i < |r.txs| && r.txs[i].status == Running
    requires |r'.txs| == |r.txs| && forall j :: 0 <= j < |r.txs| && j != i ==> r'.txs[j] == r.txs[j]
    requires TxOk(r'.w, r'.txs[i], b) && added <= {i} && (i in early + added <==> Takes(r'.txs[i], b))
    requires Releases(r'.w.ledger, b) == Releases(r.w.ledger, b) +
      if r'.txs[i].status == Committed && Releases(r'.txs[i].pending, b) == 1 then 1 else 0
    ensures RaceOk(r', early + added, before, b)
  {
    hide TxOk, Takes, Releases, Committers;
    forall j | 0 <= j < |r'.txs| ensures TxOk(r'.w, r'.txs[j], b) && (j in early + added <==> Takes(r'.txs[j], b)) {
      if j != i {
        TxOkLater(r.w, r'.w, r.txs[j], b);
      }
    }
    OneCommitter(r, r', b, i);
  }

  lemma OneCommitter(r: Race, r': Race, b: BidId, i: nat)
    requires i < |r.txs| && r.txs[i].status == Running
    requires |r'.txs| == |r.txs| && forall j :: 0 <= j < |r.txs| && j != i ==> r'.txs[j] == r.txs[j]
    ensures |Committers(r', b)| == |Committers(r, b)| +
      if r'.txs[i].status == Committed && Releases(r'.txs[i].pending, b) == 1 then 1 else 0
  {
    hide Releases;
    var one := r'.txs[i].status == Committed && Releases(r'.txs[i].pending, b) == 1;
    assert Committers(r', b) == Committers(r, b) + if one then {i} else {};
    assert i !in Committers(r, b);
  }

  lemma CommitStep(r: Race, early: set<nat>, before: nat, b: BidId, i: nat)
    requires RaceOk(r, early, before, b) && i < |r.txs| && r.txs[i].status == Running && r.txs[i].pos == |r.txs[i].ls|
    ensures RaceOk(Next(r, i), early, before, b)
  {
    hide Committers;
    var t := r.txs[i];
    assert TxOk(r.w, t, b);
    PostAllAppends(r.w, t.pending);
    ReleasesConcat(r.w.ledger, t.pending, b);
    OneTx(r, Next(r, i), early, {}, before, b, i);
    assert early + {} == early;
  }

  lemma InsertStep(r: Race, early: set<nat>, before: nat, b: BidId, i: nat)
    requires RaceOk(r, early, before, b) && i < |r.txs| && r.txs[i].status == Running
    requires r.txs[i].pos < |r.txs[i].ls| && r.txs[i].stage == Credited
    ensures RaceOk(Next(r, i), early, before, b)
  {
    hide Committers;
    var t := r.txs[i];
    assert TxOk(r.w, t, b);
    LedgerAppend(t.pending, RowOf(t.ls[t.pos]), b, 0);
    OneTx(r, Next(r, i), early, {}, before, b, i);
    assert early + {} == early;
  }

  lemma CountStep(r: Race, early: set<nat>, before: nat, b: BidId, i: nat)
    requires RaceOk(r, early, before, b) && i < |r.txs| && r.txs[i].status == Running
    requires r.txs[i].pos < |r.txs[i].ls| && r.txs[i].stage == Idle
    ensures RaceOk(Next(r, i), early + (if CountsNone(r, Step(i), b) then {i} else {}), before, b)
  {
    hide Committers;
    assert TxOk(r.w, r.txs[i], b);
    OneTx(r, Next(r, i), early, if CountsNone(r, Step(i), b) then {i} else {}, before, b, i);
  }

  lemma CreditStep(r: Race, early: set<nat>, before: nat, b: BidId, i: nat)
    requires RaceOk(r, early, before, b) && i < |r.txs| && r.txs[i].status == Running
    requires r.txs[i].pos < |r.txs[i].ls| && r.txs[i].stage == Counted
    ensures RaceOk(Next(r, i), early, before, b)
  {
    hide Committers, UserFree;
    assert TxOk(r.w, r.txs[i], b);
    OneTx(r, Next(r, i), early, {}, before, b, i);
    assert early + {} == early;
  }

  lemma AbortStep(r: Race, early: set<nat>, before: nat, b: BidId, i: nat)
    requires RaceOk(r, early, before, b) && i < |r.txs| && r.txs[i].status == Running
    ensures RaceOk(Happen(RELEASES, r, Abort(i)), early, before, b)
  {
    hide Committers;
    assert TxOk(r.w, r.txs[i], b);
    OneTx(r, Happen(RELEASES, r, Abort(i)), early, {}, before, b, i);
    assert early + {} == early;
  }

  lemma HappenOk(r: Race, early: set<nat>, before: nat, b: BidId, e: Event)
    requires RaceOk(r, early, before, b)
    ensures RaceOk(Happen(RELEASES, r, e), early + (if CountsNone(r, e, b) then {e.i} else {}), before, b)
  {
    hide Next, RaceOk;
    assert early + {} == early;
    if e.i >= |r.txs| || r.txs[e.i].status != Running {
      Ended(r, e);
    } else if e.Abort? {
      AbortStep(r, early, before, b, e.i);
    } else if r.txs[e.i].pos >= |r.txs[e.i].ls| {
      AtEnd(r, early, before, b, e.i);
      CommitStep(r, early, before, b, e.i);
    } else {
      match r.txs[e.i].stage
      case Idle => CountStep(r, early, before, b, e.i);
      case Counted => CreditStep(r, early, before, b, e.i);
      case Credited => InsertStep(r, early, before, b, e.i);
    }
  }

  lemma AtEnd(r: Race, early: set<nat>, before: nat, b: BidId, i: nat)
    requires RaceOk(r, early, before, b) && i < |r.txs|
    ensures r.txs[i].pos <= |r.txs[i].ls|
  {
    assert TxOk(r.w, r.txs[i], b);
  }

  lemma Ended(r: Race, e: Event)
    requires e.i >= |r.txs| || r.txs[e.i].status != Running
    ensures Happen(RELEASES, r, e) == r
  {
  }

  lemma {:induction false} PlayOk(w: Wallet, lists: seq<seq<LosingBid>>, es: seq<Event>, b: BidId)
    ensures RaceOk(Play(RELEASES, Start(w, lists), es), Early(Start(w, lists), es, b), Releases(w.ledger, b), b)
    ensures |Play(RELEASES, Start(w, lists), es).txs| == |lists|
  {
    hide RaceOk, Next;
    var n := |es| - 1;
    if es == [] {
      StartOk(w, lists, b);
    } else {
      PlayOk(w, lists, es[..n], b);
      var r := Play(RELEASES, Start(w, lists), es[..n]);
      HappenOk(r, Early(Start(w, lists), es[..n], b), Releases(w.ledger, b), b, es[n]);
      SameCount(r, es[n]);
    }
  }

  lemma StartOk(w: Wallet, lists: seq<seq<LosingBid>>, b: BidId)
    ensures RaceOk(Start(w, lists), {}, Releases(w.ledger, b), b)
  {
    assert Committers(Start(w, lists), b) == {};
  }

  lemma SameCount(r: Race, e: Event)
    ensures |Happen(RELEASES, r, e).txs| == |r.txs|
    ensures forall i :: 0 <= i < |r.txs| ==> Happen(RELEASES, r, e).txs[i].ls == r.txs[i].ls
  {
  }

  /** The transactions that counted the bid before its first committed release, and committed. */
  function EarlyCommitters(r: Race, es: seq<Event>, b: BidId): set<nat> {
    set i | i in Early(r, es, b) && i < |Play(RELEASES, r, es).txs| && Play(RELEASES, r, es).txs[i].status == Committed
  }

  /** In every schedule a bid ends up with one more release row for each transaction that counted it before the
      first of them committed, and itself committed. */
  lemma RowsAreEarlyCommitters(w: Wallet, lists: seq<seq<LosingBid>>, es: seq<Event>, b: BidId)
    ensures var r := Play(RELEASES, Start(w, lists), es);
      Releases(r.w.ledger, b) == Releases(w.ledger, b) + |EarlyCommitters(Start(w, lists), es, b)|
  {
    hide Early, Play;
    PlayOk(w, lists, es, b);
    var r := Play(RELEASES, Start(w, lists), es);
    assert Committers(r, b) == EarlyCommitters(Start(w, lists), es, b) by {
      forall i: nat | i < |r.txs| && r.txs[i].status == Committed
        ensures Releases(r.txs[i].pending, b) == 1 <==> i in Early(Start(w, lists), es, b)
      {
        assert TxOk(r.w, r.txs[i], b);
      }
    }
  }

  /** So a bid without a release is released at most once exactly if at most one of them did; and at least once
      as soon as one transaction with the bid on its list committed. */
  lemma ReleasedOnceIff(w: Wallet, lists: seq<seq<LosingBid>>, es: seq<Event>, b: BidId)
    requires Releases(w.ledger, b) == 0
    ensures var r := Play(RELEASES, Start(w, lists), es);
      && (Releases(r.w.ledger, b) <= 1 <==> |EarlyCommitters(Start(w, lists), es, b)| <= 1)
      && forall i :: 0 <= i < |r.txs| && r.txs[i].status == Committed && ListsBid(r.txs[i].ls, b) ==>
           Releases(r.w.ledger, b) >= 1
  {
    hide Play, EarlyCommitters;
    RowsAreEarlyCommitters(w, lists, es, b);
    PlayOk(w, lists, es, b);
    var r := Play(RELEASES, Start(w, lists), es);
    forall i | 0 <= i < |r.txs| && r.txs[i].status == Committed && ListsBid(r.txs[i].ls, b)
      ensures Releases(r.w.ledger, b) >= 1
    {
      CommittedReleased(r, Early(Start(w, lists), es, b), Releases(w.ledger, b), b, i);
    }
  }

  predicate ListsBid(ls: seq<LosingBid>, b: BidId) { exists k :: 0 <= k < |ls| && ls[k].id == b }

  lemma CommittedReleased(r: Race, early: set<nat>, before: nat, b: BidId, i: nat)
    requires RaceOk(r, early, before, b) && i < |r.txs|
    requires r.txs[i].status == Committed && ListsBid(r.txs[i].ls, b)
    ensures Releases(r.w.ledger, b) >= 1
  {
    assert TxOk(r.w, r.txs[i], b);
    if Releases(r.txs[i].pending, b) == 1 {
      assert i in Committers(r, b);
    }
  }

  // ---------------------------------------------------------------- the money

  /** The rows that the schedule committed, in commit order. */
  function Log(r: Race, es: seq<Event>): seq<Entry> {
    if es == [] then []
    else
      var n := |es| - 1;
      Log(r, es[..n]) + Commits(Play(RELEASES, r, es[..n]), es[n])
  }

  function Commits(r: Race, e: Event): seq<Entry> {
    if e.Step? && e.i < |r.txs| && r.txs[e.i].status == Running && r.txs[e.i].pos >= |r.txs[e.i].ls|
    then r.txs[e.i].pending else []
  }

  lemma {:induction false} PostAllConcat(w: Wallet, l1: seq<Entry>, l2: seq<Entry>)
    ensures PostAll(PostAll(w, l1), l2) == PostAll(w, l1 + l2)
  {
    if l2 == [] {
      assert l1 + l2 == l1;
    } else {
      var n := |l2| - 1;
      PostAllConcat(w, l1, l2[..n]);
      assert (l1 + l2)[..|l1 + l2| - 1] == l1 + l2[..n];
    }
  }

  lemma HappenPosts(r: Race, e: Event)
    ensures Happen(RELEASES, r, e).w == PostAll(r.w, Commits(r, e))
  {
  }

  lemma {:induction false} LogPosts(r: Race, es: seq<Event>)
    ensures Play(RELEASES, r, es).w == PostAll(r.w, Log(r, es))
  {
    hide Happen;
    if es == [] {
    } else {
      var n := |es| - 1;
      LogPosts(r, es[..n]);
      HappenPosts(Play(RELEASES, r, es[..n]), es[n]);
      PostAllConcat(r.w, Log(r, es[..n]), Commits(Play(RELEASES, r, es[..n]), es[n]));
    }
  }

  /** A release row of a bid of the table, with its user and price. */
  predicate ReleaseRow(bids: seq<Bid>, users: nat, e: Entry) {
    && e.kind == BID_RELEASE && e.refId < |bids| && e.userId < users
    && e.userId == bids[e.refId].userId && e.amount == bids[e.refId].bidPrice
  }

  predicate ReleaseRows(bids: seq<Bid>, users: nat, es: seq<Entry>) {
    forall k :: 0 <= k < |es| ==> ReleaseRow(bids, users, es[k])
  }

  predicate ListsOk(bids: seq<Bid>, users: nat, ls: seq<LosingBid>) {
    forall k :: 0 <= k < |ls| ==> ReleaseRow(bids, users, RowOf(ls[k]))
  }

  predicate TxRows(bids: seq<Bid>, users: nat, t: Releaser) {
    ListsOk(bids, users, t.ls) && ReleaseRows(bids, users, t.pending)
  }

  lemma HappenRows(bids: seq<Bid>, users: nat, r: Race, e: Event)
    requires forall i :: 0 <= i < |r.txs| ==> TxRows(bids, users, r.txs[i])
    ensures forall i :: 0 <= i < |Happen(RELEASES, r, e).txs| ==> TxRows(bids, users, Happen(RELEASES, r, e).txs[i])
    ensures ReleaseRows(bids, users, Commits(r, e))
  {
  }

  lemma {:induction false} LogRows(bids: seq<Bid>, users: nat, r: Race, es: seq<Event>)
    requires forall i :: 0 <= i < |r.txs| ==> TxRows(bids, users, r.txs[i])
    ensures forall i :: 0 <= i < |Play(RELEASES, r, es).txs| ==> TxRows(bids, users, Play(RELEASES, r, es).txs[i])
    ensures ReleaseRows(bids, users, Log(r, es))
  {
    hide Happen, TxRows, ReleaseRow, Commits;
    if es == [] {
    } else {
      var n := |es| - 1;
      LogRows(bids, users, r, es[..n]);
      HappenRows(bids, users, Play(RELEASES, r, es[..n]), es[n]);
    }
  }

  function Times(k: nat, price: int): int { k * price }

  lemma TimesNext(k: nat, price: int)
    ensures Times(k + 1, price) == Times(k, price) + price && Times(0, price) == 0
  {
  }

  /** What the rows refund, bid by bid. */
  function Refunds(bids: seq<Bid>, es: seq<Entry>): seq<int> {
    seq(|bids|, b requires 0 <= b < |bids| => Times(Releases(es, b), bids[b].bidPrice))
  }

  lemma RefundsNext(bids: seq<Bid>, users: nat, es: seq<Entry>, e: Entry)
    requires ReleaseRow(bids, users, e)
    ensures Sum(Refunds(bids, es + [e])) == Sum(Refunds(bids, es)) + e.amount
  {
    hide Times, Releases, Sum;
    var before, b := Refunds(bids, es), e.refId;
    forall i: BidId | i < |bids|
      ensures Refunds(bids, es + [e])[i] == if i == b then before[b] + e.amount else before[i]
    {
      LedgerAppend(es, e, i, 0);
      TimesNext(Releases(es, i), bids[i].bidPrice);
    }
    assert Refunds(bids, es + [e]) == before[b := before[b] + e.amount];
    SumUpdate(before, b, before[b] + e.amount);
  }

  lemma {:induction false} PostAllMoney(bids: seq<Bid>, w: Wallet, es: seq<Entry>)
    requires ReleaseRows(bids, |w.balance|, es)
    ensures Sum(PostAll(w, es).balance) == Sum(w.balance) + Sum(Refunds(bids, es))
    ensures |PostAll(w, es).balance| == |w.balance|
  {
    hide Refunds, Sum, HoldRefs, Releases;
    if es == [] {
      NoRefunds(bids);
    } else {
      var n := |es| - 1;
      var w1 := PostAll(w, es[..n]);
      PostAllMoney(bids, w, es[..n]);
      assert es == es[..n] + [es[n]];
      RefundsNext(bids, |w.balance|, es[..n], es[n]);
      SumUpdate(w1.balance, es[n].userId, w1.balance[es[n].userId] + es[n].amount);
    }
  }

  lemma {:induction false} PostAllHoldsNothing(bids: seq<Bid>, w: Wallet, users: nat, es: seq<Entry>)
    requires ReleaseRows(bids, users, es)
    ensures HoldRefs(PostAll(w, es).ledger) == HoldRefs(w.ledger)
  {
    if es == [] {
    } else {
      var n := |es| - 1;
      PostAllHoldsNothing(bids, w, users, es[..n]);
      LedgerAppend(PostAll(w, es[..n]).ledger, es[n], 0, 0);
    }
  }

  lemma NoRefunds(bids: seq<Bid>)
    ensures Sum(Refunds(bids, [])) == 0
  {
    SumNonNegative(Refunds(bids, []));
  }

  /** What `k` releases of a bid create: `k` times its price, less what it withheld before the first. */
  function Surplus(bids: seq<Bid>, ledger: seq<Entry>, b: BidId, k: nat): int
    requires b < |bids|
  {
    if k == 0 then 0 else Times(k, bids[b].bidPrice) - Withheld(bids, ledger, b)
  }

  function Surpluses(bids: seq<Bid>, w: Wallet, lists: seq<seq<LosingBid>>, es: seq<Event>): seq<int> {
    seq(|bids|, b requires 0 <= b < |bids| =>
      Surplus(bids, w.ledger, b, |EarlyCommitters(Start(w, lists), es, b)|))
  }

  /** A bid that still withheld its price: every early committer but one creates the price once more. */
  lemma SurplusOf(bids: seq<Bid>, ledger: seq<Entry>, b: BidId, k: nat)
    requires b < |bids| && Withheld(bids, ledger, b) == bids[b].bidPrice && 1 <= k
    ensures Surplus(bids, ledger, b, k) == (k - 1) * bids[b].bidPrice
  {
    TimesNext(k - 1, bids[b].bidPrice);
  }

  /** Over every schedule of release transactions, the users own more than before by exactly the surplus of each
      bid. */
  lemma RaceMints(db: Db, lists: seq<seq<LosingBid>>, es: seq<Event>)
    requires WalletInv(db.market.bids, db.wallet)
    requires forall i :: 0 <= i < |lists| ==> ListsOk(db.market.bids, |db.wallet.balance|, lists[i])
    ensures Owned(db.(wallet := Play(RELEASES, Start(db.wallet, lists), es).w)) ==
      Owned(db) + Sum(Surpluses(db.market.bids, db.wallet, lists, es))
  {
    hide WalletInv, Play, Log, EarlyCommitters, Refunds, ReleaseRow, PostAll, TxRows;
    var bids, w, r := db.market.bids, db.wallet, Start(db.wallet, lists);
    assert forall i :: 0 <= i < |r.txs| ==> TxRows(bids, |w.balance|, r.txs[i]) by { StartRows(bids, w, lists); }
    LogRows(bids, |w.balance|, r, es);
    LogPosts(r, es);
    PostAllMoney(bids, w, Log(r, es));
    PostAllHoldsNothing(bids, w, |w.balance|, Log(r, es));
    SurplusesAre(bids, w, lists, es);
  }

  lemma StartRows(bids: seq<Bid>, w: Wallet, lists: seq<seq<LosingBid>>)
    requires forall i :: 0 <= i < |lists| ==> ListsOk(bids, |w.balance|, lists[i])
    ensures var r := Start(w, lists); forall i :: 0 <= i < |r.txs| ==> TxRows(bids, |w.balance|, r.txs[i])
  {
  }

  lemma SurplusAt(bids: seq<Bid>, w: Wallet, lists: seq<seq<LosingBid>>, es: seq<Event>, b: BidId)
    requires HoldRefs(PostAll(w, Log(Start(w, lists), es)).ledger) == HoldRefs(w.ledger) && b < |bids|
    ensures var r := Start(w, lists);
      Surpluses(bids, w, lists, es)[b] + Withheld(bids, w.ledger, b) ==
      Refunds(bids, Log(r, es))[b] + Withheld(bids, Play(RELEASES, r, es).w.ledger, b)
  {
    hide EarlyCommitters, Play, Log, PostAll, Times;
    var r := Start(w, lists);
    LogPosts(r, es);
    PostAllAppends(w, Log(r, es));
    RowsAreEarlyCommitters(w, lists, es, b);
    ReleasesConcat(w.ledger, Log(r, es), b);
    TimesNext(0, bids[b].bidPrice);
  }

  lemma SurplusesAre(bids: seq<Bid>, w: Wallet, lists: seq<seq<LosingBid>>, es: seq<Event>)
    requires HoldRefs(PostAll(w, Log(Start(w, lists), es)).ledger) == HoldRefs(w.ledger)
    ensures var r := Start(w, lists);
      Sum(Refunds(bids, Log(r, es))) + Sum(WithheldAll(bids, Play(RELEASES, r, es).w.ledger)) ==
      Sum(Surpluses(bids, w, lists, es)) + Sum(WithheldAll(bids, w.ledger))
  {
    hide EarlyCommitters, Play, Log, PostAll, Times, Withheld, HoldRefs, Sum, Releases;
    var r := Start(w, lists);
    var log, after := Log(r, es), Play(RELEASES, r, es).w.ledger;
    var total := seq(|bids|, b requires 0 <= b < |bids| => Refunds(bids, log)[b] + Withheld(bids, after, b));
    forall b: BidId | b < |bids|
      ensures Surpluses(bids, w, lists, es)[b] + Withheld(bids, w.ledger, b) == total[b]
    {
      SurplusAt(bids, w, lists, es, b);
    }
    SumPlus(Refunds(bids, log), WithheldAll(bids, after), total);
    SumPlus(Surpluses(bids, w, lists, es), WithheldAll(bids, w.ledger), total);
  }

  // ---------------------------------------------------------------- one transaction alone

  predicate OnlyOf(es: seq<Event>, i: nat) { forall k :: 0 <= k < |es| ==> es[k] == Step(i) }

  /** Nobody else holds a user's row. */
  predicate Alone(r: Race, i: nat) {
    forall j :: 0 <= j < |r.txs| && j != i ==>
      r.txs[j].status != Running || (r.txs[j].pending == [] && r.txs[j].stage != Credited)
  }

  /** The transaction's rows so far are what the release loop did so far. */
  predicate LoopAt(r: Race, i: nat) {
    && i < |r.txs| && Alone(r, i)
    && var t := r.txs[i];
       && t.status == Running && t.stage == Idle && t.pos <= |t.ls|
       && PostAll(r.w, t.pending) == ReleaseAll(r.w, t.ls[..t.pos])
  }

  /** The transaction after one more loser. */
  function AfterLoser(r: Race, i: nat): Race
    requires i < |r.txs| && r.txs[i].pos < |r.txs[i].ls|
  {
    var t := r.txs[i];
    var l := t.ls[t.pos];
    var more := if Releases(r.w.ledger, l.id) + Releases(t.pending, l.id) > 0 then [] else [RowOf(l)];
    r.(txs := r.txs[i := t.(pos := t.pos + 1, pending := t.pending + more)])
  }

  /** A transaction releases its next loser in three statements, if it counts none and the user's row is free. */
  lemma TakeLoser(r: Race, i: nat)
    requires i < |r.txs| && r.txs[i].status == Running && r.txs[i].stage == Idle && r.txs[i].pos < |r.txs[i].ls|
    requires var t := r.txs[i]; var l := t.ls[t.pos];
      Releases(r.w.ledger, l.id) + Releases(t.pending, l.id) == 0 && UserFree(r, i, l.userId)
    ensures var t := r.txs[i];
      Play(RELEASES, r, [Step(i), Step(i), Step(i)])
      == r.(txs := r.txs[i := t.(pos := t.pos + 1, pending := t.pending + [RowOf(t.ls[t.pos])])])
  {
    hide Releases, LocksUser, Play, PostAll;
    var t := r.txs[i];
    PlayThree(RELEASES, r, Step(i), Step(i), Step(i));
    var r1 := r.(txs := r.txs[i := t.(stage := Counted)]);
    var r2 := r.(txs := r.txs[i := t.(stage := Credited)]);
    assert Happen(RELEASES, r, Step(i)) == r1;
    assert Happen(RELEASES, r1, Step(i)) == r2 by { assert UserFree(r1, i, t.ls[t.pos].userId); }
  }

  lemma LoserSteps(r: Race, i: nat)
    requires LoopAt(r, i) && r.txs[i].pos < |r.txs[i].ls|
    ensures exists es :: OnlyOf(es, i) && Play(RELEASES, r, es) == AfterLoser(r, i)
  {
    hide PostAll, ReleaseAll, Play, Releases;
    var t, e := r.txs[i], Step(i);
    var l := t.ls[t.pos];
    if Releases(r.w.ledger, l.id) + Releases(t.pending, l.id) > 0 {
      PlayOne(RELEASES, r, e);
      assert t.pending + [] == t.pending;
      assert OnlyOf([e], i) && Play(RELEASES, r, [e]) == AfterLoser(r, i);
    } else {
      TakeLoser(r, i);
      assert OnlyOf([e, e, e], i) && Play(RELEASES, r, [e, e, e]) == AfterLoser(r, i);
    }
  }

  lemma LoserLoops(r: Race, i: nat)
    requires LoopAt(r, i) && r.txs[i].pos < |r.txs[i].ls|
    ensures LoopAt(AfterLoser(r, i), i)
  {
    hide LocksUser, PostAll, ReleaseAll, Releases;
    var t := r.txs[i];
    assert Alone(AfterLoser(r, i), i);
    assert t.pending + [] == t.pending;
    LoserPosts(r.w, t.pending, t.ls, t.pos);
  }

  lemma {:induction false} LoserPosts(w: Wallet, pending: seq<Entry>, ls: seq<LosingBid>, pos: nat)
    requires pos < |ls| && PostAll(w, pending) == ReleaseAll(w, ls[..pos])
    ensures ReleaseAll(w, ls[..pos + 1]) ==
      if Releases(w.ledger, ls[pos].id) + Releases(pending, ls[pos].id) > 0 then PostAll(w, pending)
      else PostAll(w, pending + [RowOf(ls[pos])])
  {
    hide PostAll, ReleaseAll, Releases, Post;
    ReleaseNext(w, ls, pos);
    PostAllAppends(w, pending);
    ReleasesConcat(w.ledger, pending, ls[pos].id);
    PostAllLast(w, pending, RowOf(ls[pos]));
  }

  lemma PostAllLast(w: Wallet, es: seq<Entry>, e: Entry)
    ensures PostAll(w, es + [e]) == Post(PostAll(w, es), e)
  {
    hide Post;
    assert (es + [e])[..|es + [e]| - 1] == es;
  }

  /** The steps of `i` commit it, and the wallet is that of the release loop. */
  ghost predicate Loops(r: Race, i: nat, es: seq<Event>) {
    && i < |r.txs| && OnlyOf(es, i) && Play(RELEASES, r, es).w == ReleaseAll(r.w, r.txs[i].ls)
    && |Play(RELEASES, r, es).txs| == |r.txs| && Play(RELEASES, r, es).txs[i].status == Committed
  }

  /** One release transaction that nothing overlaps is the release loop: what the run model takes as a step. */
  lemma {:induction false} AloneIsLoop(r: Race, i: nat)
    requires LoopAt(r, i)
    ensures exists es :: Loops(r, i, es)
    decreases |r.txs[i].ls| - r.txs[i].pos
  {
    hide PostAll, ReleaseAll, Alone;
    var t, e := r.txs[i], Step(i);
    if t.pos == |t.ls| {
      PlayOne(RELEASES, r, e);
      assert t.ls[..t.pos] == t.ls;
      assert Loops(r, i, [e]);
    } else {
      LoserSteps(r, i);
      LoserLoops(r, i);
      var r1 := AfterLoser(r, i);
      var e1 :| OnlyOf(e1, i) && Play(RELEASES, r, e1) == r1;
      AloneIsLoop(r1, i);
      var e2 :| Loops(r1, i, e2);
      PlayConcat(RELEASES, r, e1, e2);
      assert Loops(r, i, e1 + e2);
    }
  }

  // ---------------------------------------------------------------- what does overlap

  /** Two retries of one payload, each counting before the other commits. */
  function TwoRetries(): seq<Event> {
    [Step(0), Step(1), Step(0), Step(0), Step(0), Step(1), Step(1), Step(1)]
  }

  /** A transaction on one loser that counted nothing and finds the user's row free. */
  lemma CountedCommits(r: Race, i: nat, l: LosingBid)
    requires i < |r.txs| && r.txs[i] == Releaser([l], 0, Counted, [], Running) && UserFree(r, i, l.userId)
    ensures Play(RELEASES, r, [Step(i), Step(i), Step(i)])
      == Race(Post(r.w, RowOf(l)), r.txs[i := Releaser([l], 1, Idle, [RowOf(l)], Committed)])
  {
    hide Play, Releases, LocksUser;
    var t := r.txs[i];
    PlayThree(RELEASES, r, Step(i), Step(i), Step(i));
    var r1 := r.(txs := r.txs[i := t.(stage := Credited)]);
    var r2 := r.(txs := r.txs[i := Releaser([l], 1, Idle, [RowOf(l)], Running)]);
    assert Happen(RELEASES, r, Step(i)) == r1;
    assert [] + [RowOf(l)] == [RowOf(l)];
    assert Happen(RELEASES, r1, Step(i)) == r2;
    assert [RowOf(l)][..0] == [] && PostAll(r.w, [RowOf(l)]) == Post(PostAll(r.w, []), RowOf(l));
  }

  /** That schedule releases any bid twice: two rows, and the price credited twice. */
  lemma TwoRetriesReleaseTwice(w: Wallet, l: LosingBid)
    requires Releases(w.ledger, l.id) == 0
    ensures var r := Play(RELEASES, Start(w, [[l], [l]]), TwoRetries());
      && |r.txs| == 2 && r.txs[0].status == r.txs[1].status == Committed
      && r.w == Post(Post(w, RowOf(l)), RowOf(l)) && Releases(r.w.ledger, l.id) == 2
  {
    hide Play, Post;
    var t := Releaser([l], 0, Counted, [], Running);
    var r0, r1 := Start(w, [[l], [l]]), Race(w, [t, t]);
    assert TwoRetries() == [Step(0), Step(1)] + ([Step(0), Step(0), Step(0)] + [Step(1), Step(1), Step(1)]);
    PlayConcat(RELEASES, r0, [Step(0), Step(1)], [Step(0), Step(0), Step(0)] + [Step(1), Step(1), Step(1)]);
    PlayTwo(RELEASES, r0, Step(0), Step(1));
    assert Happen(RELEASES, Happen(RELEASES, r0, Step(0)), Step(1)) == r1;
    PlayConcat(RELEASES, r1, [Step(0), Step(0), Step(0)], [Step(1), Step(1), Step(1)]);
    CountedCommits(r1, 0, l);
    var done := Releaser([l], 1, Idle, [RowOf(l)], Committed);
    var r2 := Race(Post(w, RowOf(l)), [done, t]);
    assert r1.txs[0 := done] == [done, t];
    CountedCommits(r2, 1, l);
    PostTwice(w, l);
  }

  lemma PostTwice(w: Wallet, l: LosingBid)
    requires Releases(w.ledger, l.id) == 0
    ensures Releases(Post(Post(w, RowOf(l)), RowOf(l)).ledger, l.id) == 2
  {
    LedgerAppend(w.ledger, RowOf(l), l.id, 0);
    LedgerAppend(w.ledger + [RowOf(l)], RowOf(l), l.id, 0);
  }

  /** And the service gets there: both jobs read the same row before either finalizes, so two finalizes of one
      result are in flight. */
  lemma TwoRetriesInFlight(s: Sys, r: CloseResult)
    requires HoldsPayload(s.db.market, r) && IsClosed(s.db.market, r.auctionId)
    ensures var s' := Apply(Apply(s, Retry(r.auctionId)), Retry(r.auctionId));
      s'.db == s.db && s'.tasks[Finalizing(r, true)] == s.tasks[Finalizing(r, true)] + 2
  {
    Payload.RoundTrip(r);
  }
}
