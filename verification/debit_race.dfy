/** Debits at the level of their statements.  A hold or a direct payment reads the balance, compares, debits and
    inserts its ledger row; the read locks nothing and no CHECK keeps a balance above zero, so debits of one user
    on different auctions can all read the same balance.  The debit locks the user's row until the transaction
    ends. */
module DebitRace {
  import opened Schema
  import opened Schedules
  import opened WalletMoves

  datatype Stage = Fresh | Covered | Debited | Inserted

  /** One debit transaction: its user, price and ledger row, how far it is, and the balance it read. */
  datatype Debit = Debit(user: UserId, price: int, kind: TxType, refId: nat, stage: Stage, seen: int, status: Status)

  /** The committed wallet and the transactions on it. */
  datatype Race = Race(w: Wallet, txs: seq<Debit>)

  function RowOf(t: Debit): Entry { Entry(t.user, -t.price, t.kind, t.refId) }

  predicate UserFree(r: Race, i: nat, user: UserId) {
    forall j :: 0 <= j < |r.txs| && j != i ==>
      !(r.txs[j].status == Running && r.txs[j].user == user && (r.txs[j].stage.Debited? || r.txs[j].stage.Inserted?))
  }

  function Next(r: Race, i: nat): Race {
    if i >= |r.txs| || r.txs[i].status != Running then r
    else
      var t := r.txs[i];
      match t.stage
      case Fresh =>
        if Covers(r.w, t.user, t.price)
        then r.(txs := r.txs[i := t.(stage := Covered, seen := r.w.balance[t.user])])
        else r.(txs := r.txs[i := t.(status := Aborted)])
      case Covered => if UserFree(r, i, t.user) then r.(txs := r.txs[i := t.(stage := Debited)]) else r
      case Debited => r.(txs := r.txs[i := t.(stage := Inserted)])
      case Inserted => Race(Post(r.w, RowOf(t)), r.txs[i := t.(status := Committed)])
  }

  function AbortTx(r: Race, i: nat): Race {
    if i < |r.txs| && r.txs[i].status == Running then r.(txs := r.txs[i := r.txs[i].(status := Aborted)]) else r
  }

  const DEBITS := Rules(Next, AbortTx)

  predicate AllFresh(txs: seq<Debit>) {
    forall i :: 0 <= i < |txs| ==> txs[i].stage == Fresh && txs[i].status == Running
  }

  // ---------------------------------------------------------------- what the debits leave

  /** What the committed debits took from a user. */
  function Taken(txs: seq<Debit>, user: UserId): seq<int> {
    seq(|txs|, i requires 0 <= i < |txs| =>
      if txs[i].status == Committed && txs[i].user == user then txs[i].price else 0)
  }

  /** A running transaction past its check has a user, and the price was covered by what it read. */
  predicate TxOk(w: Wallet, t: Debit) {
    (t.status == Running && !t.stage.Fresh?) || t.status == Committed ==> t.user < |w.balance| && t.price <= t.seen
  }

  ghost predicate Accounts(w0: Wallet, r: Race) {
    && |r.w.balance| == |w0.balance|
    && (forall i :: 0 <= i < |r.txs| ==> TxOk(r.w, r.txs[i]))
    && forall u: UserId :: u < |w0.balance| ==> r.w.balance[u] + Sum(Taken(r.txs, u)) == w0.balance[u]
  }

  lemma TakenStep(txs: seq<Debit>, txs': seq<Debit>, i: nat, user: UserId)
    requires i < |txs| == |txs'| && txs[i].status != Committed && txs'[i].user == txs[i].user
    requires txs' == txs[i := txs'[i]]
    ensures Sum(Taken(txs', user)) == Sum(Taken(txs, user)) +
      if txs'[i].status == Committed && txs'[i].user == user then txs'[i].price else 0
  {
    var before, after := Taken(txs, user), Taken(txs', user);
    assert after == before[i := after[i]];
    SumUpdate(before, i, after[i]);
  }

  lemma HappenAccounts(w0: Wallet, r: Race, e: Event)
    requires Accounts(w0, r)
    ensures Accounts(w0, Happen(DEBITS, r, e))
  {
    hide Sum, Taken, UserFree;
    var r' := Happen(DEBITS, r, e);
    if e.i < |r.txs| && r.txs[e.i].status == Running {
      assert TxOk(r.w, r.txs[e.i]);
      assert r'.txs == r.txs[e.i := r'.txs[e.i]];
      forall u: UserId | u < |w0.balance|
        ensures r'.w.balance[u] + Sum(Taken(r'.txs, u)) == w0.balance[u]
      {
        TakenStep(r.txs, r'.txs, e.i, u);
      }
    }
  }

  lemma {:induction false} PlayAccounts(w: Wallet, txs: seq<Debit>, es: seq<Event>)
    requires AllFresh(txs)
    ensures Accounts(w, Play(DEBITS, Race(w, txs), es))
  {
    hide Happen;
    if es == [] {
      StartAccounts(w, txs);
    } else {
      PlayAccounts(w, txs, es[..|es| - 1]);
      HappenAccounts(w, Play(DEBITS, Race(w, txs), es[..|es| - 1]), es[|es| - 1]);
    }
  }

  lemma StartAccounts(w: Wallet, txs: seq<Debit>)
    requires AllFresh(txs)
    ensures Accounts(w, Race(w, txs))
  {
    forall u: UserId ensures Sum(Taken(txs, u)) == 0 {
      SumNonNegative(Taken(txs, u));
    }
  }

  /** In every schedule a balance falls by exactly the prices of the committed debits, each of which was covered
      by the balance it read. */
  lemma BalanceFalls(w: Wallet, txs: seq<Debit>, es: seq<Event>, user: UserId)
    requires AllFresh(txs) && user < |w.balance|
    ensures var r := Play(DEBITS, Race(w, txs), es);
      && |r.w.balance| == |w.balance|
      && r.w.balance[user] == w.balance[user] - Sum(Taken(r.txs, user))
      && forall i :: 0 <= i < |r.txs| && r.txs[i].status == Committed ==> r.txs[i].price <= r.txs[i].seen
  {
    hide Play;
    PlayAccounts(w, txs, es);
    var r := Play(DEBITS, Race(w, txs), es);
    assert forall i :: 0 <= i < |r.txs| ==> TxOk(r.w, r.txs[i]);
  }

  // ---------------------------------------------------------------- without overlap

  /** The event commits a debit whose user's balance is no longer the one it read. */
  predicate Stale(r: Race, e: Event) {
    && e.Step? && e.i < |r.txs| && r.txs[e.i].status == Running && r.txs[e.i].stage.Inserted?
    && r.txs[e.i].user < |r.w.balance| && r.w.balance[r.txs[e.i].user] != r.txs[e.i].seen
  }

  predicate NoneStale(r: Race, es: seq<Event>) {
    es == [] || (NoneStale(r, es[..|es| - 1]) && !Stale(Play(DEBITS, r, es[..|es| - 1]), es[|es| - 1]))
  }

  predicate NonNegative(w: Wallet) { forall u :: 0 <= u < |w.balance| ==> 0 <= w.balance[u] }

  /** No balance goes below zero while every debit commits on the balance it read; below zero, two of them
      overlapped. */
  lemma {:induction false} NoneStaleNonNegative(w: Wallet, txs: seq<Debit>, es: seq<Event>)
    requires AllFresh(txs) && NonNegative(w) && NoneStale(Race(w, txs), es)
    ensures NonNegative(Play(DEBITS, Race(w, txs), es).w)
  {
    hide Happen, Stale;
    if es == [] {
    } else {
      var n := |es| - 1;
      NoneStaleNonNegative(w, txs, es[..n]);
      PlayAccounts(w, txs, es[..n]);
      FreshCommit(Play(DEBITS, Race(w, txs), es[..n]), es[n], w);
    }
  }

  lemma FreshCommit(r: Race, e: Event, w0: Wallet)
    requires Accounts(w0, r) && NonNegative(r.w) && !Stale(r, e)
    ensures NonNegative(Happen(DEBITS, r, e).w)
  {
    if e.i < |r.txs| {
      assert TxOk(r.w, r.txs[e.i]);
    }
  }

  lemma {:induction false} PlayFour(r: Race, e: Event)
    ensures Play(DEBITS, r, [e, e, e, e]) == Happen(DEBITS, Happen(DEBITS, Happen(DEBITS, Happen(DEBITS, r, e), e), e), e)
  {
    hide Happen, Play;
    PlayThree(DEBITS, r, e, e, e);
    PlayNext(DEBITS, r, [e, e, e], e);
    assert [e, e, e] + [e] == [e, e, e, e];
  }

  /** A debit that nothing overlaps is the move of the wallet: the hold of a bid or the direct payment. */
  lemma {:induction false} AloneIsMove(w: Wallet, t: Debit)
    requires t.stage == Fresh && t.status == Running && (t.kind == BID_HOLD || t.kind == PAYMENT)
    ensures var r := Play(DEBITS, Race(w, [t]), [Step(0), Step(0), Step(0), Step(0)]);
      var move := if t.kind == BID_HOLD then HoldForBid(w, t.user, t.price, t.refId)
                  else Pay(w, t.user, t.price, t.refId);
      r.w == (if move.Some? then move.value else w) && |r.txs| == 1 && (r.txs[0].status == Committed <==> move.Some?)
  {
    hide Post;
    PlayFour(Race(w, [t]), Step(0));
    var e := Step(0);
    if Covers(w, t.user, t.price) {
      var t1 := t.(stage := Covered, seen := w.balance[t.user]);
      assert Happen(DEBITS, Race(w, [t]), e) == Race(w, [t1]);
      assert Happen(DEBITS, Race(w, [t1]), e) == Race(w, [t1.(stage := Debited)]);
      assert Happen(DEBITS, Race(w, [t1.(stage := Debited)]), e) == Race(w, [t1.(stage := Inserted)]);
    } else {
      assert Happen(DEBITS, Race(w, [t]), e) == Race(w, [t.(status := Aborted)]);
    }
  }

  // ---------------------------------------------------------------- with overlap

  /** A transaction that read a covered balance and finds the user's row free. */
  lemma {:induction false} CoveredCommits(r: Race, i: nat)
    requires i < |r.txs| && r.txs[i].stage == Covered && r.txs[i].status == Running && UserFree(r, i, r.txs[i].user)
    ensures Play(DEBITS, r, [Step(i), Step(i), Step(i)])
      == Race(Post(r.w, RowOf(r.txs[i])), r.txs[i := r.txs[i].(stage := Inserted, status := Committed)])
  {
    hide Post, Play;
    var e, t := Step(i), r.txs[i];
    PlayThree(DEBITS, r, e, e, e);
    assert Happen(DEBITS, r, e) == r.(txs := r.txs[i := t.(stage := Debited)]);
    assert Happen(DEBITS, Happen(DEBITS, r, e), e) == r.(txs := r.txs[i := t.(stage := Inserted)]);
  }

  /** The first `k` debits have read the opening balance, the others have not started. */
  predicate ReadUpTo(w: Wallet, txs: seq<Debit>, r: Race, k: nat) {
    && r.w == w && |r.txs| == |txs|
    && (forall i :: 0 <= i < |txs| ==> txs[i].user < |w.balance|)
    && forall i :: 0 <= i < |txs| ==>
      r.txs[i] == if i < k then txs[i].(stage := Covered, seen := w.balance[txs[i].user]) else txs[i]
  }

  /** The first `k` debits have committed, the others have only read. */
  predicate CommittedUpTo(txs: seq<Debit>, r: Race, k: nat) {
    && |r.txs| == |txs|
    && forall i :: 0 <= i < |txs| ==>
      && r.txs[i].user == txs[i].user && r.txs[i].price == txs[i].price
      && if i < k then r.txs[i].status == Committed else r.txs[i].status == Running && r.txs[i].stage == Covered
  }

  predicate AllCovered(w: Wallet, txs: seq<Debit>) {
    AllFresh(txs) && forall i :: 0 <= i < |txs| ==> Covers(w, txs[i].user, txs[i].price)
  }

  lemma {:induction false} AllRead(w: Wallet, txs: seq<Debit>, k: nat)
    requires AllCovered(w, txs) && k <= |txs|
    ensures exists es :: ReadUpTo(w, txs, Play(DEBITS, Race(w, txs), es), k)
  {
    hide Play;
    if k == 0 {
      assert ReadUpTo(w, txs, Play(DEBITS, Race(w, txs), []), 0) by { PlayNothing(DEBITS, Race(w, txs)); }
    } else {
      AllRead(w, txs, k - 1);
      var es :| ReadUpTo(w, txs, Play(DEBITS, Race(w, txs), es), k - 1);
      PlayNext(DEBITS, Race(w, txs), es, Step(k - 1));
      assert ReadUpTo(w, txs, Play(DEBITS, Race(w, txs), es + [Step(k - 1)]), k);
    }
  }

  lemma {:induction false} AllCommit(w: Wallet, txs: seq<Debit>, r: Race, k: nat)
    requires ReadUpTo(w, txs, r, |txs|) && AllFresh(txs) && k <= |txs|
    ensures exists es :: CommittedUpTo(txs, Play(DEBITS, r, es), k)
  {
    hide Play, Post;
    if k == 0 {
      assert CommittedUpTo(txs, Play(DEBITS, r, []), 0) by { PlayNothing(DEBITS, r); }
    } else {
      AllCommit(w, txs, r, k - 1);
      var es :| CommittedUpTo(txs, Play(DEBITS, r, es), k - 1);
      var r1, e := Play(DEBITS, r, es), Step(k - 1);
      CoveredCommits(r1, k - 1);
      PlayConcat(DEBITS, r, es, [e, e, e]);
      assert CommittedUpTo(txs, Play(DEBITS, r, es + [e, e, e]), k);
    }
  }

  /** A schedule in which all debits read first commits them all. */
  lemma AllOverlap(w: Wallet, txs: seq<Debit>)
    requires AllCovered(w, txs)
    ensures exists es :: CommittedUpTo(txs, Play(DEBITS, Race(w, txs), es), |txs|)
  {
    hide Play, AllCovered;
    AllRead(w, txs, |txs|);
    var e1 :| ReadUpTo(w, txs, Play(DEBITS, Race(w, txs), e1), |txs|);
    assert AllFresh(txs) by { CoveredAreFresh(w, txs); }
    AllCommit(w, txs, Play(DEBITS, Race(w, txs), e1), |txs|);
    var e2 :| CommittedUpTo(txs, Play(DEBITS, Play(DEBITS, Race(w, txs), e1), e2), |txs|);
    PlayConcat(DEBITS, Race(w, txs), e1, e2);
  }

  lemma CoveredAreFresh(w: Wallet, txs: seq<Debit>)
    requires AllCovered(w, txs)
    ensures AllFresh(txs)
  {
  }

  /** What all debits of a user would take. */
  function Asked(txs: seq<Debit>, user: UserId): seq<int> {
    seq(|txs|, i requires 0 <= i < |txs| => if txs[i].user == user then txs[i].price else 0)
  }

  lemma TakenAtMost(txs: seq<Debit>, txs': seq<Debit>, user: UserId)
    requires |txs'| == |txs|
    requires forall i :: 0 <= i < |txs| ==>
      0 <= txs[i].price && txs'[i].user == txs[i].user && txs'[i].price == txs[i].price
    ensures Sum(Taken(txs', user)) <= Sum(Asked(txs, user))
    ensures (forall i :: 0 <= i < |txs| ==> txs'[i].status == Committed) ==>
      Sum(Taken(txs', user)) == Sum(Asked(txs, user))
  {
    var rest := seq(|txs|, i requires 0 <= i < |txs| => Asked(txs, user)[i] - Taken(txs', user)[i]);
    SumPlus(Taken(txs', user), rest, Asked(txs, user));
    SumNonNegative(rest);
  }

  lemma SameDebits(r: Race, e: Event)
    ensures var txs, txs' := r.txs, Happen(DEBITS, r, e).txs;
      |txs'| == |txs|
      && forall i :: 0 <= i < |txs| ==> txs'[i].user == txs[i].user && txs'[i].price == txs[i].price
  {
  }

  lemma {:induction false} PlaySameDebits(r: Race, es: seq<Event>)
    ensures var txs, txs' := r.txs, Play(DEBITS, r, es).txs;
      |txs'| == |txs|
      && forall i :: 0 <= i < |txs| ==> txs'[i].user == txs[i].user && txs'[i].price == txs[i].price
  {
    hide Happen;
    if es == [] {
    } else {
      PlaySameDebits(r, es[..|es| - 1]);
      SameDebits(Play(DEBITS, r, es[..|es| - 1]), es[|es| - 1]);
    }
  }

  /** In no schedule does the user's balance go below zero. */
  ghost predicate NeverOverdrawn(w: Wallet, txs: seq<Debit>, user: UserId)
    requires user < |w.balance|
  {
    forall es {:trigger Play(DEBITS, Race(w, txs), es)} ::
      user < |Play(DEBITS, Race(w, txs), es).w.balance| && 0 <= Play(DEBITS, Race(w, txs), es).w.balance[user]
  }

  /** Debits that the opening balances cover one by one never overdraw a user, in any schedule, if and only if
      the balance covers all of the user's together: the check of each does not see the others. */
  lemma NeverOverdrawnIff(w: Wallet, txs: seq<Debit>, user: UserId)
    requires AllCovered(w, txs) && user < |w.balance| && forall i :: 0 <= i < |txs| ==> 0 <= txs[i].price
    ensures NeverOverdrawn(w, txs, user) <==> Sum(Asked(txs, user)) <= w.balance[user]
  {
    hide Play, AllCovered, Taken, Asked, Sum;
    CoveredAreFresh(w, txs);
    forall es
      ensures var r := Play(DEBITS, Race(w, txs), es);
        |r.w.balance| == |w.balance| && w.balance[user] - Sum(Asked(txs, user)) <= r.w.balance[user]
    {
      BalanceFalls(w, txs, es, user);
      PlaySameDebits(Race(w, txs), es);
      TakenAtMost(txs, Play(DEBITS, Race(w, txs), es).txs, user);
    }
    AllOverlap(w, txs);
    var es :| CommittedUpTo(txs, Play(DEBITS, Race(w, txs), es), |txs|);
    BalanceFalls(w, txs, es, user);
    TakenAtMost(txs, Play(DEBITS, Race(w, txs), es).txs, user);
  }
}
