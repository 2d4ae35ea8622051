/** Deadlocks of release transactions on the users' rows: a finalize credits its losers in the order of its list and
    keeps each user's row until it ends. */
module ReleaseDeadlock {
  import opened Schema
  import opened Schedules
  import opened WalletMoves
  import opened ReleaseRace

  /** The transaction waits for a user's row that another one holds. */
  predicate Waits(r: Race, i: nat) {
    && i < |r.txs| && r.txs[i].status == Running && r.txs[i].stage == Counted && r.txs[i].pos < |r.txs[i].ls|
    && !UserFree(r, i, r.txs[i].ls[r.txs[i].pos].userId)
  }

  /** Waiting is standing still, and a running transaction that does not wait has a statement to make. */
  lemma MovesIff(r: Race, i: nat)
    requires i < |r.txs| && r.txs[i].status == Running
    ensures Happen(RELEASES, r, Step(i)) != r <==> !Waits(r, i)
  {
    hide UserFree, Releases, PostAll;
    var r' := Next(r, i);
    assert r' != r ==> r'.txs[i] != r.txs[i] || r'.w != r.w;
    if !Waits(r, i) {
      assert r'.txs[i] != r.txs[i];
    }
  }

  // ---------------------------------------------------------------- who holds what

  /** The loser at `p` is not skipped: no release of it is in the ledger and it does not stand earlier in the
      list. */
  predicate Releasing(ledger: seq<Entry>, ls: seq<LosingBid>, p: nat) {
    p < |ls| && Releases(ledger, ls[p].id) == 0 && forall k :: 0 <= k < p ==> ls[k].id != ls[p].id
  }

  /** The users of the losers before `p` that are not skipped. */
  function Users(ledger: seq<Entry>, ls: seq<LosingBid>, p: nat): set<UserId>
    requires p <= |ls|
  {
    set k | 0 <= k < p && Releasing(ledger, ls, k) :: ls[k].userId
  }

  /** The rows a transaction has inserted when it gets to `p`, as long as nobody commits. */
  function Rows(ledger: seq<Entry>, ls: seq<LosingBid>, p: nat): seq<Entry>
    requires p <= |ls|
  {
    if p == 0 then []
    else Rows(ledger, ls, p - 1) + if Releasing(ledger, ls, p - 1) then [RowOf(ls[p - 1])] else []
  }

  lemma {:induction false} RowsRelease(ledger: seq<Entry>, ls: seq<LosingBid>, p: nat, b: BidId)
    requires p <= |ls|
    ensures Releases(Rows(ledger, ls, p), b) > 0 <==>
      Releases(ledger, b) == 0 && exists k :: 0 <= k < p && ls[k].id == b
  {
    if p == 0 {
    } else {
      RowsRelease(ledger, ls, p - 1, b);
      LedgerAppend(Rows(ledger, ls, p - 1), RowOf(ls[p - 1]), b, 0);
      assert Rows(ledger, ls, p - 1) + [] == Rows(ledger, ls, p - 1);
    }
  }

  /** The count at `p` finds nothing exactly if the loser there is not skipped. */
  lemma CountsNothingIff(ledger: seq<Entry>, ls: seq<LosingBid>, p: nat)
    requires p < |ls|
    ensures Releases(ledger, ls[p].id) + Releases(Rows(ledger, ls, p), ls[p].id) == 0 <==> Releasing(ledger, ls, p)
  {
    RowsRelease(ledger, ls, p, ls[p].id);
  }

  predicate HasUser(es: seq<Entry>, user: UserId) { exists k :: 0 <= k < |es| && es[k].userId == user }

  lemma {:induction false} RowsUsers(ledger: seq<Entry>, ls: seq<LosingBid>, p: nat, user: UserId)
    requires p <= |ls|
    ensures HasUser(Rows(ledger, ls, p), user) <==> user in Users(ledger, ls, p)
  {
    hide Releases;
    if p == 0 {
    } else {
      RowsUsers(ledger, ls, p - 1, user);
      var before := Rows(ledger, ls, p - 1);
      HasUserLast(before, RowOf(ls[p - 1]), user);
      assert before + [] == before;
      assert Users(ledger, ls, p) ==
        Users(ledger, ls, p - 1) + if Releasing(ledger, ls, p - 1) then {ls[p - 1].userId} else {};
    }
  }

  lemma HasUserLast(es: seq<Entry>, e: Entry, user: UserId)
    ensures HasUser(es + [e], user) <==> HasUser(es, user) || e.userId == user
  {
    if HasUser(es, user) {
      var k :| 0 <= k < |es| && es[k].userId == user;
      assert (es + [e])[k].userId == user;
    }
    if e.userId == user {
      assert (es + [e])[|es|].userId == user;
    }
  }

  /** No two running transactions hold the same user's row. */
  ghost predicate Exclusive(r: Race) {
    forall i, j, u: UserId {:trigger LocksUser(r.txs[i], u), LocksUser(r.txs[j], u)} ::
      0 <= i < |r.txs| && 0 <= j < |r.txs| && i != j ==> !(LocksUser(r.txs[i], u) && LocksUser(r.txs[j], u))
  }

  /** An event changes at most one transaction, and gives it a user's row only if that row is free. */
  lemma LocksStep(r: Race, e: Event, u: UserId)
    requires e.i < |r.txs| && LocksUser(Happen(RELEASES, r, e).txs[e.i], u)
    ensures LocksUser(r.txs[e.i], u) || UserFree(r, e.i, u)
  {
    hide Releases, PostAll;
    var t, t' := r.txs[e.i], Happen(RELEASES, r, e).txs[e.i];
    if k :| 0 <= k < |t'.pending| && t'.pending[k].userId == u {
      assert k < |t.pending| ==> t.pending[k] == t'.pending[k];
    }
  }

  lemma OthersStand(r: Race, e: Event)
    ensures var r' := Happen(RELEASES, r, e);
      |r'.txs| == |r.txs| && forall j :: 0 <= j < |r.txs| && j != e.i ==> r'.txs[j] == r.txs[j]
  {
  }

  lemma ExclusiveStep(r: Race, e: Event)
    requires Exclusive(r)
    ensures Exclusive(Happen(RELEASES, r, e))
  {
    hide Happen, LocksUser;
    var r' := Happen(RELEASES, r, e);
    OthersStand(r, e);
    forall i, j, u: UserId | 0 <= i < |r.txs| && 0 <= j < |r.txs| && i != j
      ensures !(LocksUser(r'.txs[i], u) && LocksUser(r'.txs[j], u))
    {
      if LocksUser(r'.txs[i], u) && LocksUser(r'.txs[j], u) {
        if e.i == i || e.i == j {
          LocksStep(r, e, u);
        }
      }
    }
  }

  lemma {:induction false} PlayExclusive(w: Wallet, lists: seq<seq<LosingBid>>, es: seq<Event>)
    ensures Exclusive(Play(RELEASES, Start(w, lists), es))
  {
    hide Happen, Exclusive;
    if es == [] {
      StartExclusive(w, lists);
    } else {
      PlayExclusive(w, lists, es[..|es| - 1]);
      ExclusiveStep(Play(RELEASES, Start(w, lists), es[..|es| - 1]), es[|es| - 1]);
    }
  }

  lemma StartExclusive(w: Wallet, lists: seq<seq<LosingBid>>)
    ensures Exclusive(Start(w, lists))
  {
  }

  // ---------------------------------------------------------------- two transactions

  predicate NoneCommitted(r: Race) { forall i :: 0 <= i < |r.txs| ==> r.txs[i].status != Committed }

  /** A transaction that nobody's commit has disturbed: its rows are those of its list up to its position. */
  predicate TxAt(ledger: seq<Entry>, t: Releaser) {
    && t.pos <= |t.ls| && t.pending == Rows(ledger, t.ls, t.pos)
    && (t.stage != Idle ==> Releasing(ledger, t.ls, t.pos))
  }

  /** As long as nobody committed, the wallet and every transaction's rows are known. */
  predicate Undisturbed(w: Wallet, r: Race) {
    NoneCommitted(r) ==> r.w == w && forall i :: 0 <= i < |r.txs| ==> TxAt(w.ledger, r.txs[i])
  }

  lemma TxAtStep(w: Wallet, r: Race, e: Event)
    requires r.w == w && e.i < |r.txs| && TxAt(w.ledger, r.txs[e.i])
    requires Happen(RELEASES, r, e).txs[e.i].status != Committed
    ensures Happen(RELEASES, r, e).w == w && TxAt(w.ledger, Happen(RELEASES, r, e).txs[e.i])
  {
    hide UserFree, Releases, PostAll, Releasing;
    var t := r.txs[e.i];
    if t.pos < |t.ls| {
      CountsNothingIff(w.ledger, t.ls, t.pos);
      assert t.pending + [] == t.pending;
    }
  }

  lemma UndisturbedStep(w: Wallet, r: Race, e: Event)
    requires Undisturbed(w, r)
    ensures Undisturbed(w, Happen(RELEASES, r, e))
  {
    hide TxAt, Happen;
    var r' := Happen(RELEASES, r, e);
    OthersStand(r, e);
    if e.i >= |r.txs| {
      NobodysEvent(r, e);
    } else if NoneCommitted(r') {
      CommittedStays(r, e);
      TxAtStep(w, r, e);
    }
  }

  lemma NobodysEvent(r: Race, e: Event)
    requires e.i >= |r.txs|
    ensures Happen(RELEASES, r, e) == r
  {
  }

  lemma CommittedStays(r: Race, e: Event)
    requires NoneCommitted(Happen(RELEASES, r, e))
    ensures NoneCommitted(r)
  {
    OthersStand(r, e);
    assert e.i < |r.txs| && r.txs[e.i].status == Committed ==> Happen(RELEASES, r, e) == r;
  }

  lemma {:induction false} PlayUndisturbed(w: Wallet, lists: seq<seq<LosingBid>>, es: seq<Event>)
    ensures Undisturbed(w, Play(RELEASES, Start(w, lists), es))
    ensures var r := Play(RELEASES, Start(w, lists), es);
      |r.txs| == |lists| && forall i :: 0 <= i < |lists| ==> r.txs[i].ls == lists[i]
  {
    hide Happen, Undisturbed;
    if es == [] {
      StartUndisturbed(w, lists);
    } else {
      var r := Play(RELEASES, Start(w, lists), es[..|es| - 1]);
      PlayUndisturbed(w, lists, es[..|es| - 1]);
      UndisturbedStep(w, r, es[|es| - 1]);
      SameCount(r, es[|es| - 1]);
    }
  }

  lemma StartUndisturbed(w: Wallet, lists: seq<seq<LosingBid>>)
    ensures Undisturbed(w, Start(w, lists))
  {
  }

  /** One transaction at `p` and the other at `q` hold disjoint users, and each next needs one of the other's. */
  predicate Crosses(ledger: seq<Entry>, la: seq<LosingBid>, lb: seq<LosingBid>, p: nat, q: nat) {
    && Releasing(ledger, la, p) && Releasing(ledger, lb, q)
    && Users(ledger, la, p) !! Users(ledger, lb, q)
    && la[p].userId in Users(ledger, lb, q) && lb[q].userId in Users(ledger, la, p)
  }

  predicate BothWait(r: Race) { Waits(r, 0) && Waits(r, 1) }

  /** A transaction that waits for one of two: the other holds the row it needs, by a row it inserted. */
  lemma WaitsForOther(w: Wallet, r: Race, i: nat, j: nat)
    requires |r.txs| == 2 && {i, j} == {0, 1} && Waits(r, i) && Waits(r, j) && TxAt(w.ledger, r.txs[j])
    ensures r.txs[i].ls[r.txs[i].pos].userId in Users(w.ledger, r.txs[j].ls, r.txs[j].pos)
  {
    hide Rows, Releasing, Users;
    var user := r.txs[i].ls[r.txs[i].pos].userId;
    assert LocksUser(r.txs[j], user);
    assert HasUser(r.txs[j].pending, user);
    RowsUsers(w.ledger, r.txs[j].ls, r.txs[j].pos, user);
  }

  lemma HoldDisjoint(w: Wallet, r: Race)
    requires |r.txs| == 2 && Exclusive(r) && TxAt(w.ledger, r.txs[0]) && TxAt(w.ledger, r.txs[1])
    requires r.txs[0].status == r.txs[1].status == Running
    ensures Users(w.ledger, r.txs[0].ls, r.txs[0].pos) !! Users(w.ledger, r.txs[1].ls, r.txs[1].pos)
  {
    hide Rows, Releasing, Users;
    forall u: UserId
      ensures !(u in Users(w.ledger, r.txs[0].ls, r.txs[0].pos) && u in Users(w.ledger, r.txs[1].ls, r.txs[1].pos))
    {
      RowsUsers(w.ledger, r.txs[0].ls, r.txs[0].pos, u);
      RowsUsers(w.ledger, r.txs[1].ls, r.txs[1].pos, u);
      assert HasUser(r.txs[0].pending, u) ==> LocksUser(r.txs[0], u);
      assert HasUser(r.txs[1].pending, u) ==> LocksUser(r.txs[1], u);
    }
  }

  lemma DeadlockCrosses(w: Wallet, la: seq<LosingBid>, lb: seq<LosingBid>, es: seq<Event>)
    requires BothWait(Play(RELEASES, Start(w, [la, lb]), es))
    ensures exists p, q :: Crosses(w.ledger, la, lb, p, q)
  {
    hide Play, Users, Exclusive, UserFree;
    var r := Play(RELEASES, Start(w, [la, lb]), es);
    PlayUndisturbed(w, [la, lb], es);
    PlayExclusive(w, [la, lb], es);
    assert NoneCommitted(r);
    assert TxAt(w.ledger, r.txs[0]) && TxAt(w.ledger, r.txs[1]);
    WaitsForOther(w, r, 0, 1);
    WaitsForOther(w, r, 1, 0);
    HoldDisjoint(w, r);
    assert Crosses(w.ledger, la, lb, r.txs[0].pos, r.txs[1].pos);
  }

  /** A transaction on its own at `p`. */
  function TxOf(ledger: seq<Entry>, ls: seq<LosingBid>, p: nat): Releaser
    requires p <= |ls|
  {
    Releaser(ls, p, Idle, Rows(ledger, ls, p), Running)
  }

  lemma AdvanceOne(r: Race, i: nat, ls: seq<LosingBid>, p: nat)
    requires i < |r.txs| && p < |ls| && r.txs[i] == TxOf(r.w.ledger, ls, p)
    requires Releasing(r.w.ledger, ls, p) ==> UserFree(r, i, ls[p].userId)
    ensures exists es :: Play(RELEASES, r, es) == r.(txs := r.txs[i := TxOf(r.w.ledger, ls, p + 1)])
  {
    hide Play, Releasing, UserFree, Releases;
    var e, t := Step(i), r.txs[i];
    CountsNothingIff(r.w.ledger, ls, p);
    if Releasing(r.w.ledger, ls, p) {
      TakeLoser(r, i);
      assert Play(RELEASES, r, [e, e, e]) == r.(txs := r.txs[i := TxOf(r.w.ledger, ls, p + 1)]);
    } else {
      PlayOne(RELEASES, r, e);
      assert t.pending + [] == t.pending;
      assert Play(RELEASES, r, [e]) == r.(txs := r.txs[i := TxOf(r.w.ledger, ls, p + 1)]);
    }
  }

  /** A transaction gets to `p` if the users on its way are free. */
  lemma {:induction false} AdvanceTo(r: Race, i: nat, ls: seq<LosingBid>, p: nat)
    requires i < |r.txs| && p <= |ls| && r.txs[i] == TxOf(r.w.ledger, ls, 0)
    requires forall k :: 0 <= k < p && Releasing(r.w.ledger, ls, k) ==> UserFree(r, i, ls[k].userId)
    ensures exists es :: Play(RELEASES, r, es) == r.(txs := r.txs[i := TxOf(r.w.ledger, ls, p)])
  {
    hide Play, TxOf, Releasing;
    if p == 0 {
      PlayNothing(RELEASES, r);
      assert r.txs[i := r.txs[i]] == r.txs;
      assert Play(RELEASES, r, []) == r.(txs := r.txs[i := TxOf(r.w.ledger, ls, 0)]);
    } else {
      AdvanceTo(r, i, ls, p - 1);
      var r1 := r.(txs := r.txs[i := TxOf(r.w.ledger, ls, p - 1)]);
      var e1 :| Play(RELEASES, r, e1) == r1;
      assert Releasing(r.w.ledger, ls, p - 1) ==> UserFree(r1, i, ls[p - 1].userId);
      AdvanceOne(r1, i, ls, p - 1);
      var e2 :| Play(RELEASES, r1, e2) == r1.(txs := r1.txs[i := TxOf(r.w.ledger, ls, p)]);
      PlayConcat(RELEASES, r, e1, e2);
      assert r1.txs[i := TxOf(r.w.ledger, ls, p)] == r.txs[i := TxOf(r.w.ledger, ls, p)];
      assert Play(RELEASES, r, e1 + e2) == r.(txs := r.txs[i := TxOf(r.w.ledger, ls, p)]);
    }
  }

  lemma LocksOf(ledger: seq<Entry>, ls: seq<LosingBid>, p: nat, user: UserId)
    requires p <= |ls|
    ensures LocksUser(TxOf(ledger, ls, p), user) <==> user in Users(ledger, ls, p)
  {
    hide Users, Releasing, Rows;
    RowsUsers(ledger, ls, p, user);
  }

  /** The first runs to its place, then the second to its own. */
  lemma BothAdvance(w: Wallet, la: seq<LosingBid>, lb: seq<LosingBid>, p: nat, q: nat)
    requires p <= |la| && q <= |lb| && Users(w.ledger, la, p) !! Users(w.ledger, lb, q)
    ensures exists es ::
      Play(RELEASES, Start(w, [la, lb]), es) == Race(w, [TxOf(w.ledger, la, p), TxOf(w.ledger, lb, q)])
  {
    hide Play, Releasing, Rows;
    var r0 := Start(w, [la, lb]);
    NoRows(w.ledger, la);
    NoRows(w.ledger, lb);
    assert r0.txs == [TxOf(w.ledger, la, 0), TxOf(w.ledger, lb, 0)];
    AdvanceTo(r0, 0, la, p);
    var r1 := Race(w, [TxOf(w.ledger, la, p), TxOf(w.ledger, lb, 0)]);
    assert r0.txs[0 := TxOf(w.ledger, la, p)] == r1.txs;
    var e1 :| Play(RELEASES, r0, e1) == r1;
    forall k | 0 <= k < q && Releasing(w.ledger, lb, k) ensures UserFree(r1, 1, lb[k].userId) {
      assert lb[k].userId in Users(w.ledger, lb, q);
      LocksOf(w.ledger, la, p, lb[k].userId);
    }
    AdvanceTo(r1, 1, lb, q);
    assert r1.txs[1 := TxOf(w.ledger, lb, q)] == [TxOf(w.ledger, la, p), TxOf(w.ledger, lb, q)];
    var e2 :| Play(RELEASES, r1, e2) == Race(w, [TxOf(w.ledger, la, p), TxOf(w.ledger, lb, q)]);
    PlayConcat(RELEASES, r0, e1, e2);
    assert Play(RELEASES, r0, e1 + e2) == Race(w, [TxOf(w.ledger, la, p), TxOf(w.ledger, lb, q)]);
  }

  lemma NoRows(ledger: seq<Entry>, ls: seq<LosingBid>)
    ensures Rows(ledger, ls, 0) == []
  {
  }

  lemma CrossesDeadlock(w: Wallet, la: seq<LosingBid>, lb: seq<LosingBid>, p: nat, q: nat)
    requires Crosses(w.ledger, la, lb, p, q)
    ensures exists es :: BothWait(Play(RELEASES, Start(w, [la, lb]), es))
  {
    hide Play, Users, Rows, Releases, UserFree;
    var r0, ta, tb := Start(w, [la, lb]), TxOf(w.ledger, la, p), TxOf(w.ledger, lb, q);
    BothAdvance(w, la, lb, p, q);
    var es :| Play(RELEASES, r0, es) == Race(w, [ta, tb]);
    CountsNothingIff(w.ledger, la, p);
    CountsNothingIff(w.ledger, lb, q);
    var ta', tb' := ta.(stage := Counted), tb.(stage := Counted);
    PlayTwo(RELEASES, Race(w, [ta, tb]), Step(0), Step(1));
    assert Happen(RELEASES, Race(w, [ta, tb]), Step(0)) == Race(w, [ta', tb]);
    assert Happen(RELEASES, Race(w, [ta', tb]), Step(1)) == Race(w, [ta', tb']);
    PlayConcat(RELEASES, r0, es, [Step(0), Step(1)]);
    BothHold(w, la, lb, p, q);
    assert BothWait(Play(RELEASES, r0, es + [Step(0), Step(1)]));
  }

  lemma BothHold(w: Wallet, la: seq<LosingBid>, lb: seq<LosingBid>, p: nat, q: nat)
    requires Crosses(w.ledger, la, lb, p, q)
    ensures BothWait(Race(w, [TxOf(w.ledger, la, p).(stage := Counted), TxOf(w.ledger, lb, q).(stage := Counted)]))
  {
    hide Users, Rows, Releases;
    var r := Race(w, [TxOf(w.ledger, la, p).(stage := Counted), TxOf(w.ledger, lb, q).(stage := Counted)]);
    LocksOf(w.ledger, la, p, lb[q].userId);
    LocksOf(w.ledger, lb, q, la[p].userId);
    assert LocksUser(r.txs[1], la[p].userId) && LocksUser(r.txs[0], lb[q].userId);
  }

  /** Two release transactions can deadlock, in some schedule, exactly if there are places in their lists, losers
      skipped that have a release or stand earlier, up to which they share no user and at which each needs a user
      that the other has passed. */
  lemma DeadlockIff(w: Wallet, la: seq<LosingBid>, lb: seq<LosingBid>)
    ensures (exists es :: BothWait(Play(RELEASES, Start(w, [la, lb]), es))) <==>
      (exists p, q :: Crosses(w.ledger, la, lb, p, q))
  {
    hide BothWait, Crosses, Play;
    if es :| BothWait(Play(RELEASES, Start(w, [la, lb]), es)) {
      DeadlockCrosses(w, la, lb, es);
    }
    if p, q :| Crosses(w.ledger, la, lb, p, q) {
      CrossesDeadlock(w, la, lb, p, q);
    }
  }

  /** So two retries of one payload never deadlock. */
  lemma RetriesNeverDeadlock(w: Wallet, ls: seq<LosingBid>, es: seq<Event>)
    ensures !BothWait(Play(RELEASES, Start(w, [ls, ls]), es))
  {
    hide BothWait, Play, Crosses;
    forall p, q ensures !Crosses(w.ledger, ls, ls, p, q) {
      SameListDoesNotCross(w.ledger, ls, p, q);
    }
    DeadlockIff(w, ls, ls);
  }

  lemma SameListDoesNotCross(ledger: seq<Entry>, ls: seq<LosingBid>, p: nat, q: nat)
    ensures !Crosses(ledger, ls, ls, p, q)
  {
    hide Releases;
    if p <= |ls| && q <= |ls| {
      UsersGrow(ledger, ls, p, q);
    }
  }

  lemma UsersGrow(ledger: seq<Entry>, ls: seq<LosingBid>, p: nat, q: nat)
    requires p <= |ls| && q <= |ls|
    ensures Users(ledger, ls, p) <= Users(ledger, ls, q) || Users(ledger, ls, q) <= Users(ledger, ls, p)
  {
    hide Releasing;
    if p <= q {
      assert Users(ledger, ls, p) <= Users(ledger, ls, q);
    } else {
      assert Users(ledger, ls, q) <= Users(ledger, ls, p);
    }
  }

  /** The first loser of a list that is not skipped. */
  predicate FirstIs(ledger: seq<Entry>, ls: seq<LosingBid>, p: nat) {
    Releasing(ledger, ls, p) && forall k :: 0 <= k < p ==> !Releasing(ledger, ls, k)
  }

  /** Nor do two finalizes that begin with the same user, whatever follows: who takes that row first holds the
      other off until it ends. */
  lemma CommonFirstUser(w: Wallet, la: seq<LosingBid>, lb: seq<LosingBid>, a: nat, b: nat, es: seq<Event>)
    requires FirstIs(w.ledger, la, a) && FirstIs(w.ledger, lb, b) && la[a].userId == lb[b].userId
    ensures !BothWait(Play(RELEASES, Start(w, [la, lb]), es))
  {
    hide BothWait, Play, Crosses, FirstIs;
    forall p, q ensures !Crosses(w.ledger, la, lb, p, q) {
      CommonFirstDoesNotCross(w.ledger, la, lb, a, b, p, q);
    }
    DeadlockIff(w, la, lb);
  }

  lemma CommonFirstDoesNotCross(ledger: seq<Entry>, la: seq<LosingBid>, lb: seq<LosingBid>, a: nat, b: nat,
                                p: nat, q: nat)
    requires FirstIs(ledger, la, a) && FirstIs(ledger, lb, b) && la[a].userId == lb[b].userId
    ensures !Crosses(ledger, la, lb, p, q)
  {
    hide Releases, Users;
    if p <= |la| && q <= |lb| && Users(ledger, la, p) != {} && Users(ledger, lb, q) != {} {
      FirstIsPassed(ledger, la, a, p);
      FirstIsPassed(ledger, lb, b, q);
    }
  }

  lemma FirstIsPassed(ledger: seq<Entry>, ls: seq<LosingBid>, a: nat, p: nat)
    requires FirstIs(ledger, ls, a) && p <= |ls| && Users(ledger, ls, p) != {}
    ensures ls[a].userId in Users(ledger, ls, p)
  {
    hide Releases;
    var u :| u in Users(ledger, ls, p);
    var k :| 0 <= k < p && Releasing(ledger, ls, k) && ls[k].userId == u;
    assert a <= k;
  }

  // ---------------------------------------------------------------- any number of transactions

  ghost predicate Injective(rank: UserId -> int) { forall u: UserId, v: UserId :: rank(u) == rank(v) ==> u == v }

  /** The list visits its users in ascending order of the rank. */
  predicate Ascends(rank: UserId -> int, ls: seq<LosingBid>) {
    forall j, k :: 0 <= j < k < |ls| ==> rank(ls[j].userId) <= rank(ls[k].userId)
  }

  /** A transaction holds only users that it has passed. */
  predicate HoldsPassed(t: Releaser) {
    && t.pos <= |t.ls|
    && forall k :: 0 <= k < |t.pending| ==> exists m :: 0 <= m < t.pos && t.ls[m].userId == t.pending[k].userId
  }

  predicate AllHoldPassed(r: Race) { forall i :: 0 <= i < |r.txs| ==> HoldsPassed(r.txs[i]) }

  lemma HoldsPassedStep(r: Race, e: Event)
    requires e.i < |r.txs| && HoldsPassed(r.txs[e.i])
    ensures HoldsPassed(Happen(RELEASES, r, e).txs[e.i])
  {
    hide UserFree, Releases, PostAll;
    var t, t' := r.txs[e.i], Happen(RELEASES, r, e).txs[e.i];
    forall k | 0 <= k < |t'.pending| ensures exists m :: 0 <= m < t'.pos && t'.ls[m].userId == t'.pending[k].userId {
      if k < |t.pending| {
        var m :| 0 <= m < t.pos && t.ls[m].userId == t.pending[k].userId;
        assert m < t'.pos && t'.ls[m].userId == t'.pending[k].userId;
      } else {
        assert t'.ls[t.pos].userId == t'.pending[k].userId;
      }
    }
  }

  lemma HoldsPassedAfter(r: Race, e: Event)
    requires AllHoldPassed(r)
    ensures AllHoldPassed(Happen(RELEASES, r, e))
  {
    hide Happen, HoldsPassed;
    OthersStand(r, e);
    if e.i < |r.txs| {
      HoldsPassedStep(r, e);
    }
  }

  lemma {:induction false} PlayHoldsPassed(w: Wallet, lists: seq<seq<LosingBid>>, es: seq<Event>)
    ensures AllHoldPassed(Play(RELEASES, Start(w, lists), es))
  {
    hide Happen, AllHoldPassed;
    if es == [] {
      StartHoldsPassed(w, lists);
    } else {
      var r := Play(RELEASES, Start(w, lists), es[..|es| - 1]);
      PlayHoldsPassed(w, lists, es[..|es| - 1]);
      HoldsPassedAfter(r, es[|es| - 1]);
    }
  }

  lemma StartHoldsPassed(w: Wallet, lists: seq<seq<LosingBid>>)
    ensures AllHoldPassed(Start(w, lists))
  {
  }

  /** The user at a transaction's position. */
  function Needs(r: Race, i: nat): UserId
    requires i < |r.txs|
  {
    if r.txs[i].pos < |r.txs[i].ls| then r.txs[i].ls[r.txs[i].pos].userId else 0
  }

  /** Among the first `n` transactions, no waiting one needs a higher user. */
  predicate Highest(r: Race, rank: UserId -> int, i: nat, n: nat)
    requires i < |r.txs| && n <= |r.txs|
  {
    Waits(r, i) && forall j :: 0 <= j < n && Waits(r, j) ==> rank(Needs(r, j)) <= rank(Needs(r, i))
  }

  lemma {:induction false} HighestWaiter(r: Race, rank: UserId -> int, n: nat, i: nat) returns (h: nat)
    requires n <= |r.txs| && i < |r.txs| && Waits(r, i)
    ensures h < |r.txs| && Highest(r, rank, h, n)
  {
    hide Waits, Needs;
    if n == 0 {
      h := i;
    } else {
      h := HighestWaiter(r, rank, n - 1, i);
      if Waits(r, n - 1) && rank(Needs(r, h)) < rank(Needs(r, n - 1)) {
        h := n - 1;
      }
    }
  }

  /** A waiting transaction needs a higher user than any that it holds. */
  lemma NeedsHigher(r: Race, rank: UserId -> int, j: nat, user: UserId)
    requires Injective(rank) && Exclusive(r) && j < |r.txs| && LocksUser(r.txs[j], user)
    requires HoldsPassed(r.txs[j]) && Ascends(rank, r.txs[j].ls)
    ensures Waits(r, j) ==> rank(user) < rank(Needs(r, j))
  {
    if Waits(r, j) {
      var t := r.txs[j];
      var k :| 0 <= k < |t.pending| && t.pending[k].userId == user;
      var m :| 0 <= m < t.pos && t.ls[m].userId == t.pending[k].userId;
      assert rank(user) <= rank(Needs(r, j));
      var i :| 0 <= i < |r.txs| && i != j && LocksUser(r.txs[i], Needs(r, j));
      assert user != Needs(r, j);
    }
  }

  /** Whoever holds the row of the highest user waited for does not wait. */
  lemma HolderMoves(r: Race, rank: UserId -> int, i: nat) returns (j: nat)
    requires Injective(rank) && Exclusive(r)
    requires AllHoldPassed(r) && forall k :: 0 <= k < |r.txs| ==> Ascends(rank, r.txs[k].ls)
    requires i < |r.txs| && Highest(r, rank, i, |r.txs|)
    ensures j < |r.txs| && r.txs[j].status == Running && !Waits(r, j)
  {
    hide Injective, Exclusive, HoldsPassed, Ascends;
    var user := Needs(r, i);
    j :| 0 <= j < |r.txs| && j != i && LocksUser(r.txs[j], user);
    NeedsHigher(r, rank, j, user);
  }

  /** If all lists visit their users in ascending order of one rank, no schedule of any number of release
      transactions gets stuck: while one is running, some running one has a statement to make. */
  lemma AscendingNeverDeadlocks(w: Wallet, lists: seq<seq<LosingBid>>, rank: UserId -> int, es: seq<Event>, i: nat)
    requires Injective(rank) && forall k :: 0 <= k < |lists| ==> Ascends(rank, lists[k])
    requires var r := Play(RELEASES, Start(w, lists), es); i < |r.txs| && r.txs[i].status == Running
    ensures var r := Play(RELEASES, Start(w, lists), es);
      exists j :: 0 <= j < |r.txs| && r.txs[j].status == Running && Happen(RELEASES, r, Step(j)) != r
  {
    hide Play, Exclusive, HoldsPassed, Ascends, Injective, Waits, Happen, Needs;
    var r := Play(RELEASES, Start(w, lists), es);
    PlayUndisturbed(w, lists, es);
    PlayExclusive(w, lists, es);
    PlayHoldsPassed(w, lists, es);
    if Waits(r, i) {
      var h := HighestWaiter(r, rank, |r.txs|, i);
      var j := HolderMoves(r, rank, h);
      MovesIff(r, j);
    } else {
      MovesIff(r, i);
    }
  }

  // ---------------------------------------------------------------- a deadlock

  /** Two finalizes of two losers each, of two users in opposite order: each takes its first user, then reaches
      for its second. */
  function OppositeOrder(): seq<Event> {
    [Step(0), Step(0), Step(0)] + [Step(1), Step(1), Step(1)] + [Step(0), Step(1)]
  }

  /** In that schedule each waits for the other and neither can move: the database has to abort one. */
  lemma FinalizesDeadlock(w: Wallet, a: LosingBid, b: LosingBid, c: LosingBid, d: LosingBid)
    requires a.userId == d.userId != b.userId == c.userId
    requires a.id != b.id && a.id != d.id && c.id != d.id && c.id != b.id
    requires forall l :: l in [a, b, c, d] ==> Releases(w.ledger, l.id) == 0
    ensures var r := Play(RELEASES, Start(w, [[a, b], [c, d]]), OppositeOrder());
      Waits(r, 0) && Waits(r, 1) && Happen(RELEASES, r, Step(0)) == r && Happen(RELEASES, r, Step(1)) == r
  {
    hide Play;
    assert a in [a, b, c, d] && b in [a, b, c, d] && c in [a, b, c, d] && d in [a, b, c, d];
    var first, second := [Step(0), Step(0), Step(0)], [Step(1), Step(1), Step(1)];
    var r0 := Start(w, [[a, b], [c, d]]);
    assert OppositeOrder() == first + (second + [Step(0), Step(1)]);
    PlayConcat(RELEASES, r0, first, second + [Step(0), Step(1)]);
    TakeLoser(r0, 0);
    var t0, t1 := Releaser([a, b], 1, Idle, [RowOf(a)], Running), Releaser([c, d], 1, Idle, [RowOf(c)], Running);
    var r1 := Race(w, [t0, r0.txs[1]]);
    assert [] + [RowOf(a)] == [RowOf(a)] && [] + [RowOf(c)] == [RowOf(c)];
    assert r0.txs[0 := t0] == r1.txs;
    PlayConcat(RELEASES, r1, second, [Step(0), Step(1)]);
    TakeLoser(r1, 1);
    var r2 := Race(w, [t0, t1]);
    assert r1.txs[1 := t1] == r2.txs;
    PlayTwo(RELEASES, r2, Step(0), Step(1));
    OneRow(a, b.id);
    OneRow(c, d.id);
    var r3 := Race(w, [t0.(stage := Counted), t1]);
    assert Happen(RELEASES, r2, Step(0)) == r3;
    var r4 := Race(w, [t0.(stage := Counted), t1.(stage := Counted)]);
    assert Happen(RELEASES, r3, Step(1)) == r4;
    assert LocksUser(r4.txs[1], b.userId) && LocksUser(r4.txs[0], d.userId) by {
      assert r4.txs[1].pending[0].userId == b.userId && r4.txs[0].pending[0].userId == d.userId;
    }
  }

  lemma OneRow(l: LosingBid, b: BidId)
    requires l.id != b
    ensures Releases([RowOf(l)], b) == 0
  {
    LedgerAppend([], RowOf(l), b, 0);
    assert [] + [RowOf(l)] == [RowOf(l)];
  }
}
