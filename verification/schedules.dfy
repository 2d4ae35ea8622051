/** Schedules of concurrent transactions: the events, and playing them one after another on any kind of state. */
module Schedules {
  datatype Status = Running | Committed | Aborted

  /** A transaction's next statement runs, or it fails: an exception, a crash, a deadlock resolved against it. */
  datatype Event = Step(i: nat) | Abort(i: nat)

  /** What the two kinds of event do to a state. */
  datatype Rules<!S> = Rules(step: (S, nat) -> S, abort: (S, nat) -> S)

  function Happen<S>(rules: Rules<S>, s: S, e: Event): S {
    match e
    case Step(i) => rules.step(s, i)
    case Abort(i) => rules.abort(s, i)
  }

  function Play<S>(rules: Rules<S>, s: S, es: seq<Event>): S {
    if es == [] then s else Happen(rules, Play(rules, s, es[..|es| - 1]), es[|es| - 1])
  }

  lemma PlayNothing<S>(rules: Rules<S>, s: S)
    ensures Play(rules, s, []) == s
  {
  }

  lemma PlayNext<S>(rules: Rules<S>, s: S, es: seq<Event>, e: Event)
    ensures Play(rules, s, es + [e]) == Happen(rules, Play(rules, s, es), e)
  {
    hide Happen;
    assert (es + [e])[..|es + [e]| - 1] == es;
  }

  lemma {:induction false} PlayConcat<S>(rules: Rules<S>, s: S, e1: seq<Event>, e2: seq<Event>)
    ensures Play(rules, s, e1 + e2) == Play(rules, Play(rules, s, e1), e2)
  {
    hide Happen;
    if e2 == [] {
      assert e1 + e2 == e1;
    } else {
      var n := |e2| - 1;
      PlayConcat(rules, s, e1, e2[..n]);
      assert e1 + e2 == e1 + e2[..n] + [e2[n]];
      PlayNext(rules, s, e1 + e2[..n], e2[n]);
    }
  }

  lemma PlayOne<S>(rules: Rules<S>, s: S, e: Event)
    ensures Play(rules, s, [e]) == Happen(rules, s, e)
  {
    hide Happen;
    PlayNext(rules, s, [], e);
    assert [] + [e] == [e];
  }

  lemma PlayTwo<S>(rules: Rules<S>, s: S, a: Event, b: Event)
    ensures Play(rules, s, [a, b]) == Happen(rules, Happen(rules, s, a), b)
  {
    hide Happen;
    PlayOne(rules, s, a);
    PlayNext(rules, s, [a], b);
    assert [a] + [b] == [a, b];
  }

  lemma PlayThree<S>(rules: Rules<S>, s: S, a: Event, b: Event, c: Event)
    ensures Play(rules, s, [a, b, c]) == Happen(rules, Happen(rules, Happen(rules, s, a), b), c)
  {
    hide Happen;
    PlayTwo(rules, s, a, b);
    PlayNext(rules, s, [a, b], c);
    assert [a, b] + [c] == [a, b, c];
  }
}
