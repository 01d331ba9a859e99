/** What a history of events says about a question. */
module Answers {
  import opened Options

  function Or<A>(a: Option<A>, b: Option<A>): Option<A> {
    if a.Some? then a else b
  }

  /** The last answer that an event gives. */
  function Last<E, A>(es: seq<E>, answer: E -> Option<A>): Option<A> {
    if es == [] then None
    else Or(answer(es[|es| - 1]), Last(es[..|es| - 1], answer))
  }

  lemma {:induction false} LastCons<E, A>(es: seq<E>, answer: E -> Option<A>)
    requires es != []
    ensures Last(es, answer) == Or(Last(es[1..], answer), answer(es[0]))
  {
    if |es| > 1 {
      var front := es[..|es| - 1];
      LastCons(front, answer);
      assert front[1..] == es[1..][..|es[1..]| - 1];
    }
  }

  /** If each step records its answer, a run records the last one. */
  lemma LastRecords<E, A>(es: seq<E>, answer: E -> Option<A>, was: Option<A>, next: Option<A>, now: Option<A>)
    requires es != [] && next == Or(answer(es[0]), was) && now == Or(Last(es[1..], answer), next)
    ensures now == Or(Last(es, answer), was)
  {
    LastCons(es, answer);
  }
}
