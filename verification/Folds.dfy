/** Steps taken one after the other from a state. */
module Folds {
  function Fold<S, A>(step: (S, A) -> S, s: S, acts: seq<A>): S
    decreases |acts|
  {
    if acts == [] then s else Fold(step, step(s, acts[0]), acts[1..])
  }

  lemma {:induction false} FoldAppend<S, A>(step: (S, A) -> S, s: S, a: seq<A>, b: seq<A>)
    ensures Fold(step, s, a + b) == Fold(step, Fold(step, s, a), b)
    decreases |a|
  {
    if a == [] {
      assert a + b == b;
    } else {
      FoldAppend(step, step(s, a[0]), a[1..], b);
      assert (a + b)[0] == a[0] && (a + b)[1..] == a[1..] + b;
    }
  }

  lemma FoldOne<S, A>(step: (S, A) -> S, s: S, a: A)
    ensures Fold(step, s, [a]) == step(s, a)
  {
    assert [a][1..] == [];
  }

  lemma FoldCons<S, A>(step: (S, A) -> S, s: S, a: A, rest: seq<A>)
    ensures Fold(step, s, [a] + rest) == Fold(step, step(s, a), rest)
  {
    assert ([a] + rest)[1..] == rest;
  }

  lemma FoldSnoc<S, A>(step: (S, A) -> S, s: S, front: seq<A>, a: A)
    ensures Fold(step, s, front + [a]) == step(Fold(step, s, front), a)
  {
    FoldAppend(step, s, front, [a]);
    FoldOne(step, Fold(step, s, front), a);
  }
}
