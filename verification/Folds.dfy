/** Folding a script of inputs over a state, and induction over such a fold. */
module Folds {

  function Fold<S, E>(next: (S, E) -> S, s: S, script: seq<E>): S {
    if script == [] then s else next(Fold(next, s, script[..|script| - 1]), script[|script| - 1])
  }

  lemma {:induction false} FoldInduction<S(!new), E(!new)>(
    next: (S, E) -> S, s: S, script: seq<E>, p: (S, seq<E>) -> bool)
    requires p(s, [])
    requires forall r, done, e :: p(r, done) ==> p(next(r, e), done + [e])
    ensures p(Fold(next, s, script), script)
  {
    if script != [] {
      var init, last := script[..|script| - 1], script[|script| - 1];
      FoldInduction(next, s, init, p);
      assert p(next(Fold(next, s, init), last), init + [last]);
      assert init + [last] == script;
    }
  }
}
