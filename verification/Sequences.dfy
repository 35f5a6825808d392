/** Regrouping facts about sequences, named so that proofs can ask for exactly the one they need. */
module Sequences {

  lemma Assoc<T>(a: seq<T>, b: seq<T>, c: seq<T>)
    ensures (a + b) + c == a + (b + c)
  {
  }

  lemma Append4<T>(a: seq<T>, b: seq<T>, c: seq<T>, d: seq<T>)
    ensures a + b + c + d == a + (b + c + d)
  {
  }

  /** `a` is `b` with some elements left out, the rest in their order. */
  ghost predicate Sub<T(!new)>(a: seq<T>, b: seq<T>)
    decreases |b|
  {
    a == [] ||
    (b != [] &&
     ((a[|a| - 1] == b[|b| - 1] && Sub(a[..|a| - 1], b[..|b| - 1])) || Sub(a, b[..|b| - 1])))
  }

  lemma SubOneMore<T(!new)>(a: seq<T>, b: seq<T>, x: T)
    requires Sub(a, b)
    ensures Sub(a, b + [x]) && Sub(a + [x], b + [x])
  {
    assert (b + [x])[..|b|] == b && (a + [x])[..|a|] == a;
  }

  /** One more element of the whole, kept or not. */
  lemma SubStep<T(!new)>(a: seq<T>, b: seq<T>, x: T, c: seq<T>, d: seq<T>)
    requires Sub(a, b) && d == b + [x] && (c == a || c == a + [x])
    ensures Sub(c, d)
  {
    SubOneMore(a, b, x);
  }

  lemma {:induction false} SubConcat<T(!new)>(a: seq<T>, b: seq<T>, c: seq<T>, d: seq<T>)
    requires Sub(a, b) && Sub(c, d)
    ensures Sub(a + c, b + d)
    decreases |d|
  {
    if d == [] {
      assert a + c == a && b + d == b;
    } else {
      var init, x := d[..|d| - 1], d[|d| - 1];
      assert b + d == b + init + [x];
      if c != [] && c[|c| - 1] == x && Sub(c[..|c| - 1], init) {
        SubConcat(a, b, c[..|c| - 1], init);
        SubOneMore(a + c[..|c| - 1], b + init, x);
        assert a + c == a + c[..|c| - 1] + [x];
      } else {
        SubConcat(a, b, c, init);
        SubOneMore(a + c, b + init, x);
      }
    }
  }

  lemma {:induction false} SubSelf<T(!new)>(a: seq<T>)
    ensures Sub(a, a)
  {
    if a != [] {
      SubSelf(a[..|a| - 1]);
    }
  }

  lemma {:induction false} SubTrans<T(!new)>(a: seq<T>, b: seq<T>, c: seq<T>)
    requires Sub(a, b) && Sub(b, c)
    ensures Sub(a, c)
    decreases |c|
  {
    if a != [] {
      var ainit, binit, cinit := a[..|a| - 1], b[..|b| - 1], c[..|c| - 1];
      if b[|b| - 1] == c[|c| - 1] && Sub(binit, cinit) {
        if a[|a| - 1] == b[|b| - 1] && Sub(ainit, binit) {
          SubTrans(ainit, binit, cinit);
        } else {
          SubTrans(a, binit, cinit);
        }
      } else {
        SubTrans(a, b, cinit);
      }
    }
  }
}
