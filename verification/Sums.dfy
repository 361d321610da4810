/** Sums of lists of reals. */
module Sums {
  function Total(xs: seq<real>): real {
    if xs == [] then 0.0 else Total(xs[..|xs| - 1]) + xs[|xs| - 1]
  }

  lemma TotalOne(x: real)
    ensures Total([]) == 0.0 && Total([x]) == x
  {
    assert [x][..0] == [];
  }

  lemma {:induction false} TotalConcat(a: seq<real>, b: seq<real>)
    ensures Total(a + b) == Total(a) + Total(b)
  {
    if b == [] {
      assert a + b == a;
    } else {
      TotalConcat(a, b[..|b| - 1]);
      assert (a + b)[..|a + b| - 1] == a + b[..|b| - 1];
    }
  }

  /** Of amounts that are not negative none is larger than the sum. */
  lemma {:induction false} PartOfTotal(xs: seq<real>)
    requires forall i :: 0 <= i < |xs| ==> xs[i] >= 0.0
    ensures Total(xs) >= 0.0 && forall i :: 0 <= i < |xs| ==> xs[i] <= Total(xs)
  {
    if xs != [] {
      PartOfTotal(xs[..|xs| - 1]);
      assert forall i :: 0 <= i < |xs| - 1 ==> xs[..|xs| - 1][i] == xs[i];
    }
  }
}
