/** Two lists walked side by side. */
module Pairs {
  function Zip<A, B>(a: seq<A>, b: seq<B>): seq<(A, B)> {
    if a == [] || b == [] then [] else [(a[0], b[0])] + Zip(a[1..], b[1..])
  }

  lemma {:induction false} ZipExact<A, B>(a: seq<A>, b: seq<B>)
    ensures |Zip(a, b)| == if |a| <= |b| then |a| else |b|
    ensures forall k :: 0 <= k < |Zip(a, b)| ==> Zip(a, b)[k] == (a[k], b[k])
  {
    if a != [] && b != [] {
      ZipExact(a[1..], b[1..]);
    }
  }
}
