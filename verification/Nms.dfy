/** Greedy non-maximum suppression of detected boxes. */
module Nms {
  import opened Options

  datatype Box = Box(x1: real, y1: real, x2: real, y2: real)

  // ---- Overlap ----------------------------------------------------------------------------------

  function Max(a: real, b: real): real { if a >= b then a else b }
  function Min(a: real, b: real): real { if a <= b then a else b }

  function Width(b: Box): real { b.x2 - b.x1 + 1.0 }
  function Height(b: Box): real { b.y2 - b.y1 + 1.0 }

  function Area(b: Box): real {
    Width(b) * Height(b)
  }

  /** The width and the height two boxes have in common. */
  function CommonWidth(a: Box, b: Box): real {
    Max(0.0, Min(a.x2, b.x2) - Max(a.x1, b.x1) + 1.0)
  }

  function CommonHeight(a: Box, b: Box): real {
    Max(0.0, Min(a.y2, b.y2) - Max(a.y1, b.y1) + 1.0)
  }

  function Inter(a: Box, b: Box): real {
    CommonWidth(a, b) * CommonHeight(a, b)
  }

  function Union(a: Box, b: Box): real {
    Area(a) + Area(b) - Inter(a, b)
  }

  /** Whether a box survives next to a better one. A quotient by zero is no number and passes no
    * comparison. */
  predicate Passes(better: Box, b: Box, thr: real) {
    Union(better, b) != 0.0 && Inter(better, b) / Union(better, b) <= thr
  }

  predicate WellFormed(b: Box) {
    b.x1 <= b.x2 && b.y1 <= b.y2
  }

  lemma ProductGrows(a: real, b: real, c: real, d: real)
    requires 0.0 <= a <= c && 0.0 <= b <= d
    ensures 0.0 <= a * b <= c * d
  {
    assert (c - a) * b >= 0.0;
    assert c * (d - b) >= 0.0;
    assert c * d - a * b == (c - a) * b + c * (d - b);
  }

  lemma AtLeastOne(a: real, b: real)
    requires a >= 1.0 && b >= 1.0
    ensures a * b >= 1.0
  {
    assert (a - 1.0) * (b - 1.0) >= 0.0;
    assert a * b == (a - 1.0) * (b - 1.0) + a + b - 1.0;
  }

  lemma InterInside(a: Box, b: Box)
    requires WellFormed(a)
    ensures 0.0 <= Inter(a, b) <= Area(a) && Area(a) >= 1.0
  {
    ProductGrows(CommonWidth(a, b), CommonHeight(a, b), Width(a), Height(a));
    AtLeastOne(Width(a), Height(a));
  }

  lemma InterSymmetric(a: Box, b: Box)
    ensures Inter(a, b) == Inter(b, a)
  {
  }

  /** For well-formed boxes the denominator is positive and the overlap lies between 0 and 1. */
  lemma RatioInRange(a: Box, b: Box)
    requires WellFormed(a) && WellFormed(b)
    ensures Union(a, b) > 0.0
    ensures 0.0 <= Inter(a, b) / Union(a, b) <= 1.0
  {
    InterInside(a, b);
    InterInside(b, a);
    InterSymmetric(a, b);
    Quotient(Inter(a, b), Union(a, b));
  }

  lemma Quotient(i: real, u: real)
    requires 0.0 <= i <= u && u > 0.0
    ensures 0.0 <= i / u <= 1.0
  {
  }

  // ---- The algorithm ----------------------------------------------------------------------------------

  /** Whether the second of two boxes, given by number, survives next to the first. */
  type Relation = (nat, nat) -> bool

  /** The candidates that survive next to box `i`, in order. */
  function Survivors(pass: Relation, i: nat, candidates: seq<nat>): (r: seq<nat>)
    ensures |r| <= |candidates|
  {
    if candidates == [] then []
    else
      var rest, c := Survivors(pass, i, candidates[..|candidates| - 1]), candidates[|candidates| - 1];
      if pass(i, c) then rest + [c] else rest
  }

  /** Keep the best, drop what does not survive next to it, go on with the rest. */
  function Greedy(pass: Relation, order: seq<nat>): seq<nat>
    decreases |order|
  {
    if order == [] then [] else [order[0]] + Greedy(pass, Survivors(pass, order[0], order[1..]))
  }

  function PassIn(boxes: seq<Box>, thr: real): Relation {
    (i: nat, j: nat) => i < |boxes| && j < |boxes| && Passes(boxes[i], boxes[j], thr)
  }

  predicate InRange(order: seq<nat>, n: nat) {
    forall k :: 0 <= k < |order| ==> order[k] < n
  }

  lemma {:induction false} SurvivorsInRange(pass: Relation, i: nat, candidates: seq<nat>, n: nat)
    requires InRange(candidates, n)
    ensures InRange(Survivors(pass, i, candidates), n)
  {
    if candidates != [] {
      SurvivorsInRange(pass, i, candidates[..|candidates| - 1], n);
    }
  }

  /** `nms`, from the order of descending scores on. */
  method Nms(boxes: seq<Box>, order0: seq<nat>, thr: real) returns (keep: seq<nat>)
    requires InRange(order0, |boxes|)
    ensures keep == Greedy(PassIn(boxes, thr), order0)
  {
    keep := [];
    var order := order0;
    ghost var pass := PassIn(boxes, thr);
    while |order| > 0
      invariant InRange(order, |boxes|)
      invariant Greedy(pass, order0) == keep + Greedy(pass, order)
      decreases |order|
    {
      hide PassIn, Survivors, Passes;
      var i, rest := order[0], order[1..];
      keep := keep + [i];
      order := SurvivorsOf(boxes, i, rest, thr);
      SurvivorsInRange(pass, i, rest, |boxes|);
    }
  }

  method SurvivorsOf(boxes: seq<Box>, i: nat, rest: seq<nat>, thr: real) returns (left: seq<nat>)
    requires i < |boxes| && InRange(rest, |boxes|)
    ensures left == Survivors(PassIn(boxes, thr), i, rest)
  {
    left := [];
    for k := 0 to |rest|
      invariant left == Survivors(PassIn(boxes, thr), i, rest[..k])
    {
      assert rest[..k + 1][..k] == rest[..k];
      var inter := Inter(boxes[i], boxes[rest[k]]);
      var union := Area(boxes[i]) + Area(boxes[rest[k]]) - inter;
      if union != 0.0 && inter / union <= thr {
        left := left + [rest[k]];
      }
    }
    assert rest[..|rest|] == rest;
  }

  // ---- What it computes ----------------------------------------------------------------------------------

  predicate AllPass(pass: Relation, kept: seq<nat>, c: nat) {
    forall k :: 0 <= k < |kept| ==> pass(kept[k], c)
  }

  /** The simple form: going down the order, keep what survives next to everything kept so far. */
  function Kept(pass: Relation, order: seq<nat>): seq<nat> {
    if order == [] then []
    else
      var before, c := Kept(pass, order[..|order| - 1]), order[|order| - 1];
      if AllPass(pass, before, c) then before + [c] else before
  }

  lemma {:induction false} KeptAfterBest(pass: Relation, best: nat, tail: seq<nat>)
    ensures Kept(pass, [best] + tail) == [best] + Kept(pass, Survivors(pass, best, tail))
  {
    var order := [best] + tail;
    if tail == [] {
      assert order[..0] == [];
      assert Kept(pass, order) == [best];
    } else {
      var init, c := tail[..|tail| - 1], tail[|tail| - 1];
      KeptAfterBest(pass, best, init);
      assert order[..|order| - 1] == [best] + init && order[|order| - 1] == c;
      var left := Survivors(pass, best, init);
      assert AllPass(pass, [best] + Kept(pass, left), c) <==> pass(best, c) && AllPass(pass, Kept(pass, left), c) by {
        AllPassCons(pass, best, Kept(pass, left), c);
      }
      assert (left + [c])[..|left|] == left;
    }
  }

  lemma AllPassCons(pass: Relation, best: nat, kept: seq<nat>, c: nat)
    ensures AllPass(pass, [best] + kept, c) <==> pass(best, c) && AllPass(pass, kept, c)
  {
    var all := [best] + kept;
    if AllPass(pass, all, c) {
      assert pass(all[0], c);
      forall k | 0 <= k < |kept| ensures pass(kept[k], c) {
        assert pass(all[k + 1], c);
      }
    }
  }

  /** The greedy algorithm computes the simple form. */
  lemma {:induction false} GreedyIsKept(pass: Relation, order: seq<nat>)
    ensures Greedy(pass, order) == Kept(pass, order)
    decreases |order|
  {
    if order != [] {
      KeptAfterBest(pass, order[0], order[1..]);
      assert order == [order[0]] + order[1..];
      GreedyIsKept(pass, Survivors(pass, order[0], order[1..]));
    }
  }

  /** Every kept box survives next to every better kept one. */
  predicate Compatible(pass: Relation, keep: seq<nat>) {
    forall i, j :: 0 <= i < j < |keep| ==> pass(keep[i], keep[j])
  }

  lemma {:induction false} KeptCompatible(pass: Relation, order: seq<nat>)
    ensures Compatible(pass, Kept(pass, order))
  {
    if order != [] {
      KeptCompatible(pass, order[..|order| - 1]);
    }
  }

  predicate Descending(order: seq<nat>, scores: seq<real>) {
    InRange(order, |scores|) && forall i, j :: 0 <= i < j < |order| ==> scores[order[i]] >= scores[order[j]]
  }

  lemma {:induction false} KeptDescending(pass: Relation, order: seq<nat>, scores: seq<real>)
    requires Descending(order, scores)
    ensures Descending(Kept(pass, order), scores)
    ensures forall k :: 0 <= k < |Kept(pass, order)| ==> Kept(pass, order)[k] in order
  {
    if order != [] {
      var init, c := order[..|order| - 1], order[|order| - 1];
      assert order == init + [c];
      assert forall i :: 0 <= i < |init| ==> init[i] == order[i];
      KeptDescending(pass, init, scores);
      var before := Kept(pass, init);
      forall k | 0 <= k < |before| ensures scores[before[k]] >= scores[c] {
        assert before[k] in init;
        var i :| 0 <= i < |init| && init[i] == before[k];
        assert scores[order[i]] >= scores[order[|order| - 1]];
      }
    }
  }

  /** A dropped box does not survive next to some better box that is kept. */
  lemma {:induction false} DroppedIsSuppressed(pass: Relation, order: seq<nat>, n: nat)
    requires n < |order| && order[n] !in Kept(pass, order)
    ensures exists m :: 0 <= m < n && Suppresses(pass, order, m, n)
  {
    var init, c := order[..|order| - 1], order[|order| - 1];
    var before := Kept(pass, init);
    if n < |init| {
      assert init[n] == order[n];
      DroppedIsSuppressed(pass, init, n);
      var m :| 0 <= m < n && Suppresses(pass, init, m, n);
      assert Suppresses(pass, order, m, n);
    } else {
      var k :| 0 <= k < |before| && !pass(before[k], c);
      KeptFrom(pass, init);
      assert before[k] in init;
      var m :| 0 <= m < |init| && init[m] == before[k];
      assert Suppresses(pass, order, m, n);
    }
  }

  predicate Suppresses(pass: Relation, order: seq<nat>, m: nat, n: nat)
    requires m < |order| && n < |order|
  {
    order[m] in Kept(pass, order) && !pass(order[m], order[n])
  }

  lemma {:induction false} KeptFrom(pass: Relation, order: seq<nat>)
    ensures forall k :: 0 <= k < |Kept(pass, order)| ==> Kept(pass, order)[k] in order
    ensures order != [] ==> Kept(pass, order) != [] && Kept(pass, order)[0] == order[0]
  {
    if order != [] {
      var init := order[..|order| - 1];
      KeptFrom(pass, init);
      assert order == init + [order[|order| - 1]];
    }
  }

  predicate Distinct(order: seq<nat>) {
    forall i, j :: 0 <= i < j < |order| ==> order[i] != order[j]
  }

  /** A set of boxes in which a box is exactly if it survives next to every better box of the set. */
  predicate IsKernel(pass: Relation, order: seq<nat>, kernel: set<nat>) {
    forall n :: 0 <= n < |order| ==> (order[n] in kernel <==> Unsuppressed(pass, order, kernel, n))
  }

  predicate Unsuppressed(pass: Relation, order: seq<nat>, kernel: set<nat>, n: nat)
    requires n < |order|
  {
    forall m :: 0 <= m < n && order[m] in kernel ==> pass(order[m], order[n])
  }

  /** The kept boxes as a set. */
  function KeptSet(pass: Relation, order: seq<nat>): set<nat> {
    set x | x in Kept(pass, order)
  }

  predicate Agrees(order: seq<nat>, kernel: set<nat>, kept: set<nat>) {
    forall n :: 0 <= n < |order| ==> (order[n] in kernel <==> order[n] in kept)
  }

  lemma KernelSnoc(pass: Relation, order: seq<nat>, kernel: set<nat>)
    requires order != []
    ensures var last := |order| - 1;
            IsKernel(pass, order, kernel) <==>
            IsKernel(pass, order[..last], kernel) && (order[last] in kernel <==> Unsuppressed(pass, order, kernel, last))
  {
    var last := |order| - 1;
    var init := order[..last];
    forall n | 0 <= n < last ensures init[n] == order[n] && (Unsuppressed(pass, init, kernel, n) <==> Unsuppressed(pass, order, kernel, n)) {
      assert forall m :: 0 <= m < n ==> init[m] == order[m];
    }
  }

  lemma KeptSetSnoc(pass: Relation, order: seq<nat>)
    requires order != [] && Distinct(order)
    ensures var init, c := order[..|order| - 1], order[|order| - 1];
            var before := KeptSet(pass, init);
            && c !in before
            && KeptSet(pass, order) == if AllPass(pass, Kept(pass, init), c) then before + {c} else before
  {
    var init, c := order[..|order| - 1], order[|order| - 1];
    KeptFrom(pass, init);
    forall n | 0 <= n < |init| ensures init[n] != c {
      assert init[n] == order[n];
    }
  }

  lemma AgreesSnoc(init: seq<nat>, c: nat, kernel: set<nat>, before: set<nat>, after: set<nat>, keeps: bool)
    requires Distinct(init + [c]) && c !in before && after == if keeps then before + {c} else before
    ensures Agrees(init + [c], kernel, after) <==> Agrees(init, kernel, before) && (c in kernel <==> keeps)
  {
    var order := init + [c];
    assert order[|init|] == c;
    assert forall n :: 0 <= n < |init| ==> order[n] == init[n] && order[n] != order[|init|];
  }

  /** That fixes the set: it holds of the kept boxes and of no other set of boxes. */
  lemma {:induction false} KernelIsKept(pass: Relation, order: seq<nat>, kernel: set<nat>)
    requires Distinct(order)
    ensures IsKernel(pass, order, kernel) <==> Agrees(order, kernel, KeptSet(pass, order))
  {
    if order != [] {
      hide IsKernel, KeptSet, Kept, AllPass, Unsuppressed;
      var init, c := order[..|order| - 1], order[|order| - 1];
      KernelIsKept(pass, init, kernel);
      KernelSnoc(pass, order, kernel);
      KeptSetSnoc(pass, order);
      assert order == init + [c];
      AgreesSnoc(init, c, kernel, KeptSet(pass, init), KeptSet(pass, order), AllPass(pass, Kept(pass, init), c));
      if Agrees(init, kernel, KeptSet(pass, init)) {
        SameTest(pass, order, kernel, Kept(pass, init));
      }
    }
  }

  lemma SameTest(pass: Relation, order: seq<nat>, kernel: set<nat>, before: seq<nat>)
    requires order != [] && before == Kept(pass, order[..|order| - 1])
    requires Agrees(order[..|order| - 1], kernel, KeptSet(pass, order[..|order| - 1]))
    ensures AllPass(pass, before, order[|order| - 1]) <==> Unsuppressed(pass, order, kernel, |order| - 1)
  {
    var init, c := order[..|order| - 1], order[|order| - 1];
    KeptFrom(pass, init);
    if Unsuppressed(pass, order, kernel, |order| - 1) {
      forall k | 0 <= k < |before| ensures pass(before[k], c) {
        assert before[k] in init;
        var m :| 0 <= m < |init| && init[m] == before[k];
        assert order[m] == init[m] && init[m] in KeptSet(pass, init);
      }
    }
    if AllPass(pass, before, c) {
      forall m | 0 <= m < |order| - 1 && order[m] in kernel ensures pass(order[m], c) {
        assert init[m] == order[m];
        var k :| 0 <= k < |before| && before[k] == order[m];
        assert pass(before[k], c);
      }
    }
  }

  lemma {:induction false} CompatibleStays(pass: Relation, keep: seq<nat>)
    requires Compatible(pass, keep)
    ensures Kept(pass, keep) == keep
  {
    if keep != [] {
      CompatibleStays(pass, keep[..|keep| - 1]);
    }
  }

  lemma PassesSymmetric(a: Box, b: Box, thr: real)
    ensures Passes(a, b, thr) <==> Passes(b, a, thr)
  {
    InterSymmetric(a, b);
  }

  /** Two places with one value, in a list and hence in any other order of it. */
  lemma TwoPlaces(s: seq<nat>, i: nat, j: nat)
    requires i < j < |s| && s[i] == s[j]
    ensures multiset(s)[s[i]] >= 2
  {
    assert s == s[..j] + s[j..];
    assert s[..j][i] == s[i] && s[j..][0] == s[i];
    assert s[i] in multiset(s[..j]) && s[i] in multiset(s[j..]);
  }

  lemma OtherPlace(s: seq<nat>, p: nat) returns (q: nat)
    requires p < |s| && multiset(s)[s[p]] >= 2
    ensures q < |s| && q != p && s[q] == s[p]
  {
    assert s == s[..p] + [s[p]] + s[p + 1..];
    if s[p] in multiset(s[..p]) {
      q :| 0 <= q < p && s[..p][q] == s[p];
    } else {
      assert s[p] in multiset(s[p + 1..]);
      var k :| 0 <= k < |s[p + 1..]| && s[p + 1..][k] == s[p];
      q := p + 1 + k;
    }
  }

  /** Kept boxes do not suppress one another, whichever comes first. */
  lemma CompatibleInAnyOrder(boxes: seq<Box>, thr: real, keep: seq<nat>, again: seq<nat>)
    requires Compatible(PassIn(boxes, thr), keep) && multiset(again) == multiset(keep)
    ensures Compatible(PassIn(boxes, thr), again)
  {
    var pass := PassIn(boxes, thr);
    forall i, j | 0 <= i < j < |again| ensures pass(again[i], again[j]) {
      assert again[i] in multiset(again) && again[j] in multiset(again);
      var p :| 0 <= p < |keep| && keep[p] == again[i];
      var q :| 0 <= q < |keep| && keep[q] == again[j];
      if p == q {
        TwoPlaces(again, i, j);
        q := OtherPlace(keep, p);
      }
      assert if p < q then pass(keep[p], keep[q]) else pass(keep[q], keep[p]);
      PassesSymmetric(boxes[again[i]], boxes[again[j]], thr);
    }
  }

  /** A second run, on what the first has kept and in whatever order it is sorted then, keeps it all. */
  lemma NmsIsIdempotent(boxes: seq<Box>, thr: real, order: seq<nat>, again: seq<nat>)
    requires multiset(again) == multiset(Greedy(PassIn(boxes, thr), order))
    ensures Greedy(PassIn(boxes, thr), again) == again
  {
    var pass := PassIn(boxes, thr);
    GreedyIsKept(pass, order);
    KeptCompatible(pass, order);
    CompatibleInAnyOrder(boxes, thr, Kept(pass, order), again);
    CompatibleStays(pass, again);
    GreedyIsKept(pass, again);
  }

  /** What `nms` returns for boxes in descending order of their scores. */
  lemma NmsIsCorrect(boxes: seq<Box>, scores: seq<real>, order: seq<nat>, thr: real)
    requires |scores| == |boxes| && Descending(order, scores)
    ensures var keep := Greedy(PassIn(boxes, thr), order);
            && Descending(keep, scores)
            && (order != [] ==> keep != [])
            && (forall k :: 0 <= k < |keep| ==> keep[k] in order)
            && (forall i, j :: 0 <= i < j < |keep| ==> Passes(boxes[keep[i]], boxes[keep[j]], thr))
            && forall n :: 0 <= n < |order| && order[n] !in keep ==>
                 exists m :: 0 <= m < n && order[m] in keep && !Passes(boxes[order[m]], boxes[order[n]], thr)
  {
    var pass := PassIn(boxes, thr);
    GreedyIsKept(pass, order);
    KeptDescending(pass, order, scores);
    KeptFrom(pass, order);
    KeptCompatible(pass, order);
    var keep := Kept(pass, order);
    forall i, j | 0 <= i < j < |keep| ensures Passes(boxes[keep[i]], boxes[keep[j]], thr) {
      assert pass(keep[i], keep[j]);
    }
    forall n | 0 <= n < |order| && order[n] !in keep
      ensures exists m :: 0 <= m < n && order[m] in keep && !Passes(boxes[order[m]], boxes[order[n]], thr)
    {
      DroppedIsSuppressed(pass, order, n);
      var m :| 0 <= m < n && Suppresses(pass, order, m, n);
    }
  }

  // ---- Several classes ------------------------------------------------------------------------------------

  /** `argsort()[::-1]`: some order of descending scores that has every position once. */
  ghost predicate Sorts(argsort: seq<real> -> seq<nat>) {
    forall scores: seq<real> :: IsSortOf(argsort(scores), scores)
  }

  ghost predicate IsSortOf(order: seq<nat>, scores: seq<real>) {
    && |order| == |scores|
    && Distinct(order)
    && Descending(order, scores)
    && forall k :: 0 <= k < |scores| ==> k in order
  }

  /** A detection: which box, of which class. */
  type Detection = (nat, nat)

  /** The first class with the highest score. */
  function ArgMax(row: seq<real>): (c: nat)
    requires row != []
    ensures c < |row|
  {
    if |row| == 1 then 0
    else
      var c := ArgMax(row[..|row| - 1]);
      if row[|row| - 1] > row[c] then |row| - 1 else c
  }

  lemma {:induction false} ArgMaxIsFirstHighest(row: seq<real>)
    requires row != []
    ensures forall k :: 0 <= k < |row| ==> row[k] <= row[ArgMax(row)]
    ensures forall k :: 0 <= k < ArgMax(row) ==> row[k] < row[ArgMax(row)]
  {
    if |row| > 1 {
      ArgMaxIsFirstHighest(row[..|row| - 1]);
    }
  }

  /** Positions whose score is above the threshold. */
  function Above(scores: seq<real>, thr: real): (r: seq<nat>)
    ensures forall k :: 0 <= k < |r| ==> r[k] < |scores| && scores[r[k]] > thr
  {
    if scores == [] then []
    else
      var rest := Above(scores[..|scores| - 1], thr);
      if scores[|scores| - 1] > thr then rest + [|scores| - 1] else rest
  }

  lemma {:induction false} AboveIsAll(scores: seq<real>, thr: real)
    ensures forall k :: 0 <= k < |scores| ==> (k in Above(scores, thr) <==> scores[k] > thr)
    ensures Distinct(Above(scores, thr))
    ensures InRange(Above(scores, thr), |scores|)
  {
    if scores != [] {
      AboveIsAll(scores[..|scores| - 1], thr);
    }
  }

  function At<T>(xs: seq<T>, at: seq<nat>): (r: seq<T>)
    requires InRange(at, |xs|)
    ensures |r| == |at|
  {
    seq(|at|, k requires 0 <= k < |at| => xs[at[k]])
  }

  method SelectAbove(scores: seq<real>, thr: real) returns (at: seq<nat>)
    ensures at == Above(scores, thr)
  {
    at := [];
    for k := 0 to |scores|
      invariant at == Above(scores[..k], thr)
    {
      assert scores[..k + 1][..k] == scores[..k];
      if scores[k] > thr {
        at := at + [k];
      }
    }
    assert scores[..|scores|] == scores;
  }

  /** The boxes kept of one list of scores, by their numbers in the whole. */
  function KeptAbove(boxes: seq<Box>, scores: seq<real>, argsort: seq<real> -> seq<nat>, nmsThr: real, scoreThr: real): seq<nat>
    requires |boxes| == |scores| && InRange(Above(scores, scoreThr), |scores|)
  {
    var at := Above(scores, scoreThr);
    var order := argsort(At(scores, at));
    var keep := Greedy(PassIn(At(boxes, at), nmsThr), order);
    if InRange(keep, |at|) then At(at, keep) else []
  }

  lemma KeepInRange(pass: Relation, order: seq<nat>, n: nat)
    requires InRange(order, n)
    ensures InRange(Greedy(pass, order), n)
  {
    GreedyIsKept(pass, order);
    KeptFrom(pass, order);
    forall k | 0 <= k < |Greedy(pass, order)| ensures Greedy(pass, order)[k] < n {
      assert Greedy(pass, order)[k] in order;
    }
  }

  method NmsAbove(boxes: seq<Box>, scores: seq<real>, argsort: seq<real> -> seq<nat>, nmsThr: real, scoreThr: real)
    returns (at: seq<nat>, kept: seq<nat>)
    requires |boxes| == |scores| && Sorts(argsort)
    ensures at == Above(scores, scoreThr) && InRange(at, |scores|)
    ensures kept == KeptAbove(boxes, scores, argsort, nmsThr, scoreThr)
    ensures kept == [] <==> at == []
    ensures forall k :: 0 <= k < |kept| ==> kept[k] < |scores| && scores[kept[k]] > scoreThr
  {
    AboveIsAll(scores, scoreThr);
    at := SelectAbove(scores, scoreThr);
    var order := argsort(At(scores, at));
    assert IsSortOf(order, At(scores, at));
    var keep := Nms(At(boxes, at), order, nmsThr);
    KeepInRange(PassIn(At(boxes, at), nmsThr), order, |at|);
    GreedyIsKept(PassIn(At(boxes, at), nmsThr), order);
    KeptFrom(PassIn(At(boxes, at), nmsThr), order);
    kept := At(at, keep);
  }

  /** Each box's score in its best class. */
  function BestScores(scores: seq<seq<real>>): (r: seq<real>)
    requires forall k :: 0 <= k < |scores| ==> scores[k] != []
    ensures |r| == |scores|
  {
    seq(|scores|, k requires 0 <= k < |scores| => scores[k][ArgMax(scores[k])])
  }

  lemma BestScoresExact(scores: seq<seq<real>>, k: nat, c: nat)
    requires (forall k :: 0 <= k < |scores| ==> scores[k] != []) && k < |scores| && c < |scores[k]|
    ensures scores[k][c] <= BestScores(scores)[k] && BestScores(scores)[k] in scores[k]
  {
    ArgMaxIsFirstHighest(scores[k]);
  }

  method BestClasses(scores: seq<seq<real>>) returns (classes: seq<nat>, best: seq<real>)
    requires forall k :: 0 <= k < |scores| ==> scores[k] != []
    ensures best == BestScores(scores) && |classes| == |scores|
    ensures forall k :: 0 <= k < |scores| ==> classes[k] == ArgMax(scores[k])
  {
    classes, best := [], [];
    for k := 0 to |scores|
      invariant |classes| == |best| == k
      invariant forall l :: 0 <= l < k ==> classes[l] == ArgMax(scores[l]) && best[l] == scores[l][classes[l]]
    {
      var c := BestClass(scores[k]);
      classes, best := classes + [c], best + [scores[k][c]];
    }
  }

  /** `multiclass_nms_class_agnostic`: each box counts with its best class. There is a result exactly
    * if some box's best score is above the threshold, and then it is not empty, so the name the
    * result is bound to is always bound. */
  method MulticlassAgnostic(boxes: seq<Box>, scores: seq<seq<real>>, argsort: seq<real> -> seq<nat>, nmsThr: real, scoreThr: real)
    returns (dets: Option<seq<Detection>>)
    requires |boxes| == |scores| && Sorts(argsort) && forall k :: 0 <= k < |scores| ==> scores[k] != []
    ensures dets.None? <==> forall k :: 0 <= k < |scores| ==> BestScores(scores)[k] <= scoreThr
    ensures var kept := KeptAbove(boxes, BestScores(scores), argsort, nmsThr, scoreThr);
            dets.Some? ==>
              && dets.value != [] && |dets.value| == |kept|
              && forall n :: 0 <= n < |kept| ==> kept[n] < |scores| && dets.value[n] == (kept[n], ArgMax(scores[kept[n]]))
  {
    hide Sorts, KeptAbove, ArgMax, BestScores;
    var classes, best := BestClasses(scores);
    var at, kept := NmsAbove(boxes, best, argsort, nmsThr, scoreThr);
    NoneAbove(best, scoreThr, at);
    if at == [] {
      return None;
    }
    var found: seq<Detection> := [];
    for n := 0 to |kept|
      invariant |found| == n
      invariant forall l :: 0 <= l < n ==> found[l] == (kept[l], classes[kept[l]])
    {
      found := found + [(kept[n], classes[kept[n]])];
    }
    dets := Some(found);
  }

  method BestClass(row: seq<real>) returns (c: nat)
    requires row != []
    ensures c == ArgMax(row)
  {
    c := 0;
    for k := 1 to |row|
      invariant c < k && c == ArgMax(row[..k])
    {
      assert row[..k + 1][..k] == row[..k];
      if row[k] > row[c] {
        c := k;
      }
    }
    assert row[..|row|] == row;
  }

  function Column(scores: seq<seq<real>>, c: nat): (r: seq<real>)
    requires forall k :: 0 <= k < |scores| ==> c < |scores[k]|
    ensures |r| == |scores|
  {
    seq(|scores|, k requires 0 <= k < |scores| => scores[k][c])
  }

  function Tagged(kept: seq<nat>, c: nat): seq<Detection> {
    seq(|kept|, k requires 0 <= k < |kept| => (kept[k], c))
  }

  lemma TaggedLength(kept: seq<nat>, c: nat)
    ensures |Tagged(kept, c)| == |kept|
  {
  }

  /** Detections of the classes below `n`, class after class. */
  function ByClass(boxes: seq<Box>, scores: seq<seq<real>>, argsort: seq<real> -> seq<nat>, nmsThr: real,
                   scoreThr: real, n: nat): seq<Detection>
    requires |boxes| == |scores| && forall k :: 0 <= k < |scores| ==> n <= |scores[k]|
  {
    if n == 0 then []
    else
      var column := Column(scores, n - 1);
      AboveIsAll(column, scoreThr);
      ByClass(boxes, scores, argsort, nmsThr, scoreThr, n - 1)
      + Tagged(KeptAbove(boxes, column, argsort, nmsThr, scoreThr), n - 1)
  }

  /** No score of the first `n` classes is above the threshold. */
  predicate NothingAbove(scores: seq<seq<real>>, n: nat, thr: real)
    requires forall k :: 0 <= k < |scores| ==> n <= |scores[k]|
  {
    forall k, c :: 0 <= k < |scores| && 0 <= c < n ==> scores[k][c] <= thr
  }

  lemma OneMoreClass(scores: seq<seq<real>>, n: nat, thr: real)
    requires forall k :: 0 <= k < |scores| ==> n < |scores[k]|
    ensures NothingAbove(scores, n + 1, thr) <==>
            NothingAbove(scores, n, thr) && forall k :: 0 <= k < |scores| ==> Column(scores, n)[k] <= thr
  {
    if NothingAbove(scores, n, thr) && forall k :: 0 <= k < |scores| ==> Column(scores, n)[k] <= thr {
      forall k, c | 0 <= k < |scores| && 0 <= c < n + 1 ensures scores[k][c] <= thr {
        assert Column(scores, n)[k] == scores[k][n];
      }
    }
  }

  /** `multiclass_nms_class_aware`: suppression within each class. There is no result exactly if no
    * score of any class is above the threshold. */
  method MulticlassAware(boxes: seq<Box>, scores: seq<seq<real>>, classes: nat, argsort: seq<real> -> seq<nat>,
                         nmsThr: real, scoreThr: real)
    returns (dets: Option<seq<Detection>>)
    requires |boxes| == |scores| && Sorts(argsort) && forall k :: 0 <= k < |scores| ==> |scores[k]| == classes
    ensures dets.None? <==> NothingAbove(scores, classes, scoreThr)
    ensures dets.Some? ==> dets.value == ByClass(boxes, scores, argsort, nmsThr, scoreThr, classes)
  {
    hide Sorts, KeptAbove, NothingAbove, Column, InRange, Above, Tagged;
    var all: seq<Detection> := [];
    NothingAtFirst(scores, scoreThr);
    for c := 0 to classes
      invariant all == ByClass(boxes, scores, argsort, nmsThr, scoreThr, c)
      invariant all == [] <==> NothingAbove(scores, c, scoreThr)
    {
      var column := Column(scores, c);
      AboveIsAll(column, scoreThr);
      var at, kept := NmsAbove(boxes, column, argsort, nmsThr, scoreThr);
      NoneAbove(column, scoreThr, at);
      OneMoreClass(scores, c, scoreThr);
      TaggedLength(kept, c);
      all := all + Tagged(kept, c);
    }
    dets := if all == [] then None else Some(all);
  }

  lemma NothingAtFirst(scores: seq<seq<real>>, thr: real)
    ensures NothingAbove(scores, 0, thr)
  {
  }

  lemma NoneAbove(scores: seq<real>, thr: real, at: seq<nat>)
    requires at == Above(scores, thr)
    ensures at == [] <==> forall k :: 0 <= k < |scores| ==> scores[k] <= thr
  {
    AboveIsAll(scores, thr);
    if at != [] {
      assert at[0] in at;
    }
  }
}
