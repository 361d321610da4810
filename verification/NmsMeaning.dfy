/** What the suppression of boxes means: the overlap in pixels, and the selection among all boxes of an image. */
module NmsMeaning {
  import opened Nms

  // ---- The overlap, counted in pixels ------------------------------------------------------------

  /** A box whose corners are pixels; both corners belong to it. */
  datatype Frame = Frame(x1: int, y1: int, x2: int, y2: int)

  predicate Proper(f: Frame) {
    f.x1 <= f.x2 && f.y1 <= f.y2
  }

  function Pixels(f: Frame): set<(int, int)> {
    set x, y | f.x1 <= x <= f.x2 && f.y1 <= y <= f.y2 :: (x, y)
  }

  function AsBox(f: Frame): Box {
    Box(f.x1 as real, f.y1 as real, f.x2 as real, f.y2 as real)
  }

  function Extent(low: int, high: int): nat {
    if low <= high then high - low + 1 else 0
  }

  lemma {:induction false} ColumnCount(x: int, y1: int, y2: int)
    ensures |Pixels(Frame(x, y1, x, y2))| == Extent(y1, y2)
    decreases Extent(y1, y2)
  {
    if y1 <= y2 {
      ColumnCount(x, y1, y2 - 1);
      assert Pixels(Frame(x, y1, x, y2)) == Pixels(Frame(x, y1, x, y2 - 1)) + {(x, y2)};
    } else {
      assert Pixels(Frame(x, y1, x, y2)) == {};
    }
  }

  lemma {:induction false} PixelCount(f: Frame)
    ensures |Pixels(f)| == Extent(f.x1, f.x2) * Extent(f.y1, f.y2)
    decreases Extent(f.x1, f.x2)
  {
    if f.x1 <= f.x2 {
      var less, column := f.(x2 := f.x2 - 1), f.(x1 := f.x2);
      PixelCount(less);
      ColumnCount(f.x2, f.y1, f.y2);
      assert Pixels(f) == Pixels(less) + Pixels(column);
      assert Pixels(less) !! Pixels(column);
      OneMoreRow(Extent(f.x1, f.x2), Extent(f.y1, f.y2));
    } else {
      assert Pixels(f) == {};
    }
  }

  lemma OneMoreRow(w: nat, h: nat)
    ensures w > 0 ==> (w - 1) * h + h == w * h
  {
  }

  function Common(a: Frame, b: Frame): Frame {
    Frame(if a.x1 >= b.x1 then a.x1 else b.x1, if a.y1 >= b.y1 then a.y1 else b.y1,
          if a.x2 <= b.x2 then a.x2 else b.x2, if a.y2 <= b.y2 then a.y2 else b.y2)
  }

  lemma RealProduct(w: nat, h: nat)
    ensures (w * h) as real == w as real * h as real
  {
  }

  lemma AreaIsPixels(f: Frame)
    requires Proper(f)
    ensures Area(AsBox(f)) == |Pixels(f)| as real
  {
    PixelCount(f);
    RealProduct(Extent(f.x1, f.x2), Extent(f.y1, f.y2));
  }

  lemma CommonExtent(a: Frame, b: Frame)
    ensures CommonWidth(AsBox(a), AsBox(b)) == Extent(Common(a, b).x1, Common(a, b).x2) as real
    ensures CommonHeight(AsBox(a), AsBox(b)) == Extent(Common(a, b).y1, Common(a, b).y2) as real
  {
  }

  lemma CommonPixels(a: Frame, b: Frame)
    ensures Pixels(a) * Pixels(b) == Pixels(Common(a, b))
  {
  }

  lemma InterIsPixels(a: Frame, b: Frame)
    ensures Inter(AsBox(a), AsBox(b)) == |Pixels(a) * Pixels(b)| as real
  {
    hide CommonWidth, CommonHeight, Pixels, Extent, Common;
    var c := Common(a, b);
    CommonExtent(a, b);
    CommonPixels(a, b);
    PixelCount(c);
    RealProduct(Extent(c.x1, c.x2), Extent(c.y1, c.y2));
  }

  /** The test of the suppression is that of intersection over union: a box survives next to a better one exactly if
    * the pixels they have in common are no more than the given part of the pixels that either has. */
  lemma PassesIsPixelRatio(a: Frame, b: Frame, thr: real)
    requires Proper(a) && Proper(b)
    ensures Passes(AsBox(a), AsBox(b), thr) <==> |Pixels(a) * Pixels(b)| as real <= thr * |Pixels(a) + Pixels(b)| as real
  {
    hide Area, Inter, Pixels;
    AreaIsPixels(a);
    AreaIsPixels(b);
    InterIsPixels(a, b);
    RatioInRange(AsBox(a), AsBox(b));
    assert Union(AsBox(a), AsBox(b)) == |Pixels(a) + Pixels(b)| as real;
    Cleared(Inter(AsBox(a), AsBox(b)), Union(AsBox(a), AsBox(b)), thr);
  }

  lemma Cleared(i: real, u: real, thr: real)
    requires u > 0.0
    ensures i / u <= thr <==> i <= thr * u
  {
    assert i / u * u == i;
  }

  // ---- The selection among all boxes ---------------------------------------------------------------

  /** The relation on the boxes picked out is that on the boxes themselves. */
  lemma {:induction false} KeptOfPicked(boxes: seq<Box>, at: seq<nat>, order: seq<nat>, thr: real)
    requires InRange(at, |boxes|) && InRange(order, |at|)
    ensures InRange(Kept(PassIn(At(boxes, at), thr), order), |at|)
    ensures At(at, Kept(PassIn(At(boxes, at), thr), order)) == Kept(PassIn(boxes, thr), At(at, order))
  {
    var pass, whole := PassIn(At(boxes, at), thr), PassIn(boxes, thr);
    if order != [] {
      var init, c := order[..|order| - 1], order[|order| - 1];
      KeptOfPicked(boxes, at, init, thr);
      assert At(at, order)[..|order| - 1] == At(at, init);
      var before := Kept(pass, init);
      SameRelation(boxes, at, before, c, thr);
      assert At(at, before + [c]) == At(at, before) + [at[c]];
    }
  }

  lemma SameRelation(boxes: seq<Box>, at: seq<nat>, before: seq<nat>, c: nat, thr: real)
    requires InRange(at, |boxes|) && InRange(before, |at|) && c < |at|
    ensures AllPass(PassIn(At(boxes, at), thr), before, c) <==> AllPass(PassIn(boxes, thr), At(at, before), at[c])
  {
    hide Passes;
    var pass, whole := PassIn(At(boxes, at), thr), PassIn(boxes, thr);
    forall k | 0 <= k < |before| ensures pass(before[k], c) <==> whole(At(at, before)[k], at[c]) {
    }
    if AllPass(whole, At(at, before), at[c]) {
      forall k | 0 <= k < |before| ensures pass(before[k], c) {
        assert whole(At(at, before)[k], at[c]);
      }
    }
  }

  /** An order of descending scores in which exactly the boxes above the threshold are. */
  ghost predicate IsOrder(order: seq<nat>, scores: seq<real>, thr: real) {
    && Distinct(order)
    && Descending(order, scores)
    && forall k :: 0 <= k < |scores| ==> (k in order <==> scores[k] > thr)
  }

  lemma PickedIff(at: seq<nat>, order: seq<nat>, k: nat)
    requires InRange(order, |at|) && forall i :: 0 <= i < |at| ==> i in order
    ensures k in At(at, order) <==> k in at
  {
    if i :| 0 <= i < |at| && at[i] == k {
      assert i in order;
      var j :| 0 <= j < |order| && order[j] == i;
      assert At(at, order)[j] == k;
    }
  }

  lemma PickedDescending(at: seq<nat>, order: seq<nat>, scores: seq<real>)
    requires InRange(at, |scores|) && Descending(order, At(scores, at))
    ensures Descending(At(at, order), scores)
  {
    var r := At(at, order);
    forall i, j | 0 <= i < j < |r| ensures scores[r[i]] >= scores[r[j]] {
      assert At(scores, at)[order[i]] >= At(scores, at)[order[j]];
    }
  }

  lemma PickedDistinct(at: seq<nat>, order: seq<nat>)
    requires InRange(order, |at|) && Distinct(at) && Distinct(order)
    ensures Distinct(At(at, order))
  {
    var r := At(at, order);
    forall i, j | 0 <= i < j < |r| ensures r[i] != r[j] {
      assert order[i] != order[j];
      assert at[order[i]] != at[order[j]];
    }
  }

  lemma PickedInOrder(scores: seq<real>, thr: real, order: seq<nat>)
    requires InRange(Above(scores, thr), |scores|) && IsSortOf(order, At(scores, Above(scores, thr)))
    ensures IsOrder(At(Above(scores, thr), order), scores, thr)
  {
    hide Distinct, Descending, At;
    AboveIsAll(scores, thr);
    var at := Above(scores, thr);
    InOrder(order, At(scores, at));
    PickedDescending(at, order, scores);
    PickedDistinct(at, order);
    forall k | 0 <= k < |scores| ensures k in At(at, order) <==> scores[k] > thr {
      PickedIff(at, order, k);
    }
  }

  lemma InOrder(order: seq<nat>, scores: seq<real>)
    requires Descending(order, scores)
    ensures InRange(order, |scores|)
  {
  }

  /** What is kept are numbers in the whole list, and they are what the simple form keeps of all boxes above the score
    * threshold, taken in descending order of their scores. */
  lemma KeptAboveIsKept(boxes: seq<Box>, scores: seq<real>, argsort: seq<real> -> seq<nat>, nmsThr: real, scoreThr: real)
    returns (order: seq<nat>)
    requires |boxes| == |scores| && Sorts(argsort) && InRange(Above(scores, scoreThr), |scores|)
    ensures IsOrder(order, scores, scoreThr)
    ensures KeptAbove(boxes, scores, argsort, nmsThr, scoreThr) == Kept(PassIn(boxes, nmsThr), order)
  {
    var at := Above(scores, scoreThr);
    var sorted := argsort(At(scores, at));
    assert IsSortOf(sorted, At(scores, at));
    order := At(at, sorted);
    PickedInOrder(scores, scoreThr, sorted);
    KeptOfPicked(boxes, at, sorted, nmsThr);
    GreedyIsKept(PassIn(At(boxes, at), nmsThr), sorted);
  }

  // ---- Class by class -----------------------------------------------------------------------------------

  /** With suppression within each class, a box is reported for a class exactly if it is kept among the boxes with their
    * scores for that class; classes come in their order. */
  lemma {:induction false} ByClassExact(boxes: seq<Box>, scores: seq<seq<real>>, argsort: seq<real> -> seq<nat>, nmsThr: real,
                                        scoreThr: real, n: nat, k: nat, c: nat)
    requires |boxes| == |scores| && (forall k :: 0 <= k < |scores| ==> n <= |scores[k]|) && c < n
    requires InRange(Above(OfClass(scores, c), scoreThr), |scores|)
    ensures (k, c) in ByClass(boxes, scores, argsort, nmsThr, scoreThr, n) <==>
            k in KeptAbove(boxes, OfClass(scores, c), argsort, nmsThr, scoreThr)
    ensures InClassOrder(ByClass(boxes, scores, argsort, nmsThr, scoreThr, n), n)
  {
    hide KeptAbove, Above;
    ClassesInOrder(boxes, scores, argsort, nmsThr, scoreThr, n);
    var last := n - 1;
    AboveIsAll(Column(scores, last), scoreThr);
    var kept := KeptAbove(boxes, Column(scores, last), argsort, nmsThr, scoreThr);
    var init, tail := ByClass(boxes, scores, argsort, nmsThr, scoreThr, last), Tagged(kept, last);
    assert forall x :: x in init + tail <==> x in init || x in tail;
    ClassesInOrder(boxes, scores, argsort, nmsThr, scoreThr, last);
    if c < last {
      ByClassExact(boxes, scores, argsort, nmsThr, scoreThr, last, k, c);
    } else {
      assert OfClass(scores, c) == Column(scores, c);
      if i :| 0 <= i < |kept| && kept[i] == k {
        assert tail[i] == (k, c);
      }
    }
  }

  function OfClass(scores: seq<seq<real>>, c: nat): seq<real>
    requires forall k :: 0 <= k < |scores| ==> c < |scores[k]|
  {
    seq(|scores|, k requires 0 <= k < |scores| => scores[k][c])
  }

  predicate InClassOrder(dets: seq<Detection>, n: nat) {
    && (forall i :: 0 <= i < |dets| ==> dets[i].1 < n)
    && forall i, j :: 0 <= i < j < |dets| ==> dets[i].1 <= dets[j].1
  }

  lemma {:induction false} ClassesInOrder(boxes: seq<Box>, scores: seq<seq<real>>, argsort: seq<real> -> seq<nat>, nmsThr: real,
                                          scoreThr: real, n: nat)
    requires |boxes| == |scores| && forall k :: 0 <= k < |scores| ==> n <= |scores[k]|
    ensures InClassOrder(ByClass(boxes, scores, argsort, nmsThr, scoreThr, n), n)
  {
    hide KeptAbove;
    if n > 0 {
      ClassesInOrder(boxes, scores, argsort, nmsThr, scoreThr, n - 1);
    }
  }
}
