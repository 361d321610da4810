/** What the test for passing a line tests, against the sides of the line. */
module LineTest {
  import opened VehicleCounting

  function Centre(b: Box): Point {
    Point((b.left + b.right) / 2, (b.top + b.bottom) / 2)
  }

  /** Positive on one side of the line, negative on the other, zero on it. */
  function Side(line: Line, b: Box): int {
    (line.p1.x - line.p0.x) * (Centre(b).y - line.p0.y) - (line.p1.y - line.p0.y) * (Centre(b).x - line.p0.x)
  }

  predicate StrictlyOneSide(line: Line, a: Box, b: Box) {
    Side(line, a) * Side(line, b) > 0
  }

  /** The two products that the test multiplies. */
  function Across(line: Line, a: Box, b: Box): int {
    Toward(line, a).x * Toward(line, b).x
  }

  function Along(line: Line, a: Box, b: Box): int {
    Toward(line, a).y * Toward(line, b).y
  }

  // ---- Signs of products --------------------------------------------------------------------------------

  lemma ProductSign(a: int, b: int)
    ensures a * b > 0 <==> (a > 0 && b > 0) || (a < 0 && b < 0)
    ensures a * b == 0 <==> a == 0 || b == 0
  {
    if a > 0 && b > 0 {
    } else if a < 0 && b < 0 {
      assert a * b == (-a) * (-b);
    } else if a > 0 && b < 0 {
      assert a * b == -(a * (-b));
    } else if a < 0 && b > 0 {
      assert a * b == -((-a) * b);
    }
  }

  /** A common factor other than zero does not matter for the sign. */
  lemma CommonFactor(k: int, a: int, b: int)
    requires k != 0
    ensures (k * a) * (k * b) > 0 <==> a * b > 0
  {
    ProductSign(k, a);
    ProductSign(k, b);
    ProductSign(k * a, k * b);
    ProductSign(a, b);
  }

  lemma SameSideIsProduct(line: Line, a: Box, b: Box)
    ensures SameSide(line, a, b) <==> Across(line, a, b) * Along(line, a, b) > 0
  {
    var u, v := Toward(line, a), Toward(line, b);
    assert u.x * u.y * v.x * v.y == (u.x * v.x) * (u.y * v.y);
  }

  // ---- What is tested: quadrants about the midpoint -----------------------------------------------------

  /** Strictly to the left of the line's midpoint, or strictly to the right. */
  predicate LeftOf(line: Line, b: Box) {
    2 * Centre(b).x < line.p0.x + line.p1.x
  }

  predicate RightOf(line: Line, b: Box) {
    2 * Centre(b).x > line.p0.x + line.p1.x
  }

  predicate AboveIt(line: Line, b: Box) {
    2 * Centre(b).y < line.p0.y + line.p1.y
  }

  predicate BelowIt(line: Line, b: Box) {
    2 * Centre(b).y > line.p0.y + line.p1.y
  }

  predicate SameQuadrant(line: Line, a: Box, b: Box) {
    && ((LeftOf(line, a) && LeftOf(line, b)) || (RightOf(line, a) && RightOf(line, b)))
    && ((AboveIt(line, a) && AboveIt(line, b)) || (BelowIt(line, a) && BelowIt(line, b)))
  }

  predicate OppositeQuadrants(line: Line, a: Box, b: Box) {
    && ((LeftOf(line, a) && RightOf(line, b)) || (RightOf(line, a) && LeftOf(line, b)))
    && ((AboveIt(line, a) && BelowIt(line, b)) || (BelowIt(line, a) && AboveIt(line, b)))
  }

  /** Two boxes count as being on the same side if and only if their centres lie strictly in the same
    * or in opposite quadrants about the midpoint of the line. */
  lemma SameSideIffQuadrants(line: Line, a: Box, b: Box)
    ensures SameSide(line, a, b) <==> SameQuadrant(line, a, b) || OppositeQuadrants(line, a, b)
  {
    var u, v := Toward(line, a), Toward(line, b);
    SameSideIsProduct(line, a, b);
    ProductSign(u.x, v.x);
    ProductSign(u.y, v.y);
    ProductSign(Across(line, a, b), Along(line, a, b));
  }

  /** So the direction of the line does not matter: only the sum of its ends does. */
  lemma OnlyMidpointMatters(boxes: seq<Box>, line: Line, other: Line)
    requires line.p0.x + line.p1.x == other.p0.x + other.p1.x && line.p0.y + line.p1.y == other.p0.y + other.p1.y
    ensures Passing(boxes, line) <==> Passing(boxes, other)
  {
    forall i | 0 <= i < |boxes| ensures Toward(line, boxes[i]) == Toward(other, boxes[i]) {
    }
  }

  // ---- When that agrees with the sides of the line --------------------------------------------------------

  /** Twice the side, from the sums the test uses. */
  function Lean(line: Line, v: Point): int {
    (line.p1.y - line.p0.y) * v.x - (line.p1.x - line.p0.x) * v.y
  }

  lemma SideFromToward(line: Line, b: Box)
    ensures 2 * Side(line, b) == Lean(line, Toward(line, b))
  {
    var dx, dy, c := line.p1.x - line.p0.x, line.p1.y - line.p0.y, Centre(b);
    assert Toward(line, b).x == dx - 2 * (c.x - line.p0.x) && Toward(line, b).y == dy - 2 * (c.y - line.p0.y);
    assert dy * (dx - 2 * (c.x - line.p0.x)) == dy * dx - 2 * (dy * (c.x - line.p0.x));
    assert dx * (dy - 2 * (c.y - line.p0.y)) == dx * dy - 2 * (dx * (c.y - line.p0.y));
  }

  lemma OneSideFromToward(line: Line, a: Box, b: Box)
    ensures StrictlyOneSide(line, a, b) <==> Lean(line, Toward(line, a)) * Lean(line, Toward(line, b)) > 0
  {
    SideFromToward(line, a);
    SideFromToward(line, b);
    CommonFactor(2, Side(line, a), Side(line, b));
  }

  /** On a horizontal line the test is right about two boxes if and only if one of them is level with the
    * line, or they are on one side of it and strictly on one side of its middle, or they are on
    * different sides of it and not strictly on different sides of its middle. */
  lemma RightOnHorizontalIff(line: Line, a: Box, b: Box)
    requires line.p0.y == line.p1.y && line.p0.x != line.p1.x
    ensures var x, y := Across(line, a, b), Along(line, a, b);
            (SameSide(line, a, b) <==> StrictlyOneSide(line, a, b)) <==> y == 0 || (y > 0 && x > 0) || (y < 0 && x >= 0)
  {
    var k, u, v := line.p0.x - line.p1.x, Toward(line, a), Toward(line, b);
    OneSideFromToward(line, a, b);
    CommonFactor(k, u.y, v.y);
    SameSideIsProduct(line, a, b);
    ProductSign(Across(line, a, b), Along(line, a, b));
  }

  /** On a vertical line the same, with the two products exchanged. */
  lemma RightOnVerticalIff(line: Line, a: Box, b: Box)
    requires line.p0.x == line.p1.x && line.p0.y != line.p1.y
    ensures var x, y := Across(line, a, b), Along(line, a, b);
            (SameSide(line, a, b) <==> StrictlyOneSide(line, a, b)) <==> x == 0 || (x > 0 && y > 0) || (x < 0 && y >= 0)
  {
    var k, u, v := line.p1.y - line.p0.y, Toward(line, a), Toward(line, b);
    OneSideFromToward(line, a, b);
    CommonFactor(k, u.x, v.x);
    SameSideIsProduct(line, a, b);
    ProductSign(Across(line, a, b), Along(line, a, b));
  }

  /** The box lies strictly in one of the two quadrants about the midpoint that the line, being oblique, does
    * not run through. */
  predicate OffTheLine(line: Line, b: Box) {
    var dx, dy, v := line.p1.x - line.p0.x, line.p1.y - line.p0.y, Toward(line, b);
    (dx * dy > 0 && v.x * v.y < 0) || (dx * dy < 0 && v.x * v.y > 0)
  }

  /** On an oblique line, two such boxes always count as being on the same side; that is right if and only
    * if they lie in the same quadrant. */
  lemma RightOffTheLineIff(line: Line, a: Box, b: Box)
    requires OffTheLine(line, a) && OffTheLine(line, b)
    ensures SameSide(line, a, b)
    ensures StrictlyOneSide(line, a, b) <==> Across(line, a, b) > 0
  {
    var u, v := Toward(line, a), Toward(line, b);
    OffIsSameSide(line, a, b);
    LeanOffTheLine(line, a);
    LeanOffTheLine(line, b);
    OneSideFromToward(line, a, b);
    ProductSign(Lean(line, u), Lean(line, v));
    ProductSign(u.x, v.x);
  }

  lemma OffIsSameSide(line: Line, a: Box, b: Box)
    requires OffTheLine(line, a) && OffTheLine(line, b)
    ensures SameSide(line, a, b)
  {
    var u, v := Toward(line, a), Toward(line, b);
    hide Toward;
    FourFactors(u.x, u.y, v.x, v.y);
    ProductSign(u.x * u.y, v.x * v.y);
  }

  lemma FourFactors(a: int, b: int, c: int, d: int)
    ensures a * b * c * d == (a * b) * (c * d)
  {
  }

  /** The side of such a box is that of its quadrant. */
  lemma LeanOffTheLine(line: Line, b: Box)
    requires OffTheLine(line, b)
    ensures var dy, v := line.p1.y - line.p0.y, Toward(line, b);
            && v.x != 0
            && (Lean(line, v) > 0 <==> if dy > 0 then v.x > 0 else v.x < 0)
            && (Lean(line, v) < 0 <==> if dy > 0 then v.x < 0 else v.x > 0)
  {
    var dx, dy, v := line.p1.x - line.p0.x, line.p1.y - line.p0.y, Toward(line, b);
    NegativeProduct(dx, dy);
    NegativeProduct(v.x, v.y);
    ProductSign(dx, dy);
    ProductSign(v.x, v.y);
    hide Toward;
    NegativeProduct(dy, v.x);
    ProductSign(dy, v.x);
    NegativeProduct(dx, v.y);
    ProductSign(dx, v.y);
  }

  lemma NegativeProduct(a: int, b: int)
    ensures a * b < 0 <==> (a > 0 && b < 0) || (a < 0 && b > 0)
  {
    ProductSign(a, b);
  }

  // ---- The whole test ------------------------------------------------------------------------------------

  /** What the test would be with the sides of the line: at least six boxes, and the first three and the
    * last three, paired from the outside in, are not strictly on one side. */
  predicate Crossing(boxes: seq<Box>, line: Line) {
    |boxes| >= MIN_BOXES && forall i :: 0 <= i < 3 ==> !StrictlyOneSide(line, boxes[i], boxes[|boxes| - 1 - i])
  }

  predicate OuterPair(boxes: seq<Box>, line: Line, i: nat, across: int -> bool, along: int -> bool)
    requires i < |boxes|
  {
    var a, b := boxes[i], boxes[|boxes| - 1 - i];
    across(Across(line, a, b)) && along(Along(line, a, b))
  }

  /** One of the three outer pairs has products like that. */
  predicate SomePair(boxes: seq<Box>, line: Line, across: int -> bool, along: int -> bool)
    requires |boxes| >= MIN_BOXES
  {
    exists i :: 0 <= i < 3 && OuterPair(boxes, line, i, across, along)
  }

  function Positive(): int -> bool { x => x > 0 }
  function Negative(): int -> bool { x => x < 0 }
  function NotPositive(): int -> bool { x => x <= 0 }

  /** On a horizontal line the whole test agrees with the sides of the line if and only if some pair is on
    * one side both of the line and of its middle, or there is a pair on different sides of both exactly if
    * there is one on one side of the line that is not strictly on one side of its middle. */
  lemma PassingIsCrossingIff(boxes: seq<Box>, line: Line)
    requires line.p0.y == line.p1.y && line.p0.x != line.p1.x && |boxes| >= MIN_BOXES
    ensures (Passing(boxes, line) <==> Crossing(boxes, line)) <==>
            SomePair(boxes, line, Positive(), Positive()) ||
            (SomePair(boxes, line, Negative(), Negative()) <==> SomePair(boxes, line, NotPositive(), Positive()))
  {
    hide SameSide, StrictlyOneSide, Across, Along, OuterPair;
    PairsDecide(boxes, line);
  }

  lemma PairsDecide(boxes: seq<Box>, line: Line)
    requires line.p0.y == line.p1.y && line.p0.x != line.p1.x && |boxes| >= MIN_BOXES
    ensures Passing(boxes, line) <==>
            !SomePair(boxes, line, Positive(), Positive()) && !SomePair(boxes, line, Negative(), Negative())
    ensures Crossing(boxes, line) <==>
            !SomePair(boxes, line, Positive(), Positive()) && !SomePair(boxes, line, NotPositive(), Positive())
  {
    hide SameSide, StrictlyOneSide, Across, Along;
    forall i | 0 <= i < 3
      ensures SameSide(line, boxes[i], boxes[|boxes| - 1 - i]) <==>
              OuterPair(boxes, line, i, Positive(), Positive()) || OuterPair(boxes, line, i, Negative(), Negative())
      ensures StrictlyOneSide(line, boxes[i], boxes[|boxes| - 1 - i]) <==>
              OuterPair(boxes, line, i, Positive(), Positive()) || OuterPair(boxes, line, i, NotPositive(), Positive())
    {
      PairDecides(line, boxes[i], boxes[|boxes| - 1 - i]);
    }
  }

  lemma PairDecides(line: Line, a: Box, b: Box)
    requires line.p0.y == line.p1.y && line.p0.x != line.p1.x
    ensures var x, y := Across(line, a, b), Along(line, a, b);
            && (SameSide(line, a, b) <==> (x > 0 && y > 0) || (x < 0 && y < 0))
            && (StrictlyOneSide(line, a, b) <==> y > 0)
  {
    var k, u, v := line.p0.x - line.p1.x, Toward(line, a), Toward(line, b);
    OneSideFromToward(line, a, b);
    CommonFactor(k, u.y, v.y);
    SameSideIsProduct(line, a, b);
    ProductSign(Across(line, a, b), Along(line, a, b));
  }

  // ---- It misjudges tracks on every line -------------------------------------------------------------------

  /** A well-formed box with a given centre. */
  function Around(c: Point): (b: Box)
    ensures Centre(b) == c
  {
    Box(c.x - 1, c.y - 1, c.x + 1, c.y + 1)
  }

  /** A box for which the test computes the given sums, as long as they are odd or even as those of the
    * ends of the line. */
  lemma BoxToward(line: Line, v: Point) returns (b: Box)
    requires v.x % 2 == (line.p0.x + line.p1.x) % 2 && v.y % 2 == (line.p0.y + line.p1.y) % 2
    ensures Toward(line, b) == v
  {
    b := Around(Point((line.p0.x + line.p1.x - v.x) / 2, (line.p0.y + line.p1.y - v.y) / 2));
  }

  /** Sums that lie off both axes and well away from the line, and their mirror image. */
  lemma FarFrom(line: Line) returns (u: Point, v: Point)
    requires line.p0 != line.p1
    ensures u.x % 2 == (line.p0.x + line.p1.x) % 2 && u.y % 2 == (line.p0.y + line.p1.y) % 2
    ensures u.x > 0 && u.y > 0 && (v == Point(-u.x, u.y) || v == Point(u.x, -u.y))
    ensures Lean(line, u) * Lean(line, v) > 0 && Lean(line, u) != 0
  {
    var dx, dy := line.p1.x - line.p0.x, line.p1.y - line.p0.y;
    u := Point(2 - (line.p0.x + line.p1.x) % 2, 2 - (line.p0.y + line.p1.y) % 2);
    if dx != 0 {
      u := Point(u.x, u.y + 4 * Size(dy));
      v := Point(-u.x, u.y);
      FarSum(dy, u.x, dx, u.y);
    } else {
      v := Point(u.x, -u.y);
      ProductSign(dy, u.x);
      ProductSign(dy * u.x, dy * u.x);
    }
  }

  function Size(n: int): (r: int)
    ensures r >= n && r >= -n && r >= 0
  {
    if n >= 0 then n else -n
  }

  lemma FarSum(dy: int, x: int, dx: int, y: int)
    requires dx != 0 && (x == 1 || x == 2) && y > 2 * Size(dy)
    ensures (dy * x - dx * y) * (dy * -x - dx * y) > 0 && dy * x - dx * y != 0
  {
    Multiple(dx, y);
    var a, b := dy * x, dx * y;
    assert a == (if x == 1 then dy else dy + dy) && dy * -x == -a;
    ProductSign(a - b, -a - b);
  }

  lemma Multiple(k: int, y: int)
    requires k != 0 && y > 0
    ensures if k > 0 then k * y >= y else k * y <= -y
  {
    if k > 0 {
      AtLeastOnce(k, y);
    } else {
      AtLeastOnce(-k, y);
      assert k * y == -((-k) * y);
    }
  }

  lemma {:induction false} AtLeastOnce(k: int, y: int)
    requires k > 0 && y > 0
    ensures k * y >= y
  {
    if k > 1 {
      AtLeastOnce(k - 1, y);
      assert k * y == (k - 1) * y + y;
    }
  }

  predicate StaysOnOneSide(boxes: seq<Box>, line: Line) {
    forall i, j :: 0 <= i < |boxes| && 0 <= j < |boxes| ==> StrictlyOneSide(line, boxes[i], boxes[j])
  }

  /** For every line there is a track that passes the test although it never leaves one side of the line,
    * and one that does not although it goes from one side to the other. */
  lemma EveryLineMisjudged(line: Line) returns (stays: seq<Box>, crosses: seq<Box>)
    requires line.p0 != line.p1
    ensures StaysOnOneSide(stays, line) && !Crossing(stays, line) && Passing(stays, line)
    ensures Crossing(crosses, line) && !Passing(crosses, line)
    ensures |crosses| == MIN_BOXES && Side(line, crosses[0]) * Side(line, crosses[MIN_BOXES - 1]) < 0
  {
    hide Toward, Lean, Passing, Crossing, StrictlyOneSide;
    var u, v := FarFrom(line);
    var a := BoxToward(line, u);
    var b := BoxToward(line, v);
    var c := BoxToward(line, Point(-u.x, -u.y));
    stays, crosses := [a, a, a, b, b, b], [a, a, a, c, c, c];
    PassesOnOneSide(line, a, b, u, v);
    CrossesUnseen(line, a, c, u);
  }

  lemma PassesOnOneSide(line: Line, a: Box, b: Box, u: Point, v: Point)
    requires Toward(line, a) == u && Toward(line, b) == v && u.x > 0 && u.y > 0 && (v == Point(-u.x, u.y) || v == Point(u.x, -u.y))
    requires Lean(line, u) * Lean(line, v) > 0
    ensures Passing([a, a, a, b, b, b], line) && StaysOnOneSide([a, a, a, b, b, b], line) && !Crossing([a, a, a, b, b, b], line)
  {
    ProductSign(u.x, v.x);
    ProductSign(u.y, v.y);
    ProductSign(Across(line, a, b), Along(line, a, b));
    SameSideIsProduct(line, a, b);
    OneSideFromToward(line, a, b);
    ProductSign(Side(line, a), Side(line, b));
    ProductSign(Side(line, a), Side(line, a));
    ProductSign(Side(line, b), Side(line, b));
    ProductSign(Side(line, b), Side(line, a));
    assert !SameSide(line, a, b);
    assert StrictlyOneSide(line, a, b) && StrictlyOneSide(line, b, a) && StrictlyOneSide(line, a, a) && StrictlyOneSide(line, b, b);
    hide SameSide, StrictlyOneSide, Side, Toward, Lean, Across, Along;
    var boxes := [a, a, a, b, b, b];
    assert StrictlyOneSide(line, boxes[0], boxes[5]);
  }

  lemma Mirrored(line: Line, u: Point)
    ensures Lean(line, Point(-u.x, -u.y)) == -Lean(line, u)
  {
    assert (line.p1.y - line.p0.y) * -u.x == -((line.p1.y - line.p0.y) * u.x);
    assert (line.p1.x - line.p0.x) * -u.y == -((line.p1.x - line.p0.x) * u.y);
  }

  lemma CrossesUnseen(line: Line, a: Box, c: Box, u: Point)
    requires Toward(line, a) == u && Toward(line, c) == Point(-u.x, -u.y) && u.x > 0 && u.y > 0
    requires Lean(line, u) != 0
    ensures !Passing([a, a, a, c, c, c], line) && Crossing([a, a, a, c, c, c], line) && Side(line, a) * Side(line, c) < 0
  {
    ProductSign(u.x, -u.x);
    ProductSign(u.y, -u.y);
    ProductSign(Across(line, a, c), Along(line, a, c));
    SameSideIsProduct(line, a, c);
    SideFromToward(line, a);
    SideFromToward(line, c);
    Mirrored(line, u);
    ProductSign(Side(line, a), Side(line, c));
    assert SameSide(line, a, c) && Side(line, a) * Side(line, c) < 0;
    hide SameSide, Side, Toward, Lean, Across, Along;
    var boxes := [a, a, a, c, c, c];
    assert SameSide(line, boxes[0], boxes[5]);
  }

  // ---- Two tracks of the kind ------------------------------------------------------------------------------

  const LEVEL := Line(Point(0, 10), Point(20, 10))

  /** A vehicle that stands still above the middle of a line passes it. */
  lemma StandingIsPassing()
    ensures var b := Box(9, 0, 11, 2);
            && Passing([b, b, b, b, b, b], LEVEL)
            && StaysOnOneSide([b, b, b, b, b, b], LEVEL)
  {
    var b := Box(9, 0, 11, 2);
    assert Toward(LEVEL, b).x == 0 && Side(LEVEL, b) == -180;
  }

  /** A vehicle that crosses the line from its left half to its right half does not. */
  lemma CrossingIsNotPassing()
    ensures var a, b := Box(4, 0, 6, 2), Box(14, 18, 16, 20);
            && Crossing([a, a, a, b, b, b], LEVEL) && Side(LEVEL, a) * Side(LEVEL, b) < 0
            && !Passing([a, a, a, b, b, b], LEVEL)
  {
    var a, b := Box(4, 0, 6, 2), Box(14, 18, 16, 20);
    assert Side(LEVEL, a) == -180 && Side(LEVEL, b) == 180;
    assert SameSide(LEVEL, a, b);
    var boxes := [a, a, a, b, b, b];
    assert SameSide(LEVEL, boxes[0], boxes[5]);
  }

  // ---- One track in a frame --------------------------------------------------------------------------------

  /** A track not counted before a frame is counted in it if and only if it passes its line there and no
    * uncounted track before it does. */
  lemma CountedInFrameIff(ts: seq<Track>, n: nat, f: nat, i: nat, lines: seq<Line>)
    requires f < n && Countable(ts, n, lines) && i < |ts|
    requires var r := CountedAfter(ts, n, f, lines); !r[i].counted
    ensures var r := CountedAfter(ts, n, f, lines);
            && Countable(r, n, lines)
            && (CountedAfter(ts, n, f + 1, lines)[i].counted <==>
                Passes(r[i], n, f, lines) && forall k :: 0 <= k < i ==> !Passes(r[k], n, f, lines))
  {
    hide Passing;
    var r := CountedAfter(ts, n, f, lines);
    assert forall k :: 0 <= k < |r| ==> r[k] == ts[k].(counted := r[k].counted);
  }

  /** Down through the left half of the line. */
  const DOWNWARD := [Box(4, 0, 6, 2), Box(4, 0, 6, 2), Box(4, 0, 6, 2), Box(4, 18, 6, 20), Box(4, 18, 6, 20), Box(4, 18, 6, 20)]

  function Vehicle(id: nat): Track {
    Track(id, "car", true, false, 0, 0, DOWNWARD, [1.0, 1.0, 1.0, 1.0, 1.0, 1.0], 0)
  }

  /** Two vehicles go through the line side by side and pass it in the last of two frames, not before:
    * the second is not counted. */
  lemma SecondIsNotCounted()
    ensures var ts, lines := [Vehicle(1), Vehicle(2)], [LEVEL];
            && Countable(ts, 2, lines)
            && (forall i :: 0 <= i < 2 ==> !Passes(ts[i], 2, 0, lines) && Passes(ts[i], 2, 1, lines))
            && CountedAfter(ts, 2, 2, lines)[0].counted && !CountedAfter(ts, 2, 2, lines)[1].counted
  {
    var ts, lines := [Vehicle(1), Vehicle(2)], [LEVEL];
    VehiclePasses(1);
    VehiclePasses(2);
    hide Passes;
    assert CountedAfter(ts, 2, 0, lines) == ts;
    assert CountedAfter(ts, 2, 1, lines) == ts;
    CountedInFrameIff(ts, 2, 1, 0, lines);
    CountedInFrameIff(ts, 2, 1, 1, lines);
  }

  lemma VehiclePasses(id: nat)
    ensures !Passes(Vehicle(id), 2, 0, [LEVEL]) && Passes(Vehicle(id), 2, 1, [LEVEL])
  {
    var a, b := DOWNWARD[0], DOWNWARD[5];
    assert !SameSide(LEVEL, a, b);
    assert DOWNWARD[..6] == DOWNWARD && |DOWNWARD[..5]| == 5;
  }
}
