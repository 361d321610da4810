/** Cutting a square out of an image, with the channel average wherever it reaches over the edge. */
module CropPadding {

  /** Cell `(i, j)` of the patch that starts at row `top` and column `left` of the image. */
  function Cell<P>(image: array2<P>, top: int, left: int, average: P, i: int, j: int): P
    reads image
  {
    if 0 <= top + i < image.Length0 && 0 <= left + j < image.Length1 then image[top + i, left + j] else average
  }

  /** `a[r0:r1, c0:c1] = v` */
  method Fill<P>(a: array2<P>, r0: nat, r1: nat, c0: nat, c1: nat, v: P)
    requires r0 <= r1 <= a.Length0 && c0 <= c1 <= a.Length1
    modifies a
    ensures forall i, j :: 0 <= i < a.Length0 && 0 <= j < a.Length1 ==>
              a[i, j] == if r0 <= i < r1 && c0 <= j < c1 then v else old(a[i, j])
  {
    for r := r0 to r1
      invariant forall i, j :: 0 <= i < a.Length0 && 0 <= j < a.Length1 ==>
                  a[i, j] == if r0 <= i < r && c0 <= j < c1 then v else old(a[i, j])
    {
      for c := c0 to c1
        invariant forall i, j :: 0 <= i < a.Length0 && 0 <= j < a.Length1 ==>
                    a[i, j] == if (r0 <= i < r && c0 <= j < c1) || (i == r && c0 <= j < c) then v else old(a[i, j])
      {
        a[r, c] := v;
      }
    }
  }

  /** `a[r0 : r0 + rows, c0 : c0 + columns] = image` */
  method Paste<P>(a: array2<P>, r0: nat, c0: nat, image: array2<P>)
    requires r0 + image.Length0 <= a.Length0 && c0 + image.Length1 <= a.Length1 && a != image
    modifies a
    ensures forall i, j :: 0 <= i < a.Length0 && 0 <= j < a.Length1 ==>
              a[i, j] == if r0 <= i < r0 + image.Length0 && c0 <= j < c0 + image.Length1 then image[i - r0, j - c0] else old(a[i, j])
  {
    for r := 0 to image.Length0
      invariant forall i, j :: 0 <= i < a.Length0 && 0 <= j < a.Length1 ==>
                  a[i, j] == if r0 <= i < r0 + r && c0 <= j < c0 + image.Length1 then image[i - r0, j - c0] else old(a[i, j])
    {
      for c := 0 to image.Length1
        invariant forall i, j :: 0 <= i < a.Length0 && 0 <= j < a.Length1 ==>
                    a[i, j] == if (r0 <= i < r0 + r && c0 <= j < c0 + image.Length1) || (i == r0 + r && c0 <= j < c0 + c)
                               then image[i - r0, j - c0] else old(a[i, j])
      {
        a[r0 + r, c0 + c] := image[r, c];
      }
    }
  }

  /** `a[top : top + size, left : left + size]` */
  method Slice<P>(a: array2<P>, top: nat, left: nat, size: nat) returns (patch: array2<P>)
    requires size > 0 && top + size <= a.Length0 && left + size <= a.Length1
    ensures fresh(patch) && patch.Length0 == patch.Length1 == size
    ensures forall i, j :: 0 <= i < size && 0 <= j < size ==> patch[i, j] == a[top + i, left + j]
  {
    var corner := a[top, left];
    patch := new P[size, size]((_, _) => corner);
    for r := 0 to size
      modifies patch
      invariant forall i, j :: 0 <= i < r && 0 <= j < size ==> patch[i, j] == a[top + i, left + j]
    {
      for c := 0 to size
        modifies patch
        invariant forall i, j :: 0 <= i < r && 0 <= j < size ==> patch[i, j] == a[top + i, left + j]
        invariant forall j :: 0 <= j < c ==> patch[r, j] == a[top + r, left + j]
      {
        patch[r, c] := a[top + r, left + c];
      }
    }
  }

  function Positive(x: int): nat {
    if x > 0 then x else 0
  }

  /** The image with a border of the given widths, all filled with the average. */
  method Pad<P>(image: array2<P>, zero: P, average: P, top: nat, bottom: nat, left: nat, right: nat) returns (padded: array2<P>)
    requires image.Length0 > 0 && image.Length1 > 0
    ensures fresh(padded)
    ensures padded.Length0 == top + image.Length0 + bottom && padded.Length1 == left + image.Length1 + right
    ensures forall i, j :: 0 <= i < padded.Length0 && 0 <= j < padded.Length1 ==> padded[i, j] == Cell(image, -(top as int), -(left as int), average, i, j)
  {
    var r, c := image.Length0, image.Length1;
    padded := new P[r + top + bottom, c + left + right]((_, _) => zero);
    Paste(padded, top, left, image);
    if top > 0 {
      Fill(padded, 0, top, left, left + c, average);
    }
    if bottom > 0 {
      Fill(padded, r + top, padded.Length0, left, left + c, average);
    }
    if left > 0 {
      Fill(padded, 0, padded.Length0, 0, left, average);
    }
    if right > 0 {
      Fill(padded, 0, padded.Length0, c + left, padded.Length1, average);
    }
  }

  /** `preprocess` up to the resizing: `xmin` and `ymin` are the rounded corner of the square, wherever
    * it lies. Every slice is in bounds, the patch has the size asked for, and each of its cells is
    * the pixel of the image there, or the average if there is none. */
  method Crop<P>(image: array2<P>, xmin: int, ymin: int, size: nat, zero: P, average: P) returns (patch: array2<P>)
    requires image.Length0 > 0 && image.Length1 > 0 && size > 0
    ensures patch.Length0 == patch.Length1 == size
    ensures forall i, j :: 0 <= i < size && 0 <= j < size ==> patch[i, j] == Cell(image, ymin, xmin, average, i, j)
  {
    var xmax, ymax := xmin + size - 1, ymin + size - 1;
    var leftPad, topPad := Positive(-xmin), Positive(-ymin);
    var rightPad, bottomPad := Positive(xmax - image.Length1 + 1), Positive(ymax - image.Length0 + 1);
    var x0, y0 := xmin + leftPad, ymin + topPad;
    if leftPad > 0 || topPad > 0 || rightPad > 0 || bottomPad > 0 {
      var padded := Pad(image, zero, average, topPad, bottomPad, leftPad, rightPad);
      patch := Slice(padded, y0, x0, size);
      forall i, j | 0 <= i < size && 0 <= j < size ensures patch[i, j] == Cell(image, ymin, xmin, average, i, j) {
        assert patch[i, j] == padded[y0 + i, x0 + j];
      }
    } else {
      patch := Slice(image, y0, x0, size);
    }
  }

  // ---- Where the square lies -------------------------------------------------------------------------

  /** Python's `round`: to the nearest integer, and to the even one of two that are equally near. */
  function Round(x: real): (n: int)
    ensures -0.5 <= n as real - x <= 0.5
    ensures x - x.Floor as real == 0.5 ==> n % 2 == 0
  {
    var low := x.Floor;
    var rest := x - low as real;
    if rest < 0.5 || (rest == 0.5 && low % 2 == 0) then low else low + 1
  }

  /** The first row or column of a square of the given size around a coordinate. */
  function Corner(center: real, size: nat): int {
    Round(center - (size + 1) as real / 2.0)
  }

  /** The middle of the square lies between half a pixel and one and a half before the centre asked
    * for. */
  lemma CornerCentres(center: real, size: nat)
    requires size > 0
    ensures 0.5 <= center - (Corner(center, size) as real + (size - 1) as real / 2.0) <= 1.5
  {
  }

  /** The crop around any centre, even one far off the image. */
  method Preprocess<P>(image: array2<P>, centerX: real, centerY: real, size: nat, zero: P, average: P) returns (patch: array2<P>)
    requires image.Length0 > 0 && image.Length1 > 0 && size > 0
    ensures patch.Length0 == patch.Length1 == size
    ensures forall i, j :: 0 <= i < size && 0 <= j < size ==>
              patch[i, j] == Cell(image, Corner(centerY, size), Corner(centerX, size), average, i, j)
  {
    patch := Crop(image, Corner(centerX, size), Corner(centerY, size), size, zero, average);
  }
}
