/** The zoom tool's bounding box: clamping to the image, the validity check, and enlarging a box
    that is too small around its centre. Coordinates are reals. */
module BoundingBox {
  import opened Options

  const MIN_DIMENSION: real := 28.0

  datatype Box = Box(left: real, top: real, right: real, bottom: real)

  function MinReal(a: real, b: real): real {
    if b < a then b else a
  }

  function MaxReal(a: real, b: real): real {
    if b > a then b else a
  }

  function Width(b: Box): real {
    b.right - b.left
  }

  function Height(b: Box): real {
    b.bottom - b.top
  }

  function Ceil(x: real): int {
    -((-x).Floor)
  }

  /** A box with positive sides, neither more than a hundred times the other. */
  predicate Valid(b: Box) {
    && b.left < b.right && b.top < b.bottom
    && MaxReal(Height(b), Width(b)) / MinReal(Height(b), Width(b)) <= 100.0
  }

  function Clamp(b: Box, w: int, h: int): Box {
    Box(MaxReal(0.0, b.left), MaxReal(0.0, b.top), MinReal(w as real, b.right), MinReal(h as real, b.bottom))
  }

  // --------------------------------------------------------------------------
  // Enlarging
  // --------------------------------------------------------------------------

  /** Scaling so that the shorter side reaches the minimum. */
  function Ratio(bw: real, bh: real): real
    requires bw > 0.0 && bh > 0.0
  {
    MIN_DIMENSION / MinReal(bh, bw)
  }

  function ScaleDown(limit: real, side: real): real
    requires side > 0.0
  {
    limit / side
  }

  function Scaled(side: real, factor: real): real {
    side * factor
  }

  /** Fits the first side into the limit, scaling the second along. */
  function Fit(side: real, other: real, limit: real): (real, real)
    requires limit > 0.0
  {
    if side > limit then (limit, Scaled(other, ScaleDown(limit, side))) else (side, other)
  }

  /** Width and height scaled up to the minimum, then each scaled down to the image. */
  function Target(bw: real, bh: real, w: real, h: real): (real, real)
    requires 0.0 < bw <= w && 0.0 < bh <= h
  {
    var ratio := Ratio(bw, bh);
    var (tw, th) := Fit(Scaled(bw, ratio), Scaled(bh, ratio), w);
    var (th1, tw1) := Fit(th, tw, h);
    (tw1, th1)
  }

  /** Start of an interval of the given length around the centre, shifted into 0 .. limit. */
  function Shift(center: real, length: real, limit: real): real {
    var start := center - length / 2.0;
    var from0 := if start < 0.0 then 0.0 else start;
    if from0 + length > limit then limit - length else from0
  }

  ghost predicate Inside(b: Box, w: int, h: int) {
    0.0 <= b.left && b.right <= w as real && 0.0 <= b.top && b.bottom <= h as real
  }

  /** Outwards to whole pixels. */
  function RoundOut(left: real, top: real, right: real, bottom: real): Box {
    Box(left.Floor as real, top.Floor as real, Ceil(right) as real, Ceil(bottom) as real)
  }

  function Enlarge(b: Box, w: int, h: int): Box
    requires Inside(b, w, h) && b.left < b.right && b.top < b.bottom
  {
    var (tw, th) := Target(Width(b), Height(b), w as real, h as real);
    var left := Shift((b.left + b.right) / 2.0, tw, w as real);
    var top := Shift((b.top + b.bottom) / 2.0, th, h as real);
    RoundOut(left, top, left + tw, top + th)
  }

  predicate TooSmall(b: Box) {
    Height(b) < MIN_DIMENSION || Width(b) < MIN_DIMENSION
  }

  /** The sides of the box on the pixel grid reach the minimum. */
  predicate LargeEnough(b: Box) {
    && (b.bottom.Floor - b.top.Floor) as real >= MIN_DIMENSION
    && (b.right.Floor - b.left.Floor) as real >= MIN_DIMENSION
  }

  /** `_maybe_resize_bbox`. */
  function Resize(box: Box, w: int, h: int): Option<Box> {
    var b := Clamp(box, w, h);
    if !Valid(b) then None
    else
      var r := if TooSmall(b) then Enlarge(b, w, h) else b;
      if Valid(r) && LargeEnough(r) then Some(r) else None
  }

  // --------------------------------------------------------------------------
  // Scaling keeps the shape and never shrinks the box
  // --------------------------------------------------------------------------

  lemma DivideBack(a: real, b: real)
    requires b != 0.0
    ensures (a / b) * b == a
  {
  }

  lemma AtLeastFactor(a: real, f: real)
    requires a >= 0.0 && f >= 1.0
    ensures a * f >= a
  {
    assert a * (f - 1.0) >= 0.0;
  }

  lemma PositiveProduct(a: real, b: real)
    requires a > 0.0 && b > 0.0
    ensures a * b > 0.0
  {
  }

  lemma FromProduct(x: real, y: real, c: real)
    requires c > 0.0 && x * c >= y * c
    ensures x >= y
  {
    if x < y {
      PositiveProduct(y - x, c);
    }
  }

  ghost predicate Covers(tw: real, th: real, bw: real, bh: real) {
    tw >= bw && th >= bh && tw * bh == th * bw
  }

  /** Scaling up covers the box and keeps its shape. */
  lemma RatioCovers(bw: real, bh: real)
    requires bw > 0.0 && bh > 0.0 && MinReal(bh, bw) < MIN_DIMENSION
    ensures Covers(Scaled(bw, Ratio(bw, bh)), Scaled(bh, Ratio(bw, bh)), bw, bh)
  {
    var m, ratio := MinReal(bh, bw), Ratio(bw, bh);
    DivideBack(MIN_DIMENSION, m);
    FromProduct(ratio, 1.0, m);
    AtLeastFactor(bw, ratio);
    AtLeastFactor(bh, ratio);
    assert (bw * ratio) * bh == (bh * ratio) * bw;
  }

  lemma ScaledDown(th: real, s: real, tw: real, w: real, bw: real, bh: real)
    requires tw > w >= bw > 0.0 && bh > 0.0 && th > 0.0 && s * tw == w && tw * bh == th * bw
    ensures w * bh == (th * s) * bw && bh <= th * s <= th
  {
    assert (th * s) * bw == (th * bw) * s == (tw * bh) * s == (s * tw) * bh;
    assert (w - bw) * bh >= 0.0;
    FromProduct(th * s, bh, bw);
    FromProduct(1.0, s, tw);
    assert th * (1.0 - s) >= 0.0;
  }

  /** Fitting one side still covers the box and keeps its shape, and does not grow the other side. */
  lemma FitCovers(side: real, other: real, limit: real, a: real, b: real)
    requires 0.0 < a <= limit && b > 0.0 && Covers(side, other, a, b)
    ensures var (side1, other1) := Fit(side, other, limit);
            Covers(side1, other1, a, b) && side1 <= limit && other1 <= other
  {
    if side > limit {
      DivideBack(limit, side);
      ScaledDown(other, limit / side, side, limit, a, b);
    }
  }

  /** The target covers the clamped box, fits the image and has the box's shape. */
  lemma TargetFits(bw: real, bh: real, w: real, h: real)
    requires 0.0 < bw <= w && 0.0 < bh <= h && MinReal(bh, bw) < MIN_DIMENSION
    ensures var (tw, th) := Target(bw, bh, w, h);
            Covers(tw, th, bw, bh) && tw <= w && th <= h
  {
    RatioCovers(bw, bh);
    var tw0, th0 := Scaled(bw, Ratio(bw, bh)), Scaled(bh, Ratio(bw, bh));
    FitCovers(tw0, th0, w, bw, bh);
    var (tw, th) := Fit(tw0, th0, w);
    FitCovers(th, tw, h, bh, bw);
  }

  /** The shifted interval stays in 0 .. limit and covers what the centred one was around. */
  lemma ShiftCovers(lo: real, hi: real, length: real, limit: real)
    requires 0.0 <= lo <= hi <= limit && hi - lo <= length <= limit
    ensures var start := Shift((lo + hi) / 2.0, length, limit);
            0.0 <= start <= lo && hi <= start + length <= limit
  {
  }

  lemma FloorAtLeast(x: real, n: int)
    requires x >= n as real
    ensures x.Floor >= n
  {
    assert x < (x.Floor + 1) as real;
  }

  /** Rounding outwards keeps an interval inside integer limits. */
  lemma RoundsInside(lo: real, hi: real, limit: int)
    requires 0.0 <= lo <= hi <= limit as real
    ensures 0.0 <= lo.Floor as real <= lo && hi <= Ceil(hi) as real <= limit as real
  {
    FloorAtLeast(lo, 0);
    FloorAtLeast(-hi, -limit);
    assert (-hi).Floor as real <= -hi;
  }

  ghost predicate Contains(outer: Box, inner: Box) {
    && outer.left <= inner.left && inner.right <= outer.right
    && outer.top <= inner.top && inner.bottom <= outer.bottom
  }

  lemma EnlargeCovers(b: Box, w: int, h: int)
    requires Inside(b, w, h) && b.left < b.right && b.top < b.bottom && TooSmall(b)
    ensures Inside(Enlarge(b, w, h), w, h) && Contains(Enlarge(b, w, h), b)
  {
    TargetFits(Width(b), Height(b), w as real, h as real);
    var (tw, th) := Target(Width(b), Height(b), w as real, h as real);
    ShiftCovers(b.left, b.right, tw, w as real);
    ShiftCovers(b.top, b.bottom, th, h as real);
    var left := Shift((b.left + b.right) / 2.0, tw, w as real);
    var top := Shift((b.top + b.bottom) / 2.0, th, h as real);
    RoundsInside(left, left + tw, w);
    RoundsInside(top, top + th, h);
  }

  lemma RatioBound(long: real, short: real)
    requires short > 0.0 && long / short <= 100.0
    ensures long <= 100.0 * short
  {
    DivideBack(long, short);
    assert (100.0 - long / short) * short >= 0.0;
  }

  /** Every returned box lies in the image, contains the clamped request, has sides of at least
      28 on the pixel grid, and an aspect ratio of at most 100. */
  lemma ResizeIsSafe(box: Box, w: int, h: int)
    requires Resize(box, w, h).Some?
    ensures var r := Resize(box, w, h).value;
            && Inside(r, w, h) && Contains(r, Clamp(box, w, h)) && LargeEnough(r)
            && MaxReal(Height(r), Width(r)) <= 100.0 * MinReal(Height(r), Width(r))
  {
    var b, r := Clamp(box, w, h), Resize(box, w, h).value;
    if TooSmall(b) {
      EnlargeCovers(b, w, h);
    }
    RatioBound(MaxReal(Height(r), Width(r)), MinReal(Height(r), Width(r)));
  }

  // --------------------------------------------------------------------------
  // When a box is returned
  // --------------------------------------------------------------------------

  lemma FloorsApart(lo: real, hi: real)
    requires hi - lo >= MIN_DIMENSION
    ensures (hi.Floor - lo.Floor) as real >= MIN_DIMENSION
  {
    FloorAtLeast(hi, lo.Floor + 28);
  }

  /** A request that is valid and large enough after clamping is returned as clamped. */
  lemma LargeBoxKept(box: Box, w: int, h: int)
    requires Valid(Clamp(box, w, h)) && !TooSmall(Clamp(box, w, h))
    ensures Resize(box, w, h) == Some(Clamp(box, w, h))
  {
    var b := Clamp(box, w, h);
    FloorsApart(b.left, b.right);
    FloorsApart(b.top, b.bottom);
  }

  /** No box fits an image with a side below 28. */
  lemma TinyImage(box: Box, w: int, h: int)
    requires w < 28 || h < 28
    ensures Resize(box, w, h) == None
  {
    if Resize(box, w, h).Some? {
      ResizeIsSafe(box, w, h);
      var r := Resize(box, w, h).value;
      FloorAtLeast(r.left, 0);
      FloorAtLeast(r.top, 0);
    }
  }

  /** Target sides when the image has room for them: the shorter side is 28, the longer at most
      99 times that. */
  lemma RoomyTarget(bw: real, bh: real, w: real, h: real)
    requires 0.0 < bw <= w && 0.0 < bh <= h && MinReal(bh, bw) < MIN_DIMENSION
    requires Scaled(bw, Ratio(bw, bh)) <= w && Scaled(bh, Ratio(bw, bh)) <= h
    requires MaxReal(bh, bw) <= 99.0 * MinReal(bh, bw)
    ensures var (tw, th) := Target(bw, bh, w, h);
            MIN_DIMENSION <= tw <= 99.0 * MIN_DIMENSION && MIN_DIMENSION <= th <= 99.0 * MIN_DIMENSION
  {
    var m, ratio := MinReal(bh, bw), Ratio(bw, bh);
    RatioCovers(bw, bh);
    DivideBack(MIN_DIMENSION, m);
    assert ratio >= 0.0 by {
      FromProduct(ratio, 0.0, m);
    }
    Between(bw, m, ratio);
    Between(bh, m, ratio);
  }

  lemma Between(side: real, m: real, ratio: real)
    requires ratio >= 0.0 && ratio * m == MIN_DIMENSION && m <= side <= 99.0 * m
    ensures MIN_DIMENSION <= side * ratio <= 99.0 * MIN_DIMENSION
  {
    assert (side - m) * ratio >= 0.0;
    assert (99.0 * m - side) * ratio >= 0.0;
  }

  lemma GridSides(lo: real, length: real)
    requires MIN_DIMENSION <= length <= 99.0 * MIN_DIMENSION
    ensures 28 <= Ceil(lo + length) - lo.Floor <= 2774
  {
    FloorAtLeast(-(lo + length), -lo.Floor - 2773 - 1);
    assert (-(lo + length)).Floor as real <= -(lo + length);
    assert lo.Floor as real <= lo < (lo.Floor + 1) as real;
  }

  lemma RatioAtMost(long: real, short: real)
    requires short > 0.0 && long <= 100.0 * short
    ensures long / short <= 100.0
  {
    var ratio := long / short;
    DivideBack(long, short);
    if ratio > 100.0 {
      PositiveProduct(ratio - 100.0, short);
    }
  }

  /** A box on the pixel grid with sides in that range passes the final checks. */
  lemma GridBox(left: int, top: int, right: int, bottom: int)
    requires 28 <= right - left <= 2774 && 28 <= bottom - top <= 2774
    ensures var b := Box(left as real, top as real, right as real, bottom as real);
            Valid(b) && LargeEnough(b)
  {
    var b := Box(left as real, top as real, right as real, bottom as real);
    var long, short := MaxReal(Height(b), Width(b)), MinReal(Height(b), Width(b));
    assert Width(b) == (right - left) as real && Height(b) == (bottom - top) as real;
    assert short >= 28.0 && long <= 2774.0;
    RatioAtMost(long, short);
  }

  /** The image has room for the scaled box, and one side is at most 99 times the other. */
  ghost predicate Roomy(b: Box, w: int, h: int)
    requires b.left < b.right && b.top < b.bottom
  {
    && Scaled(Width(b), Ratio(Width(b), Height(b))) <= w as real
    && Scaled(Height(b), Ratio(Width(b), Height(b))) <= h as real
    && MaxReal(Height(b), Width(b)) <= 99.0 * MinReal(Height(b), Width(b))
  }

  lemma RoundedPasses(left: real, top: real, tw: real, th: real)
    requires MIN_DIMENSION <= tw <= 99.0 * MIN_DIMENSION && MIN_DIMENSION <= th <= 99.0 * MIN_DIMENSION
    ensures var r := RoundOut(left, top, left + tw, top + th); Valid(r) && LargeEnough(r)
  {
    GridSides(left, tw);
    GridSides(top, th);
    GridBox(left.Floor, top.Floor, Ceil(left + tw), Ceil(top + th));
  }

  lemma EnlargedPasses(b: Box, w: int, h: int)
    requires Inside(b, w, h) && b.left < b.right && b.top < b.bottom && TooSmall(b) && Roomy(b, w, h)
    ensures Valid(Enlarge(b, w, h)) && LargeEnough(Enlarge(b, w, h))
  {
    var (tw, th) := Target(Width(b), Height(b), w as real, h as real);
    RoomyTarget(Width(b), Height(b), w as real, h as real);
    var left := Shift((b.left + b.right) / 2.0, tw, w as real);
    var top := Shift((b.top + b.bottom) / 2.0, th, h as real);
    assert Enlarge(b, w, h) == RoundOut(left, top, left + tw, top + th);
    RoundedPasses(left, top, tw, th);
  }

  /** A valid request that is too small is enlarged, never refused, if the image has room for the
      scaled box and one side is at most 99 times the other. */
  lemma SmallBoxEnlarged(box: Box, w: int, h: int)
    requires Valid(Clamp(box, w, h)) && TooSmall(Clamp(box, w, h)) && Roomy(Clamp(box, w, h), w, h)
    ensures Resize(box, w, h) == Some(Enlarge(Clamp(box, w, h), w, h))
  {
    EnlargedPasses(Clamp(box, w, h), w, h);
  }

  // --------------------------------------------------------------------------
  // The run
  // --------------------------------------------------------------------------

  method TargetSides(width: real, height: real, w: real, h: real) returns (targetWidth: real, targetHeight: real)
    requires 0.0 < width <= w && 0.0 < height <= h
    ensures (targetWidth, targetHeight) == Target(width, height, w, h)
  {
    var ratio := Ratio(width, height);
    targetWidth, targetHeight := Scaled(width, ratio), Scaled(height, ratio);
    if targetWidth > w {
      var scaleDown := ScaleDown(w, targetWidth);
      targetWidth := w;
      targetHeight := Scaled(targetHeight, scaleDown);
    }
    if targetHeight > h {
      var scaleDown := ScaleDown(h, targetHeight);
      targetHeight := h;
      targetWidth := Scaled(targetWidth, scaleDown);
    }
  }

  /** The two left and top, and the two right and bottom shifts. */
  method Place(centerX: real, centerY: real, targetWidth: real, targetHeight: real, w: real, h: real)
    returns (newLeft: real, newTop: real)
    ensures newLeft == Shift(centerX, targetWidth, w) && newTop == Shift(centerY, targetHeight, h)
  {
    newLeft, newTop := centerX - targetWidth / 2.0, centerY - targetHeight / 2.0;
    if newLeft < 0.0 {
      newLeft := 0.0;
    }
    if newTop < 0.0 {
      newTop := 0.0;
    }
    if newLeft + targetWidth > w {
      newLeft := w - targetWidth;
    }
    if newTop + targetHeight > h {
      newTop := h - targetHeight;
    }
  }

  method EnlargeBox(left: real, top: real, right: real, bottom: real, w: int, h: int) returns (r: Box)
    requires Inside(Box(left, top, right, bottom), w, h) && left < right && top < bottom
    ensures r == Enlarge(Box(left, top, right, bottom), w, h)
  {
    var centerX, centerY := (left + right) / 2.0, (top + bottom) / 2.0;
    var targetWidth, targetHeight := TargetSides(right - left, bottom - top, w as real, h as real);
    var newLeft, newTop := Place(centerX, centerY, targetWidth, targetHeight, w as real, h as real);
    r := RoundOut(newLeft, newTop, newLeft + targetWidth, newTop + targetHeight);
  }

  /** `_maybe_resize_bbox` itself, coordinates reassigned step by step. */
  method MaybeResizeBbox(box: Box, w: int, h: int) returns (r: Option<Box>)
    ensures r == Resize(box, w, h)
  {
    var left, top := MaxReal(0.0, box.left), MaxReal(0.0, box.top);
    var right, bottom := MinReal(w as real, box.right), MinReal(h as real, box.bottom);
    var current := Box(left, top, right, bottom);
    if !Valid(current) {
      return None;
    }
    if bottom - top < MIN_DIMENSION || right - left < MIN_DIMENSION {
      current := EnlargeBox(left, top, right, bottom, w, h);
    }
    if !Valid(current) {
      return None;
    }
    if !LargeEnough(current) {
      return None;
    }
    return Some(current);
  }
}
