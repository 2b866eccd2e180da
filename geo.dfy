/**
 * Value types of cushy-gfx/src/geo.rs: sizes, points, integer rectangles with
 * containment, intersection and clipping, scaling and transforms.
 * `f32` coordinates are modelled as `real`, `u32` ones as `nat`.
 */
module Geo {
  import opened Opt

  /** `Size` (`SizeAny<f32>`). */
  datatype Size = Size(w: real, h: real)

  /** `SizeU32` (`SizeAny<u32>`). */
  datatype SizeU = SizeU(w: nat, h: nat)

  /** `Point` (`PointAny<f32>`). */
  datatype Point = Point(x: real, y: real)

  /** `PointU32` (`PointAny<u32>`). */
  datatype PointU = PointU(x: nat, y: nat)

  /**
   * `RectAny<T>` for an integer `T`.  The unsigned instance `RectU32` is a
   * rectangle all of whose fields are non-negative (see `Unsigned`).
   */
  datatype Rect = Rect(x: int, y: int, w: int, h: int)

  predicate Unsigned(r: Rect) {
    r.x >= 0 && r.y >= 0 && r.w >= 0 && r.h >= 0
  }

  /** `RectU32`. */
  type RectU = r: Rect | Unsigned(r) witness Rect(0, 0, 0, 0)

  // ---------------------------------------------------------------- Size and point arithmetic

  function SizeDiv(s: Size, d: real): (r: Size)
    requires d != 0.0
    ensures r.w * d == s.w && r.h * d == s.h
  {
    Size(s.w / d, s.h / d)
  }

  function SizeMul(s: Size, m: real): (r: Size)
    ensures m == 1.0 ==> r == s
  {
    Size(s.w * m, s.h * m)
  }

  /** `From<SizeU32> for Size`: the `as f32` conversion, exact over the reals. */
  function SizeFromU(s: SizeU): (r: Size)
    ensures r.w >= 0.0 && r.h >= 0.0
    ensures r.w == s.w as real && r.h == s.h as real
  {
    Size(s.w as real, s.h as real)
  }

  /** `From<SizeAny<T>> for PointAny<T>`: width becomes x, height becomes y. */
  function PointFromSize(s: Size): (p: Point)
    ensures p.x == s.w && p.y == s.h
  {
    Point(s.w, s.h)
  }

  function PointAdd(a: Point, b: Point): (r: Point)
    ensures r.x - b.x == a.x && r.y - b.y == a.y
  {
    Point(a.x + b.x, a.y + b.y)
  }

  function PointSub(a: Point, b: Point): (r: Point)
    ensures r.x + b.x == a.x && r.y + b.y == a.y
  {
    Point(a.x - b.x, a.y - b.y)
  }

  /** Multiplying a size by a non-zero factor and dividing by it again gives the size back. */
  lemma SizeMulDiv(s: Size, m: real)
    requires m != 0.0
    ensures SizeDiv(SizeMul(s, m), m) == s
  {
  }

  /** Point subtraction undoes point addition. */
  lemma PointAddSub(a: Point, b: Point)
    ensures PointSub(PointAdd(a, b), b) == a && PointAdd(PointSub(a, b), b) == a
  {
  }

  function PointMul(a: Point, m: real): (r: Point)
    ensures m == 1.0 ==> r == a
    ensures m == 0.0 ==> r == Point(0.0, 0.0)
  {
    Point(a.x * m, a.y * m)
  }

  /** Scaling twice is scaling by the product, and scaling distributes over addition. */
  lemma PointMulLinear(a: Point, b: Point, m: real, n: real)
    ensures PointMul(PointMul(a, m), n) == PointMul(a, m * n)
    ensures PointMul(PointAdd(a, b), m) == PointAdd(PointMul(a, m), PointMul(b, m))
  {
  }

  // ---------------------------------------------------------------- Rectangles

  /** Half-open containment: `x <= p.x < x+w` and `y <= p.y < y+h`. */
  predicate Contains(r: Rect, px: int, py: int) {
    px >= r.x && py >= r.y && px < r.x + r.w && py < r.y + r.h
  }

  /** `inner` fits completely into `r`. */
  predicate ContainsAll(r: Rect, inner: Rect) {
    inner.x >= r.x && inner.y >= r.y
    && inner.x + inner.w <= r.x + r.w
    && inner.y + inner.h <= r.y + r.h
  }

  /** `other` lies completely outside `r`; touching borders count as outside. */
  predicate ContainsNone(r: Rect, other: Rect) {
    other.x >= r.x + r.w
    || other.y >= r.y + r.h
    || other.x + other.w <= r.x
    || other.y + other.h <= r.y
  }

  predicate Intersects(r: Rect, other: Rect) {
    !ContainsNone(r, other)
  }

  /** For rectangles of positive size, `Intersects` holds exactly when they share a cell. */
  lemma IntersectsIffCommonCell(a: Rect, b: Rect)
    requires a.w > 0 && a.h > 0 && b.w > 0 && b.h > 0
    ensures Intersects(a, b) <==> exists px, py :: Contains(a, px, py) && Contains(b, px, py)
  {
    if Intersects(a, b) {
      var px := Max(a.x, b.x);
      var py := Max(a.y, b.y);
      assert Contains(a, px, py) && Contains(b, px, py);
    }
  }

  function Max(a: int, b: int): int { if a >= b then a else b }
  function Min(a: int, b: int): int { if a <= b then a else b }

  /**
   * `clip`: the part of `other` inside `r`, with the offset of that part
   * relative to `other`'s own origin, or `None` when nothing is inside.
   * The mutable locals of the source become the let-bound x1, w1, ... below.
   */
  function Clip(r: Rect, other: Rect): (res: Option<(Rect, (int, int))>)
    ensures res.None? <==> (r.w <= 0 || other.w <= 0 || ContainsNone(r, other))
    ensures res.Some? ==>
      var (c, (px, py)) := res.value;
      && c.x == Max(r.x, other.x) && c.x + c.w == Min(r.x + r.w, other.x + other.w)
      && c.y == Max(r.y, other.y) && c.y + c.h == Min(r.y + r.h, other.y + other.h)
      && px == c.x - other.x && py == c.y - other.y
  {
    if r.w <= 0 || other.w <= 0 || ContainsNone(r, other) then
      None
    else
      var (x1, w1) := if other.x < r.x then (r.x, other.w - (r.x - other.x)) else (other.x, other.w);
      var (y1, h1) := if other.y < r.y then (r.y, other.h - (r.y - other.y)) else (other.y, other.h);
      var w2 := if x1 + w1 > r.x + r.w then (r.x + r.w) - x1 else w1;
      var h2 := if y1 + h1 > r.y + r.h then (r.y + r.h) - y1 else h1;
      Some((Rect(x1, y1, w2, h2), (x1 - other.x, y1 - other.y)))
  }

  /**
   * The clipped rectangle lies inside both inputs, has a positive width and a
   * non-negative offset.  Its height is positive only when both heights are:
   * unlike the widths, the heights are not checked by the `None` guard.
   */
  lemma ClipInsideBoth(r: Rect, other: Rect)
    requires Clip(r, other).Some?
    ensures var (c, (px, py)) := Clip(r, other).value;
      && ContainsAll(r, c) && ContainsAll(other, c)
      && c.w > 0 && px >= 0 && py >= 0
      && (r.h > 0 && other.h > 0 ==> c.h > 0)
  {
  }

  /**
   * For unsigned rectangles, none of the subtractions in `clip` goes below zero
   * once its `None` guards have passed, so the `u32` arithmetic never underflows.
   */
  lemma ClipNoUnderflow(r: Rect, other: Rect)
    requires Unsigned(r) && Unsigned(other)
    requires !(r.w <= 0 || other.w <= 0 || ContainsNone(r, other))
    ensures other.x < r.x ==> r.x - other.x >= 0 && other.w - (r.x - other.x) >= 0
    ensures other.y < r.y ==> r.y - other.y >= 0 && other.h - (r.y - other.y) >= 0
    ensures (r.x + r.w) - Max(r.x, other.x) >= 0 && (r.y + r.h) - Max(r.y, other.y) >= 0
    ensures Max(r.x, other.x) - other.x >= 0 && Max(r.y, other.y) - other.y >= 0
    ensures Unsigned(Clip(r, other).value.0)
  {
  }

  // ---------------------------------------------------------------- Rotation, scaling, transform

  /** `Rotation`, stored in radians. */
  datatype Rotation = Rotation(rad: real)

  /** `Scaling`; a `Copy` value embedded by value in `Transform`. */
  datatype Scaling = Scaling(x: real, y: real)

  /** `Scaling::default()`. */
  function ScalingDefault(): (s: Scaling)
    ensures s.x == 1.0 && s.y == 1.0
  {
    Scaling(1.0, 1.0)
  }

  /** `Scaling::reset`: the scaling after the call. */
  function Reset(s: Scaling): (r: Scaling)
    ensures r == ScalingDefault()
  {
    Scaling(1.0, 1.0)
  }

  /** `Scaling::uniform`: the scaling after the call. */
  function Uniform(s: Scaling, f: real): (r: Scaling)
    ensures r.x == f && r.y == f
    ensures f == 1.0 ==> r == Reset(s)
  {
    Scaling(f, f)
  }

  /** `Transform`: translation, rotation, scale. */
  datatype Transform = Transform(pos: Point, rot: Rotation, scale: Scaling)

  /** `Transform::default()`/`new()`: origin, no rotation, unit scale. */
  function TransformDefault(): (t: Transform)
    ensures t.pos == Point(0.0, 0.0) && t.rot.rad == 0.0 && t.scale == ScalingDefault()
  {
    Transform(Point(0.0, 0.0), Rotation(0.0), Scaling(1.0, 1.0))
  }

  function WithPos(t: Transform, pos: Point): (r: Transform)
    ensures r.pos == pos && r.rot == t.rot && r.scale == t.scale
  {
    t.(pos := pos)
  }

  function WithRot(t: Transform, rot: Rotation): (r: Transform)
    ensures r.pos == t.pos && r.rot == rot && r.scale == t.scale
  {
    t.(rot := rot)
  }

  function WithScale(t: Transform, scale: Scaling): (r: Transform)
    ensures r.pos == t.pos && r.rot == t.rot && r.scale == scale
  {
    t.(scale := scale)
  }

  function WithAll(t: Transform, pos: Point, rot: Rotation, scale: Scaling): (r: Transform)
    ensures r == WithScale(WithRot(WithPos(t, pos), rot), scale)
    ensures r.pos == pos && r.rot == rot && r.scale == scale
  {
    Transform(pos, rot, scale)
  }
}
