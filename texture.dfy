/**
 * The texture tree of cushy-gfx/src/texture.rs.  A texture is either a raw GL
 * texture of a given size or a region of another texture; regions may nest
 * to any depth.  The `Arc` sharing is immaterial to the values and is left
 * out; UVs are computed over `real`.
 */
module Texture {
  import opened Opt
  import opened Geo
  import opened Tex2d

  /** `TexType`: `Raw` holds the GL texture and its size, `Sub` a region of its parent. */
  datatype TexType =
    | Raw(tex: Texture2D, size: SizeU)
    | Sub(parent: TexType, r: RectU)

  /** `TexType::new_sub`: the region is not checked against the parent. */
  function NewSub(parent: TexType, r: RectU): (t: TexType)
    ensures t.Sub? && t.parent == parent && t.r == r
  {
    Sub(parent, r)
  }

  /** `get_underlying`: the GL texture at the root of the tree, which `bind` binds. */
  function Underlying(t: TexType): (u: Texture2D)
    ensures u == Root(t).tex
  {
    match t
    case Raw(tex, _) => tex
    case Sub(parent, _) => Underlying(parent)
  }

  /** The root of the tree, reached through any number of regions. */
  function Root(t: TexType): (root: TexType)
    ensures root.Raw?
  {
    match t
    case Raw(_, _) => t
    case Sub(parent, _) => Root(parent)
  }

  /** Regions `rs` taken one inside the other, starting from `t`. */
  function Nest(t: TexType, rs: seq<RectU>): TexType
    decreases |rs|
  {
    if rs == [] then t else Nest(NewSub(t, rs[0]), rs[1..])
  }

  /** However deep the regions nest, the underlying texture is the root's. */
  lemma {:induction false} UnderlyingOfNest(t: TexType, rs: seq<RectU>)
    ensures Underlying(Nest(t, rs)) == Underlying(t)
    decreases |rs|
  {
    if rs != [] {
      UnderlyingOfNest(NewSub(t, rs[0]), rs[1..]);
    }
  }

  /** `get_size`: a raw texture's stored size, a region's own size (never its parent's). */
  function GetSize(t: TexType): (s: SizeU)
    ensures t.Raw? ==> s == t.size
    ensures t.Sub? ==> s.w == t.r.w && s.h == t.r.h
  {
    match t
    case Raw(_, size) => size
    case Sub(_, r) => SizeU(r.w, r.h)
  }

  /** A region's size does not depend on what it is a region of. */
  lemma SubSizeIgnoresParent(p: TexType, q: TexType, r: RectU)
    ensures GetSize(NewSub(p, r)) == GetSize(NewSub(q, r)) == SizeU(r.w, r.h)
  {
  }

  /** `PartialEq for Texture`: textures are equal when their underlying GL textures are. */
  predicate SameTex(a: TexType, b: TexType) {
    SameTexture(Underlying(a), Underlying(b))
  }

  /**
   * Any region, at any depth, equals its root and every other region of that
   * root, whatever the rectangles.
   */
  lemma {:induction false} RegionsOfOneRootAreEqual(t: TexType, rs: seq<RectU>, qs: seq<RectU>)
    ensures SameTex(Nest(t, rs), t)
    ensures SameTex(Nest(t, rs), Nest(t, qs))
  {
    UnderlyingOfNest(t, rs);
    UnderlyingOfNest(t, qs);
  }

  /** Equality of the optional textures of two quads: `None == None` holds. */
  predicate SameOptTex(a: Option<TexType>, b: Option<TexType>) {
    match (a, b)
    case (None, None) => true
    case (Some(x), Some(y)) => SameTex(x, y)
    case _ => false
  }

  lemma SameOptTexIsEquivalence(a: Option<TexType>, b: Option<TexType>, c: Option<TexType>)
    ensures SameOptTex(a, a)
    ensures SameOptTex(a, b) ==> SameOptTex(b, a)
    ensures SameOptTex(a, b) && SameOptTex(b, c) ==> SameOptTex(a, c)
    ensures SameOptTex(a, b) ==> a.None? == b.None?
  {
  }

  // ---------------------------------------------------------------- UV coordinates

  /** The UV formula divides by every parent's size, which must therefore be non-zero. */
  predicate UvDefined(t: TexType) {
    match t
    case Raw(_, _) => true
    case Sub(parent, _) => UvDefined(parent) && GetSize(parent).w > 0 && GetSize(parent).h > 0
  }

  /**
   * One axis of `get_uv` for a region: a parent spanning [a1, a2] over `p`
   * pixels, and a region at pixel `x` of width `w`.
   */
  function SubSpan(a1: real, a2: real, p: nat, x: nat, w: nat): (real, real)
    requires p > 0
  {
    var d := (a2 - a1) / (p as real);
    var u1 := a1 + (x as real) * d;
    (u1, u1 + (w as real) * d)
  }

  /** `get_uv`: the corners (u1,v1) and (u2,v2) of the texture in its root. */
  function Uv(t: TexType): (Point, Point)
    requires UvDefined(t)
  {
    match t
    case Raw(_, _) => (Point(0.0, 0.0), Point(1.0, 1.0))
    case Sub(parent, r) =>
      var uv1 := Uv(parent).0;
      var uv2 := Uv(parent).1;
      var psize := GetSize(parent);
      var su := SubSpan(uv1.x, uv2.x, psize.w, r.x, r.w);
      var sv := SubSpan(uv1.y, uv2.y, psize.h, r.y, r.h);
      (Point(su.0, sv.0), Point(su.1, sv.1))
  }

  /** The pixel position of a texture's top-left corner in its root. */
  function Origin(t: TexType): PointU {
    match t
    case Raw(_, _) => PointU(0, 0)
    case Sub(parent, r) => PointU(Origin(parent).x + r.x, Origin(parent).y + r.y)
  }

  /** The fraction n/d of the root's size. */
  function Frac(n: nat, d: nat): real
    requires d > 0
  {
    (n as real) / (d as real)
  }

  /**
   * The UV rectangle is the texture's pixel rectangle in its root, divided by
   * the root's size: the nested formula only ever rescales by the root.
   */
  lemma {:induction false} UvIsPixelRectOverRoot(t: TexType)
    requires UvDefined(t) && Root(t).size.w > 0 && Root(t).size.h > 0
    ensures Uv(t).0 == Point(Frac(Origin(t).x, Root(t).size.w), Frac(Origin(t).y, Root(t).size.h))
    ensures Uv(t).1 == Point(Frac(Origin(t).x + GetSize(t).w, Root(t).size.w),
                             Frac(Origin(t).y + GetSize(t).h, Root(t).size.h))
  {
    match t
    case Raw(_, size) =>
      assert Root(t) == t;
      FracSelf(size.w);
      FracSelf(size.h);
    case Sub(parent, r) =>
      UvIsPixelRectOverRoot(parent);
      assert Root(t) == Root(parent);
      var o := Origin(parent);
      AxisStep(o.x, GetSize(parent).w, Root(t).size.w, Uv(parent).0.x, Uv(parent).1.x, r.x, r.w);
      AxisStep(o.y, GetSize(parent).h, Root(t).size.h, Uv(parent).0.y, Uv(parent).1.y, r.y, r.h);
  }

  /**
   * One axis of one level: a parent spanning [o/root, (o+p)/root] and a region
   * at offset x of width w span [(o+x)/root, (o+x+w)/root].
   */
  lemma AxisStep(o: nat, p: nat, root: nat, a1: real, a2: real, x: nat, w: nat)
    requires p > 0 && root > 0
    requires a1 == Frac(o, root) && a2 == Frac(o + p, root)
    ensures SubSpan(a1, a2, p, x, w) == (Frac(o + x, root), Frac(o + x + w, root))
  {
    var R := root as real;
    var P := p as real;
    var O := o as real;
    var X := x as real;
    var W := w as real;
    assert a2 == (O + P) / R;
    assert a2 - a1 == P / R;
    var d := (a2 - a1) / P;
    assert d == 1.0 / R;
    assert O / R + X * d == (O + X) / R;
    assert (O + X) / R + W * d == (O + X + W) / R;
    assert ((o + x) as real) == O + X && ((o + x + w) as real) == O + X + W;
    assert SubSpan(a1, a2, p, x, w).0 == a1 + X * d;
    assert SubSpan(a1, a2, p, x, w).1 == a1 + X * d + W * d;
  }

  lemma FracSelf(n: nat)
    requires n > 0
    ensures Frac(n, n) == 1.0
  {
  }

  /** A region lying inside its parent, at every level. */
  predicate InBounds(t: TexType) {
    match t
    case Raw(_, _) => true
    case Sub(parent, r) =>
      InBounds(parent) && r.x + r.w <= GetSize(parent).w && r.y + r.h <= GetSize(parent).h
  }

  /** A region's pixel rectangle stays inside its root. */
  lemma {:induction false} InBoundsInsideRoot(t: TexType)
    requires InBounds(t)
    ensures Origin(t).x + GetSize(t).w <= Root(t).size.w
    ensures Origin(t).y + GetSize(t).h <= Root(t).size.h
  {
    if t.Sub? {
      InBoundsInsideRoot(t.parent);
    }
  }

  /** For regions inside their parents, UVs are ordered and within [0, 1]. */
  lemma UvInUnitSquare(t: TexType)
    requires UvDefined(t) && InBounds(t) && Root(t).size.w > 0 && Root(t).size.h > 0
    ensures 0.0 <= Uv(t).0.x <= Uv(t).1.x <= 1.0
    ensures 0.0 <= Uv(t).0.y <= Uv(t).1.y <= 1.0
  {
    UvIsPixelRectOverRoot(t);
    InBoundsInsideRoot(t);
    FracMono(Origin(t).x, Origin(t).x + GetSize(t).w, Root(t).size.w);
    FracMono(Origin(t).y, Origin(t).y + GetSize(t).h, Root(t).size.h);
  }

  lemma FracMono(a: nat, b: nat, d: nat)
    requires a <= b <= d && d > 0
    ensures 0.0 <= Frac(a, d) <= Frac(b, d) <= 1.0
  {
  }

  /**
   * A 200x100 atlas, its region (50,25,100,50), and the region (0,0,50,25)
   * of that region.
   */
  lemma UvExample(tex: Texture2D)
    ensures var atlas := Raw(tex, SizeU(200, 100));
      var mid := NewSub(atlas, Rect(50, 25, 100, 50));
      var inner := NewSub(mid, Rect(0, 0, 50, 25));
      UvDefined(inner)
      && Uv(mid) == (Point(0.25, 0.25), Point(0.75, 0.75))
      && Uv(inner) == (Point(0.25, 0.25), Point(0.5, 0.5))
  {
    var atlas := Raw(tex, SizeU(200, 100));
    var mid := NewSub(atlas, Rect(50, 25, 100, 50));
    var inner := NewSub(mid, Rect(0, 0, 50, 25));
    assert GetSize(atlas) == SizeU(200, 100);
    assert GetSize(mid) == SizeU(100, 50);
    assert UvDefined(mid) && UvDefined(inner);
    assert Uv(atlas) == (Point(0.0, 0.0), Point(1.0, 1.0));
    assert Uv(mid) == (Point(0.25, 0.25), Point(0.75, 0.75));
  }
}
