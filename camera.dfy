/**
 * The camera of cushy-gfx/src/camera.rs: stretch mode, transform, viewport
 * size and the projection cached from the viewport size.  The `cgmath`
 * matrix is represented by the orthographic box it is built from.
 */
module Camera {
  import Opt
  import opened Geo
  import Event

  datatype StretchMode = None | Fill | KeepAspect(ratio: real)

  /** The arguments of `cgmath::ortho`, standing for the matrix it builds. */
  datatype Ortho = Ortho(left: real, right: real, bottom: real, top: real, near: real, far: real)

  /** `calc_proj_matrix`: x from 0 to w, y from h (bottom) to 0 (top), z from 1 to -1. */
  function ProjFor(vp: SizeU): (m: Ortho)
    ensures m.left == 0.0 && m.right == vp.w as real
    ensures m.bottom == vp.h as real && m.top == 0.0
    ensures m.near == 1.0 && m.far == -1.0
  {
    Ortho(0.0, vp.w as real, vp.h as real, 0.0, 1.0, -1.0)
  }

  /** One axis of an orthographic projection: `lo` goes to -1 and `hi` to 1. */
  function Axis(v: real, lo: real, hi: real): real
    requires lo != hi
  {
    2.0 * ((v - lo) / (hi - lo)) - 1.0
  }

  /** Where an orthographic projection sends a 2D point, in normalised device coordinates. */
  function OrthoApply(m: Ortho, p: Point): Point
    requires m.right != m.left && m.top != m.bottom
  {
    Point(Axis(p.x, m.left, m.right), Axis(p.y, m.bottom, m.top))
  }

  /** The end points of an axis land on -1 and 1, and what lies between them in between. */
  lemma AxisRange(v: real, lo: real, hi: real)
    requires lo != hi
    ensures Axis(lo, lo, hi) == -1.0 && Axis(hi, lo, hi) == 1.0
    ensures (lo <= v <= hi || hi <= v <= lo) ==> -1.0 <= Axis(v, lo, hi) <= 1.0
  {
    DivSelf(hi - lo);
    if lo <= v <= hi {
      UnitFraction(v - lo, hi - lo);
    } else if hi <= v <= lo {
      UnitFraction(lo - v, lo - hi);
      assert (v - lo) / (hi - lo) == (lo - v) / (lo - hi);
    }
  }

  lemma DivSelf(d: real)
    requires d != 0.0
    ensures d / d == 1.0
  {
  }

  lemma UnitFraction(a: real, d: real)
    requires 0.0 <= a <= d && d > 0.0
    ensures 0.0 <= a / d <= 1.0
  {
  }

  /**
   * The cached projection maps the viewport's pixels onto the screen: the
   * top-left pixel corner to (-1, 1), the bottom-right one to (1, -1), with y
   * growing downwards.
   */
  lemma ProjMapsViewport(vp: SizeU, p: Point)
    requires vp.w > 0 && vp.h > 0
    ensures OrthoApply(ProjFor(vp), Point(0.0, 0.0)) == Point(-1.0, 1.0)
    ensures OrthoApply(ProjFor(vp), Point(vp.w as real, vp.h as real)) == Point(1.0, -1.0)
    ensures 0.0 <= p.x <= vp.w as real && 0.0 <= p.y <= vp.h as real ==>
      -1.0 <= OrthoApply(ProjFor(vp), p).x <= 1.0 && -1.0 <= OrthoApply(ProjFor(vp), p).y <= 1.0
  {
    AxisRange(p.x, 0.0, vp.w as real);
    AxisRange(p.y, vp.h as real, 0.0);
  }

  /** The default viewport, 480x270. */
  const DefaultVpSize := SizeU(480, 270)

  class Camera {
    var stretch: StretchMode
    var transform: Transform
    var vpSize: SizeU
    /** The cached projection, absent until first computed. */
    var proj: Opt.Option<Ortho>

    /** The cache, when present, belongs to the current viewport size. */
    ghost predicate Valid()
      reads this
    {
      proj.Some? ==> proj.value == ProjFor(vpSize)
    }

    /** `Camera::new`. */
    constructor ()
      ensures Valid()
      ensures stretch == None && transform == TransformDefault()
      ensures vpSize == DefaultVpSize && proj == Opt.None
    {
      stretch := None;
      transform := TransformDefault();
      vpSize := DefaultVpSize;
      proj := Opt.None;
    }

    /** `calc_proj_matrix`. */
    method CalcProjMatrix()
      modifies this
      ensures proj == Opt.Some(ProjFor(vpSize)) && Valid()
      ensures stretch == old(stretch) && transform == old(transform) && vpSize == old(vpSize)
    {
      proj := Opt.Some(ProjFor(vpSize));
    }

    /** `set_stretch_mode`: also computes the projection, from the current viewport size. */
    method SetStretchMode(sm: StretchMode)
      modifies this
      ensures stretch == sm && proj == Opt.Some(ProjFor(vpSize)) && Valid()
      ensures transform == old(transform) && vpSize == old(vpSize)
    {
      stretch := sm;
      CalcProjMatrix();
    }

    /** `set_transform`: nothing but the transform changes. */
    method SetTransform(t: Transform)
      modifies this
      ensures transform == t
      ensures stretch == old(stretch) && vpSize == old(vpSize) && proj == old(proj)
      ensures old(Valid()) ==> Valid()
    {
      transform := t;
    }

    /** `set_vp_size`. */
    method SetVpSize(vp: SizeU)
      modifies this
      ensures vpSize == vp && proj == Opt.Some(ProjFor(vp)) && Valid()
      ensures stretch == old(stretch) && transform == old(transform)
    {
      vpSize := vp;
      CalcProjMatrix();
    }

    /** `resize_event`: a window resize sets the viewport size; any other event changes nothing. */
    method ResizeEvent(ev: Event.Event)
      modifies this
      ensures ev.WindowResize? ==> vpSize == SizeU(ev.w, ev.h) && proj == Opt.Some(ProjFor(vpSize))
      ensures !ev.WindowResize? ==> vpSize == old(vpSize) && proj == old(proj)
      ensures stretch == old(stretch) && transform == old(transform)
      ensures old(Valid()) ==> Valid()
    {
      if ev.WindowResize? {
        SetVpSize(SizeU(ev.w, ev.h));
      }
    }

    /** `proj_matrix`: only once the projection has been computed (the source panics otherwise). */
    function ProjMatrix(): (m: Ortho)
      reads this
      requires proj.Some? && Valid()
      ensures m == ProjFor(vpSize)
    {
      proj.value
    }
  }
}
