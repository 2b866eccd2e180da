/**
 * Texture filters and the GL texture handle of cushy-gl/src/tex2d.rs.
 * GL enumerant values are those of the OpenGL headers.
 */
module Tex2d {

  const GL_NEAREST: nat := 0x2600
  const GL_LINEAR: nat := 0x2601

  datatype TexFilter = Nearest | Linear

  function GlFilter(f: TexFilter): (v: nat)
    ensures v == GL_NEAREST <==> f == Nearest
    ensures v == GL_LINEAR <==> f == Linear
  {
    match f
    case Nearest => GL_NEAREST
    case Linear => GL_LINEAR
  }

  /** A minification/magnification filter pair, named min first. */
  datatype TexFilters = NearestNearest | NearestLinear | LinearLinear | LinearNearest

  function DefaultFilters(): (f: TexFilters)
    ensures Min(f) == Nearest && Mag(f) == Nearest
  {
    NearestNearest
  }

  function Min(f: TexFilters): TexFilter {
    match f
    case NearestNearest | NearestLinear => Nearest
    case LinearLinear | LinearNearest => Linear
  }

  function Mag(f: TexFilters): TexFilter {
    match f
    case NearestNearest | LinearNearest => Nearest
    case LinearLinear | NearestLinear => Linear
  }

  /** `gl_filters`: a table of its own in the source, consistent with `min` and `mag`. */
  function GlFilters(f: TexFilters): (p: (nat, nat))
    ensures p == (GlFilter(Min(f)), GlFilter(Mag(f)))
  {
    match f
    case NearestNearest => (GL_NEAREST, GL_NEAREST)
    case NearestLinear => (GL_NEAREST, GL_LINEAR)
    case LinearLinear => (GL_LINEAR, GL_LINEAR)
    case LinearNearest => (GL_LINEAR, GL_NEAREST)
  }

  /** The filter pair is determined by its min and mag filters, and every pair is reachable. */
  lemma FiltersDeterminedByMinMag(f: TexFilters, g: TexFilters, mn: TexFilter, mg: TexFilter)
    ensures (Min(f) == Min(g) && Mag(f) == Mag(g)) <==> f == g
    ensures exists h :: Min(h) == mn && Mag(h) == mg
  {
    var h := match (mn, mg)
      case (Nearest, Nearest) => NearestNearest
      case (Nearest, Linear) => NearestLinear
      case (Linear, Linear) => LinearLinear
      case (Linear, Nearest) => LinearNearest;
    assert Min(h) == mn && Mag(h) == mg;
  }

  /** `Texture2D`: a GL texture name and the filters it was created with. */
  datatype Texture2D = Texture2D(id: nat, filters: TexFilters)

  /** `PartialEq for Texture2D`: equal exactly when the GL ids are equal. */
  predicate SameTexture(a: Texture2D, b: Texture2D) {
    a.id == b.id
  }

  /** Texture equality is an equivalence, and the filters play no part in it. */
  lemma SameTextureIsEquivalence(a: Texture2D, b: Texture2D, c: Texture2D)
    ensures SameTexture(a, a)
    ensures SameTexture(a, b) ==> SameTexture(b, a)
    ensures SameTexture(a, b) && SameTexture(b, c) ==> SameTexture(a, c)
    ensures SameTexture(a, b) <==> SameTexture(a.(filters := c.filters), b)
  {
  }

  /** What `upload_raw` hands to the GL: the filter parameters and a `w`x`h` image. */
  datatype TexImage = TexImage(minFilter: nat, magFilter: nat, w: nat, h: nat, pixels: seq<bv32>)

  /**
   * `upload_raw`: asserts that the pixel count is `w*h`, then sets the filters
   * and creates the image store.
   */
  function UploadRaw(t: Texture2D, w: nat, h: nat, data: seq<bv32>): (img: TexImage)
    requires w * h == |data|
    ensures (img.minFilter, img.magFilter) == GlFilters(t.filters)
    ensures img.w == w && img.h == h && img.pixels == data && |img.pixels| == img.w * img.h
  {
    TexImage(GlFilters(t.filters).0, GlFilters(t.filters).1, w, h, data)
  }
}
