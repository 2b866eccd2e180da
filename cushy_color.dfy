/**
 * The colour type of the top-level crate (src/color.rs): the same ABGR packing
 * as the renderer's colour, plus alpha replacement, integer source-alpha
 * blending and named constants.
 */
module CushyColor {

  type Byte = bv8
  type Word = bv32

  datatype Color = Color(bits: Word)

  function Shift(v: Byte, n: bv32): Word
    requires n <= 24
  {
    (v as Word) << n
  }

  function Unshift(v: Word, n: bv32): Byte
    requires n <= 24
  {
    ((v >> n) & 0xFF) as Byte
  }

  function FromU8(r: Byte, g: Byte, b: Byte, a: Byte): (c: Color)
    ensures c.bits & 0xFF == r as Word && (c.bits >> 8) & 0xFF == g as Word
    ensures (c.bits >> 16) & 0xFF == b as Word && c.bits >> 24 == a as Word
  {
    Color(Shift(a, 24) | Shift(b, 16) | Shift(g, 8) | Shift(r, 0))
  }

  function AsU8(c: Color): (t: (Byte, Byte, Byte, Byte))
    ensures t.0 as Word == c.bits & 0xFF && t.1 as Word == (c.bits >> 8) & 0xFF
    ensures t.2 as Word == (c.bits >> 16) & 0xFF && t.3 as Word == c.bits >> 24
  {
    (Unshift(c.bits, 0), Unshift(c.bits, 8), Unshift(c.bits, 16), Unshift(c.bits, 24))
  }

  lemma AsFromU8(r: Byte, g: Byte, b: Byte, a: Byte)
    ensures AsU8(FromU8(r, g, b, a)) == (r, g, b, a)
  {
  }

  lemma FromAsU8(c: Color)
    ensures var (r, g, b, a) := AsU8(c); FromU8(r, g, b, a) == c
  {
  }

  function AsU32(c: Color): (v: Word)
    ensures FromU32(v) == c
  {
    c.bits
  }

  /** `From<u32> for Color`. */
  function FromU32(v: Word): (c: Color)
    ensures c.bits == v
  {
    Color(v)
  }

  /** `From<Color> for u32` and `From<u32> for Color` are mutual inverses. */
  lemma U32RoundTrip(v: Word, c: Color)
    ensures AsU32(FromU32(v)) == v && FromU32(AsU32(c)) == c
  {
  }

  /** `From<(u8, u8, u8, u8)>`. */
  function FromTuple4(t: (Byte, Byte, Byte, Byte)): (c: Color)
    ensures AsU8(c) == t
  {
    AsFromU8(t.0, t.1, t.2, t.3);
    FromU8(t.0, t.1, t.2, t.3)
  }

  /**
   * `with_alpha`: keeps red, green and blue and replaces the alpha byte.  The
   * source converts an `f32` argument to that byte; here the byte is given.
   */
  function WithAlpha(c: Color, a: Byte): (r: Color)
    ensures r.bits & 0x00FF_FFFF == c.bits & 0x00FF_FFFF
    ensures r.bits >> 24 == a as Word
  {
    Color((c.bits & 0x00FF_FFFF) | Shift(a, 24))
  }

  /** The `u32` arithmetic of `blend`, before the `as u8` cast. */
  function BlendWide(s: nat, d: nat, a: nat): nat
    requires a <= 255
  {
    s * a / 255 + d * (255 - a) / 255
  }

  /** A byte value as the integer the `u32` arithmetic of `blend` works on. */
  type U8 = x: int | 0 <= x < 256

  /**
   * `blend(s, d, a)`; the final `as u8` cast keeps the low byte (`% 256`), and
   * the bound below shows that it never drops anything.
   */
  function Blend(s: U8, d: U8, a: U8): (r: U8)
    ensures r == BlendWide(s, d, a)
    ensures r <= MaxN(s, d)
    ensures a == 255 ==> r == s
    ensures a == 0 ==> r == d
  {
    BlendBound(s, d, a);
    BlendWide(s, d, a) % 256
  }

  function MaxN(a: nat, b: nat): nat { if a >= b then a else b }

  /** The blended value never exceeds the larger input, so never 255. */
  lemma BlendBound(s: nat, d: nat, a: nat)
    requires a <= 255
    ensures BlendWide(s, d, a) <= MaxN(s, d)
    ensures a == 255 ==> BlendWide(s, d, a) == s
    ensures a == 0 ==> BlendWide(s, d, a) == d
  {
    var m := MaxN(s, d);
    MulDivMono(s, m, a);
    MulDivMono(d, m, 255 - a);
    FloorSum(m * a, m * (255 - a));
    assert m * a + m * (255 - a) == m * 255;
  }

  lemma MulDivMono(x: nat, m: nat, k: nat)
    requires x <= m
    ensures x * k / 255 <= m * k / 255
  {
    assert x * k <= m * k by {
      assert (m - x) * k >= 0;
    }
  }

  lemma FloorSum(p: nat, q: nat)
    ensures p / 255 + q / 255 <= (p + q) / 255
  {
    var p1, q1 := p / 255, q / 255;
    assert p1 * 255 <= p && q1 * 255 <= q;
    assert (p1 + q1) * 255 <= p + q;
  }

  /** `blend_srcalpha`: source-alpha blend of `src` over `dst`. */
  function BlendSrcAlpha(src: Color, dst: Color): (r: Color)
    ensures AsU8(src).3 == 255 ==> r == src
    ensures AsU8(src).3 == 0 ==> r == dst
    ensures AsU8(src).3 != 255 && AsU8(src).3 != 0 ==>
      var (sr, sg, sb, sa) := AsU8(src);
      var (dr, dg, db, da) := AsU8(dst);
      AsU8(r) == (BlendByte(sr, dr, sa), BlendByte(sg, dg, sa), BlendByte(sb, db, sa), da)
  {
    var (sr, sg, sb, sa) := AsU8(src);
    if sa == 255 then src
    else if sa == 0 then dst
    else
      var (dr, dg, db, da) := AsU8(dst);
      AsFromU8(BlendByte(sr, dr, sa), BlendByte(sg, dg, sa), BlendByte(sb, db, sa), da);
      FromU8(BlendByte(sr, dr, sa), BlendByte(sg, dg, sa), BlendByte(sb, db, sa), da)
  }

  /** `blend` applied to bytes taken out of a packed colour. */
  function BlendByte(s: Byte, d: Byte, a: Byte): Byte {
    Blend(s as int, d as int, a as int) as Byte
  }

  /** Blending keeps the destination's alpha byte whenever the source is translucent. */
  lemma BlendKeepsDstAlpha(src: Color, dst: Color)
    requires AsU8(src).3 != 255 && AsU8(src).3 != 0
    ensures AsU8(BlendSrcAlpha(src, dst)).3 == AsU8(dst).3
  {
  }

  function None(): (c: Color)
    ensures c == Transparent() && AsU8(c) == (0, 0, 0, 0)
  {
    Color(0)
  }

  function Transparent(): (c: Color)
    ensures AsU8(c).3 == 0
  {
    Color(0)
  }

  function Black(): (c: Color)
    ensures AsU8(c) == (0, 0, 0, 255)
  {
    Color(0xFF00_0000)
  }

  function White(): (c: Color)
    ensures AsU8(c) == (255, 255, 255, 255)
  {
    Color(0xFFFF_FFFF)
  }
}
