/**
 * The packed colour of cushy-gfx/src/color.rs: a `u32` holding red in bits
 * 0-7, green in 8-15, blue in 16-23 and alpha in 24-31.
 */
module GfxColor {

  type Byte = bv8
  type Word = bv32

  /** `Color(u32)`; `Default` gives `Color(0)`. */
  datatype Color = Color(bits: Word)

  function Default(): (c: Color)
    ensures ToU8(c) == (0, 0, 0, 0)
  {
    Color(0)
  }

  /** `shift(v, c)`: the byte widened to 32 bits and moved up by `c`. */
  function Shift(v: Byte, c: bv32): Word
    requires c <= 24
  {
    (v as Word) << c
  }

  /** `unshift(v, c)`: the byte found at bit `c`. */
  function Unshift(v: Word, c: bv32): Byte
    requires c <= 24
  {
    ((v >> c) & 0xFF) as Byte
  }

  function FromU8(r: Byte, g: Byte, b: Byte, a: Byte): (c: Color)
    ensures c.bits & 0xFF == r as Word
    ensures (c.bits >> 8) & 0xFF == g as Word
    ensures (c.bits >> 16) & 0xFF == b as Word
    ensures c.bits >> 24 == a as Word
  {
    Color(Shift(a, 24) | Shift(b, 16) | Shift(g, 8) | Shift(r, 0))
  }

  function ToU8(c: Color): (t: (Byte, Byte, Byte, Byte))
    ensures t.0 as Word == c.bits & 0xFF
    ensures t.1 as Word == (c.bits >> 8) & 0xFF
    ensures t.2 as Word == (c.bits >> 16) & 0xFF
    ensures t.3 as Word == c.bits >> 24
  {
    (Unshift(c.bits, 0), Unshift(c.bits, 8), Unshift(c.bits, 16), Unshift(c.bits, 24))
  }

  /** `to_u8(from_u8(r, g, b, a)) == (r, g, b, a)`. */
  lemma ToFromU8(r: Byte, g: Byte, b: Byte, a: Byte)
    ensures ToU8(FromU8(r, g, b, a)) == (r, g, b, a)
  {
  }

  /** `from_u8(to_u8(c)) == c` for every 32-bit value. */
  lemma FromToU8(c: Color)
    ensures var (r, g, b, a) := ToU8(c); FromU8(r, g, b, a) == c
  {
  }

  /** `as_u32` and `Deref`: the packed value. */
  function AsU32(c: Color): (v: Word)
    ensures FromU32(v) == c
  {
    c.bits
  }

  /** `From<u32> for Color`. */
  function FromU32(v: Word): (c: Color)
    ensures c.bits == v
  {
    Color(v)
  }

  /** `From<(u8, u8, u8, u8)>`: the same as `from_u8`. */
  function FromTuple4(t: (Byte, Byte, Byte, Byte)): (c: Color)
    ensures ToU8(c) == t
  {
    ToFromU8(t.0, t.1, t.2, t.3);
    FromU8(t.0, t.1, t.2, t.3)
  }

  /** `From<(u8, u8, u8)>`: opaque alpha 255. */
  function FromTuple3(t: (Byte, Byte, Byte)): (c: Color)
    ensures ToU8(c) == (t.0, t.1, t.2, 255)
    ensures c.bits >> 24 == 0xFF
  {
    ToFromU8(t.0, t.1, t.2, 255);
    FromU8(t.0, t.1, t.2, 255)
  }
}
