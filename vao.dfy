/**
 * The vertex array of cushy-gl/src/vao.rs.  The attribute registrations that
 * `add_vertex_buffer` makes through `glVertexAttribPointer` and
 * `glVertexAttribDivisor` are recorded in `log`.
 */
module Vao {
  import opened Opt
  import opened Vertex

  const GL_POINTS: nat := 0x0
  const GL_LINES: nat := 0x1
  const GL_LINE_LOOP: nat := 0x2
  const GL_LINE_STRIP: nat := 0x3
  const GL_TRIANGLES: nat := 0x4
  const GL_TRIANGLE_STRIP: nat := 0x5
  const GL_TRIANGLE_FAN: nat := 0x6
  const GL_LINES_ADJACENCY: nat := 0xA
  const GL_LINE_STRIP_ADJACENCY: nat := 0xB
  const GL_TRIANGLES_ADJACENCY: nat := 0xC
  const GL_TRIANGLE_STRIP_ADJACENCY: nat := 0xD

  datatype PrimitiveType =
    | Points | LineStrip | LineLoop | Lines | LineStripAdjacency | LinesAdjacency
    | TriangleStrip | TriangleFan | Triangles | TriangleStripAdjacency | TrianglesAdjacency

  /** `PrimitiveType::gl_type`. */
  function GlType(p: PrimitiveType): (r: nat)
    ensures r <= 0xD && r !in {7, 8, 9}
  {
    match p
    case Points => GL_POINTS
    case LineStrip => GL_LINE_STRIP
    case LineLoop => GL_LINE_LOOP
    case Lines => GL_LINES
    case LineStripAdjacency => GL_LINE_STRIP_ADJACENCY
    case LinesAdjacency => GL_LINES_ADJACENCY
    case TriangleStrip => GL_TRIANGLE_STRIP
    case TriangleFan => GL_TRIANGLE_FAN
    case Triangles => GL_TRIANGLES
    case TriangleStripAdjacency => GL_TRIANGLE_STRIP_ADJACENCY
    case TrianglesAdjacency => GL_TRIANGLES_ADJACENCY
  }

  /** Each primitive type reaches the driver as its own mode. */
  lemma GlTypeInjective(p: PrimitiveType, q: PrimitiveType)
    ensures GlType(p) == GlType(q) <==> p == q
  {
  }

  /** One attribute registration: slot, `glVertexAttribPointer` arguments and the divisor if set. */
  datatype AttribSetup = AttribSetup(
    slot: nat, count: nat, typ: nat, norm: nat, stride: nat, offset: nat, divisor: Option<nat>)

  /** The registration of attribute `a` in `slot` at byte `offset`. */
  function Setup(a: VertexAttrib, slot: nat, stride: nat, offset: nat, divisor: nat): AttribSetup {
    var g := GlDataOf(a);
    AttribSetup(slot, g.count, g.typ, g.norm, stride, offset, if divisor > 0 then Some(divisor) else None)
  }

  /** The registrations made for a vertex type with attributes `attrs`, starting at slot `base`. */
  function Setups(attrs: seq<VertexAttrib>, base: nat, stride: nat, divisor: nat): (r: seq<AttribSetup>)
    ensures |r| == |attrs|
  {
    if attrs == [] then []
    else
      var init := attrs[..|attrs| - 1];
      Setups(init, base, stride, divisor)
        + [Setup(attrs[|attrs| - 1], base + |init|, stride, SizeSum(init), divisor)]
  }

  /**
   * Attribute `i` goes to slot `base + i`, at the byte offset that adds up the
   * sizes of the attributes before it, with the vertex type's stride and the
   * component count, type and normalisation of its GL data, and gets a divisor
   * only when the type's divisor is positive.
   */
  lemma {:induction false} SetupsAt(attrs: seq<VertexAttrib>, base: nat, stride: nat, divisor: nat, i: nat)
    requires i < |attrs|
    ensures Setups(attrs, base, stride, divisor)[i].slot == base + i
    ensures Setups(attrs, base, stride, divisor)[i].offset == SizeSum(attrs[..i])
    ensures Setups(attrs, base, stride, divisor)[i].stride == stride
    ensures Setups(attrs, base, stride, divisor)[i].divisor == (if divisor > 0 then Some(divisor) else None)
    ensures Setups(attrs, base, stride, divisor)[i].count == GlDataOf(attrs[i]).count
    ensures Setups(attrs, base, stride, divisor)[i].typ == GlDataOf(attrs[i]).typ
    ensures Setups(attrs, base, stride, divisor)[i].norm == GlDataOf(attrs[i]).norm
    decreases |attrs|
  {
    var init := attrs[..|attrs| - 1];
    if i < |attrs| - 1 {
      assert init[..i] == attrs[..i];
      SetupsAt(init, base, stride, divisor, i);
    }
  }

  /** In a layout whose attributes cover its fields, every attribute lies inside the vertex. */
  lemma OffsetsWithinStride(l: Layout, i: nat)
    requires Consistent(l) && i < |l.attributes|
    ensures SizeSum(l.attributes[..i]) + GlDataOf(l.attributes[i]).size <= l.Stride()
  {
    var a := l.attributes;
    assert a[..i + 1] == a[..i] + [a[i]];
    assert a == a[..i + 1] + a[i + 1..];
    SizeSumAppend(a[..i], [a[i]]);
    SizeSumAppend(a[..i + 1], a[i + 1..]);
  }

  class VertexArray {
    var baseIndex: nat
    /** The attribute registrations made so far. */
    var log: seq<AttribSetup>

    /** `new`: no slot used yet. */
    constructor ()
      ensures baseIndex == 0 && log == []
    {
      baseIndex := 0;
      log := [];
    }

    /** `add_vertex_buffer`: registers every attribute of the buffer's vertex type. */
    method AddVertexBuffer(l: Layout)
      modifies this
      ensures baseIndex == old(baseIndex) + |l.attributes|
      ensures log == old(log) + Setups(l.attributes, old(baseIndex), l.Stride(), l.divisor)
    {
      var attrs := l.attributes;
      var stride := l.Stride();
      var pos := 0;
      var i := 0;
      while i < |attrs|
        invariant 0 <= i <= |attrs|
        invariant baseIndex == old(baseIndex) + i
        invariant pos == SizeSum(attrs[..i])
        invariant log == old(log) + Setups(attrs[..i], old(baseIndex), stride, l.divisor)
      {
        var g := GlDataOf(attrs[i]);
        log := log + [Setup(attrs[i], baseIndex, stride, pos, l.divisor)];
        baseIndex := baseIndex + 1;
        assert attrs[..i + 1][..i] == attrs[..i];
        SizeSumAppend(attrs[..i], [attrs[i]]);
        assert attrs[..i] + [attrs[i]] == attrs[..i + 1];
        pos := pos + g.size;
        i := i + 1;
      }
      assert attrs[..i] == attrs;
    }
  }
}
