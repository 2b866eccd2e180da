/**
 * The quad renderer of cushy-gfx/src/quad.rs.  A `Quad` is a value: a
 * transform, an origin, an optional forced size, a colour and an optional
 * texture.  A `QuadRenderer` queues quads, groups consecutive quads that share
 * a texture into batches, and at `draw` time turns the queue into vertices,
 * uploads them and issues one indexed draw per batch.
 *
 * The matrix maths (`calc_matrix` and the product with each corner) is code
 * outside this model: a CPU vertex records the transform, origin and local
 * corner that the matrix is applied to.  GL calls are recorded in `log`.
 */
module Quad {
  import opened Opt
  import opened Geo
  import opened GfxColor
  import opened Texture
  import Tex2d
  import Vertex
  import Vbo
  import Ibo
  import Vao
  import Camera

  // ---------------------------------------------------------------- Quad

  /** `Quad`. */
  datatype Quad = Quad(trans: Transform, origin: Point, size: Option<Size>, col: Color, tex: Option<TexType>)

  /** `Quad::new`: default transform, origin (0,0), no size, opaque white, no texture. */
  function New(): (q: Quad)
    ensures q.trans == TransformDefault() && q.origin == Point(0.0, 0.0)
    ensures q.col == Color(0xFFFF_FFFF) && q.size == None && q.tex == None
    ensures !HasSize(q)
  {
    Quad(TransformDefault(), Point(0.0, 0.0), None, Color(0xFFFF_FFFF), None)
  }

  /** `has_size`: the quad has a forced size or a texture to take its size from. */
  predicate HasSize(q: Quad) {
    q.tex.Some? || q.size.Some?
  }

  /** `size`: the forced size first, otherwise the texture's (the source panics when neither exists). */
  function QuadSize(q: Quad): (s: Size)
    requires HasSize(q)
    ensures q.size.Some? ==> s == q.size.value
    ensures q.size.None? ==> s == SizeFromU(GetSize(q.tex.value))
  {
    match q.size
    case Some(sz) => sz
    case None => SizeFromU(GetSize(q.tex.value))
  }

  /** `set_size`: forcing a size gives the quad that size, texture or not. */
  function SetSize(q: Quad, sz: Size): (r: Quad)
    ensures HasSize(r) && QuadSize(r) == sz
    ensures r.tex == q.tex && r.col == q.col && r.trans == q.trans && r.origin == q.origin
  {
    q.(size := Some(sz))
  }

  /** `set_texture`: a textured quad without a forced size takes the texture's size. */
  function SetTexture(q: Quad, t: Option<TexType>): (r: Quad)
    ensures r.tex == t && r.size == q.size && r.col == q.col && r.trans == q.trans && r.origin == q.origin
    ensures t.Some? ==> HasSize(r)
    ensures t.Some? && q.size.None? ==> QuadSize(r) == SizeFromU(GetSize(t.value))
  {
    q.(tex := t)
  }

  // ---------------------------------------------------------------- Vertices

  /** The texture's UVs can be computed (every parent along the way has a non-zero size). */
  predicate UvOk(q: Quad) {
    q.tex.Some? ==> UvDefined(q.tex.value)
  }

  /** A quad `make_vertex_*` can be applied to. */
  predicate Drawable(q: Quad) {
    HasSize(q) && UvOk(q)
  }

  /** The UV rectangle of the quad: the texture's, or all zeros when untextured. */
  function QuadUv(q: Quad): (uv: (Point, Point))
    requires UvOk(q)
  {
    if q.tex.Some? then Uv(q.tex.value) else (Point(0.0, 0.0), Point(0.0, 0.0))
  }

  /** Local corner `k` of a `w`x`h` quad: (0,0), (w,0), (0,h), (w,h). */
  function Corner(k: nat, s: Size): Point
    requires k < 4
  {
    Point(if k % 2 == 0 then 0.0 else s.w, if k < 2 then 0.0 else s.h)
  }

  /** UV of corner `k`: (u1,v1), (u2,v1), (u1,v2), (u2,v2). */
  function UvCorner(k: nat, uv: (Point, Point)): Point
    requires k < 4
  {
    Point(if k % 2 == 0 then uv.0.x else uv.1.x, if k < 2 then uv.0.y else uv.1.y)
  }

  /** The quad's matrix (computed from its transform and origin) applied to a local corner. */
  datatype Transformed = Transformed(trans: Transform, origin: Point, corner: Point)

  /** `QuadVertexCpu`: the transformed position, the colour and the UV. */
  datatype CpuVertex = CpuVertex(vert: Transformed, col: Word, u: real, v: real)

  /** `QuadVertexGpu`: the transform components, the local corner, the colour and the UV. */
  datatype GpuVertex = GpuVertex(
    tx: real, ty: real, rot: real, sx: real, sy: real, ox: real, oy: real,
    px: real, py: real, col: Word, u: real, v: real)

  /** `make_vertex_cpu`: corner `k` transformed, in the quad's colour, with UV corner `k`. */
  function MakeVertexCpu(q: Quad): (vs: seq<CpuVertex>)
    requires Drawable(q)
    ensures |vs| == 4
    ensures forall k :: 0 <= k < 4 ==>
      vs[k].vert == Transformed(q.trans, q.origin, Corner(k, QuadSize(q))) && vs[k].col == q.col.bits
      && vs[k].u == UvCorner(k, QuadUv(q)).x && vs[k].v == UvCorner(k, QuadUv(q)).y
  {
    var s := QuadSize(q);
    var uv := QuadUv(q);
    var (u1, v1, u2, v2) := (uv.0.x, uv.0.y, uv.1.x, uv.1.y);
    [ CpuVertex(Transformed(q.trans, q.origin, Point(0.0, 0.0)), q.col.bits, u1, v1),
      CpuVertex(Transformed(q.trans, q.origin, Point(s.w, 0.0)), q.col.bits, u2, v1),
      CpuVertex(Transformed(q.trans, q.origin, Point(0.0, s.h)), q.col.bits, u1, v2),
      CpuVertex(Transformed(q.trans, q.origin, Point(s.w, s.h)), q.col.bits, u2, v2) ]
  }

  /** The transform components every GPU vertex of the quad carries. */
  predicate CarriesTransform(g: GpuVertex, q: Quad) {
    g.tx == q.trans.pos.x && g.ty == q.trans.pos.y && g.rot == q.trans.rot.rad
    && g.sx == q.trans.scale.x && g.sy == q.trans.scale.y
    && g.ox == q.origin.x && g.oy == q.origin.y
  }

  /** `make_vertex_gpu`: corner `k` untransformed, with the transform carried alongside. */
  function MakeVertexGpu(q: Quad): (vs: seq<GpuVertex>)
    requires Drawable(q)
    ensures |vs| == 4
    ensures forall k :: 0 <= k < 4 ==>
      CarriesTransform(vs[k], q) && Point(vs[k].px, vs[k].py) == Corner(k, QuadSize(q))
      && vs[k].col == q.col.bits
      && vs[k].u == UvCorner(k, QuadUv(q)).x && vs[k].v == UvCorner(k, QuadUv(q)).y
  {
    var s := QuadSize(q);
    var uv := QuadUv(q);
    var (u1, v1, u2, v2) := (uv.0.x, uv.0.y, uv.1.x, uv.1.y);
    var t := q.trans;
    var (tx, ty, rot, sx, sy, ox, oy) :=
      (t.pos.x, t.pos.y, t.rot.rad, t.scale.x, t.scale.y, q.origin.x, q.origin.y);
    [ GpuVertex(tx, ty, rot, sx, sy, ox, oy, 0.0, 0.0, q.col.bits, u1, v1),
      GpuVertex(tx, ty, rot, sx, sy, ox, oy, s.w, 0.0, q.col.bits, u2, v1),
      GpuVertex(tx, ty, rot, sx, sy, ox, oy, 0.0, s.h, q.col.bits, u1, v2),
      GpuVertex(tx, ty, rot, sx, sy, ox, oy, s.w, s.h, q.col.bits, u2, v2) ]
  }

  /**
   * The two vertex formats describe the same quad: vertex `k` of each has the
   * same colour and UV, the CPU one transforms the GPU one's local corner, and
   * all four GPU vertices carry identical transform components.
   */
  lemma CpuAndGpuAgree(q: Quad, k: nat)
    requires Drawable(q) && k < 4
    ensures MakeVertexCpu(q)[k].col == MakeVertexGpu(q)[k].col == q.col.bits
    ensures MakeVertexCpu(q)[k].u == MakeVertexGpu(q)[k].u && MakeVertexCpu(q)[k].v == MakeVertexGpu(q)[k].v
    ensures MakeVertexCpu(q)[k].vert.corner == Point(MakeVertexGpu(q)[k].px, MakeVertexGpu(q)[k].py)
    ensures var g := MakeVertexGpu(q);
      (g[k].tx, g[k].ty, g[k].rot, g[k].sx, g[k].sy, g[k].ox, g[k].oy)
      == (g[0].tx, g[0].ty, g[0].rot, g[0].sx, g[0].sy, g[0].ox, g[0].oy)
  {
  }

  /**
   * A textured quad samples exactly its texture's pixel rectangle in the root
   * texture: corner 0 gets the rectangle's top-left over the root size, corner 3
   * its bottom-right.  An untextured quad gets UV (0,0) at every corner.
   */
  lemma VertexUvsSelectTexture(q: Quad)
    requires Drawable(q)
    requires q.tex.Some? ==> Root(q.tex.value).size.w > 0 && Root(q.tex.value).size.h > 0
    ensures q.tex.None? ==> forall k :: 0 <= k < 4 ==> MakeVertexCpu(q)[k].u == 0.0 && MakeVertexCpu(q)[k].v == 0.0
    ensures q.tex.Some? ==>
      var t := q.tex.value;
      var root := Root(t).size;
      var o := Origin(t);
      MakeVertexCpu(q)[0].u == Frac(o.x, root.w) && MakeVertexCpu(q)[0].v == Frac(o.y, root.h)
      && MakeVertexCpu(q)[3].u == Frac(o.x + GetSize(t).w, root.w)
      && MakeVertexCpu(q)[3].v == Frac(o.y + GetSize(t).h, root.h)
  {
    if q.tex.Some? {
      UvIsPixelRectOverRoot(q.tex.value);
    }
  }

  /** `convert_vec` after the per-quad map: the vertices of every quad, four each, in queue order. */
  function CpuVertices(qs: seq<Quad>): (vs: seq<CpuVertex>)
    requires forall i :: 0 <= i < |qs| ==> Drawable(qs[i])
    ensures |vs| == 4 * |qs|
    decreases |qs|
  {
    if |qs| == 0 then []
    else
      var init := qs[..|qs| - 1];
      assert forall i :: 0 <= i < |init| ==> init[i] == qs[i];
      CpuVertices(init) + MakeVertexCpu(qs[|qs| - 1])
  }

  /** Vertex `k` of the `i`-th quad sits at position `4 * i + k` of `CpuVertices`. */
  lemma {:induction false} CpuVerticesAt(qs: seq<Quad>, i: nat, k: nat)
    requires forall j :: 0 <= j < |qs| ==> Drawable(qs[j])
    requires i < |qs| && k < 4
    ensures 4 * i + k < |CpuVertices(qs)|
    ensures CpuVertices(qs)[4 * i + k] == MakeVertexCpu(qs[i])[k]
    decreases |qs|
  {
    var init := qs[..|qs| - 1];
    assert forall j :: 0 <= j < |init| ==> init[j] == qs[j];
    if i < |init| {
      CpuVerticesAt(init, i, k);
    }
  }

  /** The GPU counterpart of `CpuVertices`. */
  function GpuVertices(qs: seq<Quad>): (vs: seq<GpuVertex>)
    requires forall i :: 0 <= i < |qs| ==> Drawable(qs[i])
    ensures |vs| == 4 * |qs|
    decreases |qs|
  {
    if |qs| == 0 then []
    else
      var init := qs[..|qs| - 1];
      assert forall i :: 0 <= i < |init| ==> init[i] == qs[i];
      GpuVertices(init) + MakeVertexGpu(qs[|qs| - 1])
  }

  /** Vertex `k` of the `i`-th quad sits at position `4 * i + k` of `GpuVertices`. */
  lemma {:induction false} GpuVerticesAt(qs: seq<Quad>, i: nat, k: nat)
    requires forall j :: 0 <= j < |qs| ==> Drawable(qs[j])
    requires i < |qs| && k < 4
    ensures 4 * i + k < |GpuVertices(qs)|
    ensures GpuVertices(qs)[4 * i + k] == MakeVertexGpu(qs[i])[k]
    decreases |qs|
  {
    var init := qs[..|qs| - 1];
    assert forall j :: 0 <= j < |init| ==> init[j] == qs[j];
    if i < |init| {
      GpuVerticesAt(init, i, k);
    }
  }

  // ---------------------------------------------------------------- Batches

  /** `QRBatch`: `count` queued quads from `start` on, drawn with texture `tex`. */
  datatype Batch = Batch(tex: Option<TexType>, start: nat, count: nat)

  /** Where the last batch ends: the number of quads the batches account for. */
  function End(bs: seq<Batch>): nat {
    if |bs| == 0 then 0 else bs[|bs| - 1].start + bs[|bs| - 1].count
  }

  /** The batches cut `[0, n)` into consecutive non-empty runs. */
  predicate Tiles(bs: seq<Batch>, n: nat) {
    (forall k :: 0 <= k < |bs| ==> bs[k].count > 0)
    && (|bs| > 0 ==> bs[0].start == 0)
    && (forall k :: 0 < k < |bs| ==> bs[k].start == bs[k - 1].start + bs[k - 1].count)
    && End(bs) == n
  }

  /** Each batch carries the texture of its first quad. */
  predicate Headed(bs: seq<Batch>, qs: seq<Quad>) {
    forall k :: 0 <= k < |bs| && bs[k].start < |qs| ==> bs[k].tex == qs[bs[k].start].tex
  }

  /** Every quad of a batch has a texture equal to the batch's. */
  predicate Uniform(bs: seq<Batch>, qs: seq<Quad>) {
    forall k, i :: 0 <= k < |bs| && bs[k].start <= i < bs[k].start + bs[k].count && i < |qs| ==>
      SameOptTex(qs[i].tex, bs[k].tex)
  }

  /** Neighbouring batches have unequal textures. */
  predicate Alternating(bs: seq<Batch>) {
    forall k :: 0 < k < |bs| ==> !SameOptTex(bs[k - 1].tex, bs[k].tex)
  }

  /**
   * The renderer's batching invariant: the batches tile the queue, each batch
   * carries the texture of its first quad, every quad of a batch has a texture
   * equal to the batch's, and neighbouring batches have unequal textures.
   */
  predicate Runs(bs: seq<Batch>, qs: seq<Quad>) {
    Tiles(bs, |qs|) && Headed(bs, qs) && Uniform(bs, qs) && Alternating(bs)
  }

  /** Every batch ends within the tiled range. */
  lemma {:induction false} BatchWithin(bs: seq<Batch>, n: nat, k: nat)
    requires Tiles(bs, n) && k < |bs|
    ensures bs[k].start + bs[k].count <= n
    decreases |bs| - k
  {
    if k < |bs| - 1 {
      BatchWithin(bs, n, k + 1);
    }
  }

  /**
   * The batch update of `add` for a quad with texture `t` queued at position
   * `len`: the last batch grows when its texture equals `t`, otherwise a new
   * batch starts.  Only the last batch can change.
   */
  function AddBatch(bs: seq<Batch>, t: Option<TexType>, len: nat): (r: seq<Batch>)
    ensures |bs| <= |r| <= |bs| + 1 && |r| > 0
    ensures SameOptTex(r[|r| - 1].tex, t)
    ensures forall k :: 0 <= k < |bs| - 1 ==> r[k] == bs[k]
    ensures |r| == |bs| + 1 ==> r[..|bs|] == bs && r[|bs|] == Batch(t, len, 1)
  {
    if Extends(bs, t) then
      var last := bs[|bs| - 1];
      bs[..|bs| - 1] + [last.(count := last.count + 1)]
    else
      bs + [Batch(t, len, 1)]
  }

  /** Whether `add` grows the last batch rather than starting one. */
  predicate Extends(bs: seq<Batch>, t: Option<TexType>) {
    |bs| > 0 && SameOptTex(bs[|bs| - 1].tex, t)
  }

  lemma AddBatchTiles(bs: seq<Batch>, t: Option<TexType>, n: nat)
    requires Tiles(bs, n)
    ensures Tiles(AddBatch(bs, t, n), n + 1)
  {
    var r := AddBatch(bs, t, n);
    if Extends(bs, t) {
      var m := |bs| - 1;
      assert r == bs[..m] + [bs[m].(count := bs[m].count + 1)];
      forall k | 0 <= k < |r|
        ensures r[k].count > 0 && (k > 0 ==> r[k].start == r[k - 1].start + r[k - 1].count)
      {
        if k < m {
          assert r[k] == bs[k];
        } else {
          assert r[k].start == bs[k].start && r[k].count > 0;
        }
        if 0 < k {
          assert r[k - 1] == bs[k - 1];
        }
      }
    } else {
      assert r == bs + [Batch(t, n, 1)];
      forall k | 0 <= k < |r|
        ensures r[k].count > 0 && (k > 0 ==> r[k].start == r[k - 1].start + r[k - 1].count)
      {
        if 0 < k {
          assert r[k - 1] == bs[k - 1];
        }
      }
    }
  }

  lemma AddBatchAlternates(bs: seq<Batch>, t: Option<TexType>, n: nat)
    requires Alternating(bs)
    ensures Alternating(AddBatch(bs, t, n))
  {
    var r := AddBatch(bs, t, n);
    if !Extends(bs, t) {
      assert r == bs + [Batch(t, n, 1)];
    }
  }

  lemma AddBatchHeaded(bs: seq<Batch>, qs: seq<Quad>, q: Quad)
    requires Tiles(bs, |qs|) && Headed(bs, qs)
    ensures Headed(AddBatch(bs, q.tex, |qs|), qs + [q])
  {
    var r := AddBatch(bs, q.tex, |qs|);
    var qs' := qs + [q];
    forall k | 0 <= k < |r| && r[k].start < |qs'|
      ensures r[k].tex == qs'[r[k].start].tex
    {
      if k < |bs| {
        assert r[k].tex == bs[k].tex && r[k].start == bs[k].start;
        BatchWithin(bs, |qs|, k);
        assert qs'[bs[k].start] == qs[bs[k].start];
      } else {
        assert r[k] == Batch(q.tex, |qs|, 1);
      }
    }
  }

  lemma AddBatchUniformGrow(bs: seq<Batch>, qs: seq<Quad>, q: Quad)
    requires Tiles(bs, |qs|) && Uniform(bs, qs) && Extends(bs, q.tex)
    ensures Uniform(AddBatch(bs, q.tex, |qs|), qs + [q])
  {
    var r := AddBatch(bs, q.tex, |qs|);
    var qs' := qs + [q];
    var m := |bs| - 1;
    SameOptTexIsEquivalence(bs[m].tex, q.tex, q.tex);
    assert r == bs[..m] + [bs[m].(count := bs[m].count + 1)];
    forall k, i | 0 <= k < |r| && r[k].start <= i < r[k].start + r[k].count && i < |qs'|
      ensures SameOptTex(qs'[i].tex, r[k].tex)
    {
      BatchWithin(bs, |qs|, k);
      if i < |qs| {
        assert qs'[i] == qs[i] && r[k].tex == bs[k].tex;
        assert bs[k].start <= i < bs[k].start + bs[k].count;
      } else {
        assert qs'[i] == q && k == m;
      }
    }
  }

  lemma AddBatchUniformStart(bs: seq<Batch>, qs: seq<Quad>, q: Quad)
    requires Tiles(bs, |qs|) && Uniform(bs, qs) && !Extends(bs, q.tex)
    ensures Uniform(AddBatch(bs, q.tex, |qs|), qs + [q])
  {
    var r := AddBatch(bs, q.tex, |qs|);
    var qs' := qs + [q];
    assert r == bs + [Batch(q.tex, |qs|, 1)];
    SameOptTexIsEquivalence(q.tex, q.tex, q.tex);
    forall k, i | 0 <= k < |r| && r[k].start <= i < r[k].start + r[k].count && i < |qs'|
      ensures SameOptTex(qs'[i].tex, r[k].tex)
    {
      if k < |bs| {
        BatchWithin(bs, |qs|, k);
        assert qs'[i] == qs[i] && r[k] == bs[k];
      } else {
        assert qs'[i] == q && r[k].tex == q.tex;
      }
    }
  }

  /** `add` keeps the batching invariant. */
  lemma AddBatchKeepsRuns(bs: seq<Batch>, qs: seq<Quad>, q: Quad)
    requires Runs(bs, qs)
    ensures Runs(AddBatch(bs, q.tex, |qs|), qs + [q])
  {
    AddBatchTiles(bs, q.tex, |qs|);
    AddBatchAlternates(bs, q.tex, |qs|);
    AddBatchHeaded(bs, qs, q);
    if Extends(bs, q.tex) {
      AddBatchUniformGrow(bs, qs, q);
    } else {
      AddBatchUniformStart(bs, qs, q);
    }
  }

  /** The batches of an initially empty renderer after `add`ing each quad of `qs` with a size. */
  function Batching(qs: seq<Quad>): (bs: seq<Batch>)
    decreases |qs|
  {
    if |qs| == 0 then []
    else AddBatch(Batching(qs[..|qs| - 1]), qs[|qs| - 1].tex, |qs| - 1)
  }

  /** Whatever quads are added, the resulting batches are the maximal same-texture runs. */
  lemma {:induction false} BatchingIsRuns(qs: seq<Quad>)
    ensures Runs(Batching(qs), qs)
    decreases |qs|
  {
    if |qs| > 0 {
      var init := qs[..|qs| - 1];
      BatchingIsRuns(init);
      AddBatchKeepsRuns(Batching(init), init, qs[|qs| - 1]);
      assert init + [qs[|qs| - 1]] == qs;
    }
  }

  /**
   * A, A', B, B, A where A' is a region of A's atlas: one batch for the two
   * atlas quads, one for the B's, and a third for the last A, which is not
   * merged with the first batch.
   */
  lemma BatchingExample(a: Tex2d.Texture2D, b: Tex2d.Texture2D, r: RectU, qa: Quad, qb: Quad)
    requires a.id != b.id
    requires qa.tex == Some(Raw(a, SizeU(64, 64))) && qb.tex == Some(Raw(b, SizeU(32, 32)))
    ensures var qa' := qa.(tex := Some(NewSub(Raw(a, SizeU(64, 64)), r)));
      Batching([qa, qa', qb, qb, qa])
      == [Batch(qa.tex, 0, 2), Batch(qb.tex, 2, 2), Batch(qa.tex, 4, 1)]
  {
    var qa' := qa.(tex := Some(NewSub(Raw(a, SizeU(64, 64)), r)));
    var ta, tb := qa.tex, qb.tex;
    assert !SameOptTex(ta, tb) && !SameOptTex(tb, ta);
    assert SameOptTex(ta, qa'.tex) by {
      RegionsOfOneRootAreEqual(Raw(a, SizeU(64, 64)), [r], []);
      assert Nest(Raw(a, SizeU(64, 64)), [r]) == qa'.tex.value;
    }
    var b1 := Batching([qa]);
    assert b1 == [Batch(ta, 0, 1)] by {
      assert [qa][..0] == [];
      assert Batching([]) == [];
      assert !Extends([], ta);
      assert AddBatch([], ta, 0) == [Batch(ta, 0, 1)];
    }
    var b2 := Batching([qa, qa']);
    assert b2 == [Batch(ta, 0, 2)] by {
      assert [qa, qa'][..1] == [qa];
      assert Extends(b1, qa'.tex);
    }
    var b3 := Batching([qa, qa', qb]);
    assert b3 == [Batch(ta, 0, 2), Batch(tb, 2, 1)] by {
      assert [qa, qa', qb][..2] == [qa, qa'];
      assert !Extends(b2, tb);
    }
    var b4 := Batching([qa, qa', qb, qb]);
    assert b4 == [Batch(ta, 0, 2), Batch(tb, 2, 2)] by {
      assert [qa, qa', qb, qb][..3] == [qa, qa', qb];
      SameOptTexIsEquivalence(tb, tb, tb);
      assert Extends(b3, tb);
    }
    assert [qa, qa', qb, qb, qa][..4] == [qa, qa', qb, qb];
    assert !Extends(b4, ta);
  }

  // ---------------------------------------------------------------- Drawing

  /** The GL calls `draw` issues, beyond buffer uploads. */
  datatype DrawCall =
    | SetProjection(m: Camera.Ortho)
    | BindTexture(tex: Tex2d.Texture2D)
    | DrawElements(mode: Vao.PrimitiveType, first: nat, count: nat)

  /** The calls for one batch: bind its root texture if it has one, then draw its indices. */
  function BatchCalls(b: Batch): (cs: seq<DrawCall>)
    ensures |cs| == (if b.tex.Some? then 2 else 1)
    ensures cs[|cs| - 1] == DrawElements(Vao.Triangles, 6 * b.start, 6 * b.count)
    ensures b.tex.Some? ==> cs[0] == BindTexture(Underlying(b.tex.value))
  {
    (if b.tex.Some? then [BindTexture(Underlying(b.tex.value))] else [])
    + [DrawElements(Vao.Triangles, b.start * 6, b.count * 6)]
  }

  /** The calls of the batch loop, batch after batch. */
  function DrawCalls(bs: seq<Batch>): seq<DrawCall>
    decreases |bs|
  {
    if |bs| == 0 then [] else DrawCalls(bs[..|bs| - 1]) + BatchCalls(bs[|bs| - 1])
  }

  /** The index ranges drawn, in order. */
  function Draws(cs: seq<DrawCall>): (ds: seq<(nat, nat)>)
    ensures |ds| <= |cs|
    decreases |cs|
  {
    if |cs| == 0 then []
    else Draws(cs[..|cs| - 1]) + (if cs[|cs| - 1].DrawElements? then [(cs[|cs| - 1].first, cs[|cs| - 1].count)] else [])
  }

  lemma {:induction false} DrawsAppend(a: seq<DrawCall>, b: seq<DrawCall>)
    ensures Draws(a + b) == Draws(a) + Draws(b)
    decreases |b|
  {
    if |b| == 0 {
      assert a + b == a;
    } else {
      DrawsAppend(a, b[..|b| - 1]);
      assert (a + b)[..|a + b| - 1] == a + b[..|b| - 1];
    }
  }

  /** One batch's calls hold exactly one draw, of the batch's index range. */
  lemma BatchDrawsOnce(b: Batch)
    ensures Draws(BatchCalls(b)) == [(6 * b.start, 6 * b.count)]
  {
    var cs := BatchCalls(b);
    if b.tex.Some? {
      assert cs[..1][..0] == [];
      assert Draws(cs[..1]) == [];
    } else {
      assert cs[..0] == [];
    }
  }

  /** The index range of each batch, in batch order. */
  function Ranges(bs: seq<Batch>): (ds: seq<(nat, nat)>)
    ensures |ds| == |bs|
  {
    seq(|bs|, k requires 0 <= k < |bs| => (6 * bs[k].start, 6 * bs[k].count))
  }

  lemma RangesSnoc(bs: seq<Batch>)
    requires |bs| > 0
    ensures Ranges(bs) == Ranges(bs[..|bs| - 1]) + [(6 * bs[|bs| - 1].start, 6 * bs[|bs| - 1].count)]
  {
    var init := bs[..|bs| - 1];
    assert forall k :: 0 <= k < |init| ==> init[k] == bs[k];
  }

  lemma {:induction false} DrawsAreRanges(bs: seq<Batch>)
    ensures Draws(DrawCalls(bs)) == Ranges(bs)
    decreases |bs|
  {
    if |bs| > 0 {
      var init := bs[..|bs| - 1];
      var last := bs[|bs| - 1];
      DrawsAreRanges(init);
      assert DrawCalls(bs) == DrawCalls(init) + BatchCalls(last);
      DrawsAppend(DrawCalls(init), BatchCalls(last));
      BatchDrawsOnce(last);
      RangesSnoc(bs);
    }
  }

  /** The batch loop draws once per batch, in batch order, indices `6*start` onwards, `6*count` of them. */
  lemma OneDrawPerBatch(bs: seq<Batch>)
    ensures |Draws(DrawCalls(bs))| == |bs|
    ensures forall k :: 0 <= k < |bs| ==> Draws(DrawCalls(bs))[k] == (6 * bs[k].start, 6 * bs[k].count)
  {
    DrawsAreRanges(bs);
  }

  /**
   * Index `j` of batch `k`'s draw reads a valid entry of the index buffer
   * generated for `size >= |qs|` quads, and that entry names a vertex of a
   * quad of batch `k`: each draw touches only its own batch's quads, all of
   * which carry a texture equal to the one bound for it.
   */
  lemma DrawReadsOwnBatch(bs: seq<Batch>, qs: seq<Quad>, size: nat, k: nat, j: nat)
    requires Runs(bs, qs) && |qs| <= size && k < |bs|
    requires 6 * bs[k].start <= j < 6 * bs[k].start + 6 * bs[k].count
    ensures j < |Ibo.QuadIndices(size)|
    ensures var v := Ibo.QuadIndices(size)[j];
      v < 4 * |qs| && bs[k].start <= v / 4 < bs[k].start + bs[k].count
      && SameOptTex(qs[v / 4].tex, bs[k].tex)
  {
    BatchWithin(bs, |qs|, k);
    var q := j / 6;
    var p := j % 6;
    assert j == 6 * q + p;
    Ibo.QuadIndicesAt(size, q, p);
    var v := Ibo.QuadIndices(size)[j];
    assert v / 4 == q;
  }

  // ---------------------------------------------------------------- QuadRenderer

  /** `QuadRendererType`: where the quad transform is applied. */
  datatype RendererType = Cpu | Gpu

  /**
   * The batch step of `QuadRenderer::add`: a quad with texture `tex` at
   * position `len` extends the last batch when that batch draws the same
   * texture, and opens a new batch otherwise.
   */
  method GrowBatches(bs: seq<Batch>, tex: Option<TexType>, len: nat) returns (grown: seq<Batch>)
    ensures grown == AddBatch(bs, tex, len)
  {
    grown := bs + [Batch(tex, len, 1)];
    if |bs| > 0 {
      var last := bs[|bs| - 1];
      if SameOptTex(last.tex, tex) {
        grown := bs[..|bs| - 1] + [last.(count := last.count + 1)];
      }
    }
  }

  /** The number of quads the index buffer holds after `fit_ibo(size)`: it only ever grows. */
  function FitSize(iboSize: nat, size: nat): (n: nat)
    ensures n >= iboSize && n >= size
    ensures n == iboSize || n == size
  {
    Vbo.Grow(iboSize, size)
  }

  /**
   * After `add(q)` on a one-quad queue, `clear` as written leaves the batch
   * behind, and a second `add(q)` then grows it to two quads over a one-quad
   * queue: the batches no longer tile the queue.
   */
  lemma ClearKeepsStaleBatch(q: Quad)
    ensures var before := AddBatch([], q.tex, 0);
      Runs(before, [q])
      && !Runs(before, [])
      && AddBatch(before, q.tex, 0) == [Batch(q.tex, 0, 2)]
      && !Runs(AddBatch(before, q.tex, 0), [q])
  {
    var before := AddBatch([], q.tex, 0);
    assert before == [Batch(q.tex, 0, 1)];
    BatchingIsRuns([q]);
    assert [q][..0] == [];
    assert Batching([q]) == before;
    SameOptTexIsEquivalence(q.tex, q.tex, q.tex);
    assert Extends(before, q.tex);
    assert End(before) == 1;
  }

  /**
   * The batch loop of `draw`: for each batch in order, bind its texture when
   * it has one and draw its `6*count` indices from `6*start`.
   */
  method DrawBatches(bs: seq<Batch>) returns (calls: seq<DrawCall>)
    ensures calls == DrawCalls(bs)
  {
    calls := [];
    for i := 0 to |bs|
      invariant calls == DrawCalls(bs[..i])
    {
      var batch := bs[i];
      if batch.tex.Some? {
        calls := calls + [BindTexture(Underlying(batch.tex.value))];
      }
      calls := calls + [DrawElements(Vao.Triangles, batch.start * 6, batch.count * 6)];
      assert bs[..i + 1][..i] == bs[..i];
    }
    assert bs[..|bs|] == bs;
  }

  /** An empty queue with no batches satisfies the batching invariant. */
  lemma NothingQueuedRuns()
    ensures Runs([], [])
  {
  }

  /** The vertex layout of a renderer type. */
  function LayoutOf(qrt: RendererType): Vertex.Layout {
    if qrt == Cpu then Vertex.QuadVertexCpu() else Vertex.QuadVertexGpu()
  }

  /** The attribute set-up the vertex array records for a renderer type's layout. */
  function SetupOf(qrt: RendererType): seq<Vao.AttribSetup> {
    Vao.Setups(LayoutOf(qrt).attributes, 0, LayoutOf(qrt).Stride(), LayoutOf(qrt).divisor)
  }

  /**
   * The buffer part of `QuadRenderer::new`: a fresh stream vertex buffer in
   * the type's vertex format, registered with a fresh vertex array.
   */
  method NewBuffers(qrt: RendererType)
      returns (c: Vbo.VertexBuffer?<CpuVertex>, g: Vbo.VertexBuffer?<GpuVertex>, v: Vao.VertexArray)
    ensures if qrt == Cpu then c != null && g == null else c == null && g != null
    ensures c != null ==> fresh(c) && c.Valid()
    ensures c != null ==> c.usage == Vbo.Stream && c.capacity == 0 && c.data == [] && c.calls == []
    ensures g != null ==> fresh(g) && g.Valid()
    ensures g != null ==> g.usage == Vbo.Stream && g.capacity == 0 && g.data == [] && g.calls == []
    ensures fresh(v)
    ensures v.baseIndex == |LayoutOf(qrt).attributes|
    ensures v.log == SetupOf(qrt)
  {
    v := new Vao.VertexArray();
    if qrt == Cpu {
      c := new Vbo.VertexBuffer<CpuVertex>(Vbo.Stream);
      g := null;
    } else {
      c := null;
      g := new Vbo.VertexBuffer<GpuVertex>(Vbo.Stream);
    }
    v.AddVertexBuffer(LayoutOf(qrt));
  }

  /**
   * The static index buffer of `QuadRenderer::new`, already holding and
   * having uploaded the indices of `size` quads, as `resize_ibo(size)` leaves it.
   */
  method NewIndexBuffer(size: nat) returns (ib: Ibo.IndexBuffer)
    ensures fresh(ib) && ib.usage == Vbo.Static
    ensures ib.data == Ibo.QuadIndices(size) && ib.uploaded == ib.data && ib.uploads == 1
  {
    ib := new Ibo.IndexBuffer(Vbo.Static);
    ib.AutoQuads(size);
    ib.Upload();
  }

  /** The number of quads `QuadRenderer::new` pre-fills the index buffer for. */
  const InitialQuads: nat := 1024

  class QuadRenderer {
    const qrt: RendererType
    /** `qrb`: the vertex buffer matching the renderer type; exactly one of the two is present. */
    const cpuVbo: Vbo.VertexBuffer?<CpuVertex>
    const gpuVbo: Vbo.VertexBuffer?<GpuVertex>
    const vao: Vao.VertexArray
    const ibo: Ibo.IndexBuffer
    /** `ibo_size`: the number of quads the index buffer has indices for. */
    var iboSize: nat
    /** `data`: the queued quads. */
    var data: seq<Quad>
    var batches: seq<Batch>
    var parallel: bool
    /** The program, texture and draw calls issued by `draw`. */
    var log: seq<DrawCall>

    /** The renderer owns the vertex buffer of its own type and no other. */
    predicate BufferOfType() {
      if qrt == Cpu then cpuVbo != null && gpuVbo == null else cpuVbo == null && gpuVbo != null
    }

    /** The index buffer holds, and has uploaded, the indices of `iboSize` quads. */
    ghost predicate IboValid()
      reads this, ibo
    {
      ibo.data == Ibo.QuadIndices(iboSize) && ibo.uploaded == ibo.data
    }

    /** Every queued quad has a size, and the batches are the queue's runs. */
    ghost predicate QueueValid()
      reads this
    {
      (forall i :: 0 <= i < |data| ==> HasSize(data[i])) && Runs(batches, data)
    }

    ghost predicate Valid()
      reads this, ibo, cpuVbo, gpuVbo
    {
      BufferOfType() && VboValid() && IboValid() && QueueValid()
    }

    /**
     * `QuadRenderer::new`: a stream vertex buffer of the type's vertex format
     * registered with the vertex array, and a static index buffer for 1024 quads.
     */
    constructor (qrt: RendererType)
      ensures Valid() && fresh(vao) && fresh(ibo)
      ensures (cpuVbo != null ==> fresh(cpuVbo)) && (gpuVbo != null ==> fresh(gpuVbo))
      ensures (cpuVbo != null ==> cpuVbo.usage == Vbo.Stream && cpuVbo.data == [] && cpuVbo.calls == [])
      ensures (gpuVbo != null ==> gpuVbo.usage == Vbo.Stream && gpuVbo.data == [] && gpuVbo.calls == [])
      ensures VboCapacity() == 0
      ensures this.qrt == qrt && iboSize == InitialQuads && ibo.uploaded == Ibo.QuadIndices(InitialQuads)
      ensures ibo.uploads == 1
      ensures data == [] && batches == [] && parallel && log == []
      ensures vao.baseIndex == |LayoutOf(qrt).attributes|
      ensures vao.log == SetupOf(qrt)
    {
      this.qrt := qrt;
      var c, g, v := NewBuffers(qrt);
      cpuVbo := c;
      gpuVbo := g;
      vao := v;
      var ib := NewIndexBuffer(InitialQuads);
      ibo := ib;
      iboSize := InitialQuads;
      data := [];
      batches := [];
      parallel := true;
      log := [];
      new;
      NothingQueuedRuns();
    }

    /**
     * `clear` as written: empties the queue but keeps the batches, which then
     * describe quads that are gone (see `ClearKeepsStaleBatch`).
     */
    method ClearAsWritten()
      modifies this
      ensures data == [] && batches == old(batches)
      ensures iboSize == old(iboSize) && log == old(log) && parallel == old(parallel)
    {
      data := [];
    }

    /** `clear`, emptying the batches together with the queue. */
    method Clear()
      requires Valid()
      modifies this
      ensures Valid() && data == [] && batches == []
      ensures iboSize == old(iboSize) && log == old(log) && parallel == old(parallel)
    {
      data := [];
      batches := [];
    }

    /**
     * `add`: a quad without a size is ignored; otherwise it is queued and the
     * batches are updated as `AddBatch` says, which keeps them the queue's runs.
     */
    method Add(q: Quad)
      requires Valid()
      modifies this
      ensures Valid()
      ensures !HasSize(q) ==> data == old(data) && batches == old(batches)
      ensures HasSize(q) ==> data == old(data) + [q] && batches == AddBatch(old(batches), q.tex, |old(data)|)
      ensures iboSize == old(iboSize) && log == old(log) && parallel == old(parallel)
    {
      if !HasSize(q) {
        return;
      }
      var grown := GrowBatches(batches, q.tex, |data|);
      AddBatchKeepsRuns(batches, data, q);
      assert forall i :: 0 <= i < |data| ==> (data + [q])[i] == data[i];
      data := data + [q];
      batches := grown;
    }

    /** `resize_ibo`: regenerates and uploads the indices of `size` quads. */
    method ResizeIbo(size: nat)
      modifies this, ibo
      ensures iboSize == size && ibo.data == Ibo.QuadIndices(size) && ibo.uploaded == ibo.data
      ensures ibo.uploads == old(ibo.uploads) + 1
      ensures data == old(data) && batches == old(batches) && log == old(log) && parallel == old(parallel)
    {
      iboSize := size;
      ibo.AutoQuads(size);
      ibo.Upload();
    }

    /** `fit_ibo`: regrows the index buffer only when it has too few quads. */
    method FitIbo(size: nat)
      requires IboValid()
      modifies this, ibo
      ensures IboValid()
      ensures iboSize == FitSize(old(iboSize), size)
      ensures size <= old(iboSize) ==> ibo.uploaded == old(ibo.uploaded) && ibo.uploads == old(ibo.uploads)
      ensures size > old(iboSize) ==> ibo.uploads == old(ibo.uploads) + 1
      ensures data == old(data) && batches == old(batches) && log == old(log) && parallel == old(parallel)
    {
      if size > iboSize {
        ResizeIbo(size);
      }
    }

    /**
     * `build_vertices_cpu`: takes the queue and returns the vertices of its
     * quads, four each, in queue order; `parallel` does not change the result.
     */
    method BuildVerticesCpu() returns (vtx: seq<CpuVertex>)
      requires forall i :: 0 <= i < |data| ==> Drawable(data[i])
      modifies this
      ensures vtx == CpuVertices(old(data)) && data == []
      ensures batches == old(batches) && iboSize == old(iboSize) && log == old(log) && parallel == old(parallel)
    {
      var queued := data;
      data := [];
      vtx := CpuVertices(queued);
    }

    /** `build_vertices_gpu`, the GPU counterpart. */
    method BuildVerticesGpu() returns (vtx: seq<GpuVertex>)
      requires forall i :: 0 <= i < |data| ==> Drawable(data[i])
      modifies this
      ensures vtx == GpuVertices(old(data)) && data == []
      ensures batches == old(batches) && iboSize == old(iboSize) && log == old(log) && parallel == old(parallel)
    {
      var queued := data;
      data := [];
      vtx := GpuVertices(queued);
    }

    /** The vertex buffer is well formed. */
    ghost predicate VboValid()
      reads cpuVbo, gpuVbo
    {
      (cpuVbo != null ==> cpuVbo.Valid()) && (gpuVbo != null ==> gpuVbo.Valid())
    }

    /** The vertex buffer's data is the vertices of the quads `qs`, in the renderer's format. */
    ghost predicate HoldsVerticesOf(qs: seq<Quad>)
      requires forall i :: 0 <= i < |qs| ==> Drawable(qs[i])
      reads cpuVbo, gpuVbo
    {
      (cpuVbo != null ==> cpuVbo.data == CpuVertices(qs)) && (gpuVbo != null ==> gpuVbo.data == GpuVertices(qs))
    }

    /** The capacity of the renderer's vertex buffer. */
    function VboCapacity(): nat
      reads cpuVbo, gpuVbo
    {
      if cpuVbo != null then cpuVbo.capacity else if gpuVbo != null then gpuVbo.capacity else 0
    }

    /**
     * The vertex buffer has uploaded its data, its GL store starting with
     * that data and its capacity grown from `cap` as `upload` grows it.
     */
    ghost predicate UploadedFrom(cap: nat)
      reads cpuVbo, gpuVbo
    {
      (cpuVbo != null ==>
        |cpuVbo.data| <= |cpuVbo.store| && cpuVbo.store[..|cpuVbo.data|] == cpuVbo.data
        && cpuVbo.capacity == Vbo.Grow(cap, |cpuVbo.data|))
      && (gpuVbo != null ==>
        |gpuVbo.data| <= |gpuVbo.store| && gpuVbo.store[..|gpuVbo.data|] == gpuVbo.data
        && gpuVbo.capacity == Vbo.Grow(cap, |gpuVbo.data|))
    }

    /**
     * The vertex stage of `draw`: builds the vertices of the queue (which it
     * empties) and hands them to the vertex buffer, which uploads them.
     */
    method UploadVertices()
      requires BufferOfType() && VboValid() && forall i :: 0 <= i < |data| ==> Drawable(data[i])
      modifies this, cpuVbo, gpuVbo
      ensures VboValid() && data == []
      ensures HoldsVerticesOf(old(data)) && UploadedFrom(old(VboCapacity()))
      ensures batches == old(batches) && iboSize == old(iboSize) && log == old(log) && parallel == old(parallel)
    {
      if cpuVbo != null {
        var vtx := BuildVerticesCpu();
        cpuVbo.SetData(vtx);
        cpuVbo.Upload();
      } else {
        var vtx := BuildVerticesGpu();
        gpuVbo.SetData(vtx);
        gpuVbo.Upload();
      }
    }

    /**
     * The call stage of `draw`: sets the projection, issues the calls of
     * every batch in order and forgets the batches.
     */
    method IssueCalls(proj: Camera.Ortho)
      modifies this
      ensures log == old(log) + [SetProjection(proj)] + DrawCalls(old(batches)) && batches == []
      ensures data == old(data) && iboSize == old(iboSize) && parallel == old(parallel)
    {
      log := log + [SetProjection(proj)];
      var calls := DrawBatches(batches);
      log := log + calls;
      batches := [];
    }

    /**
     * `draw`: uploads the queue's vertices, makes the index buffer large
     * enough, sets the camera's projection, issues the calls of every batch
     * in order, and empties both the queue and the batches.
     */
    method Draw(cam: Camera.Camera)
      requires Valid() && cam.Valid() && cam.proj.Some?
      requires forall i :: 0 <= i < |data| ==> UvOk(data[i])
      modifies this, ibo, cpuVbo, gpuVbo
      ensures Valid() && data == [] && batches == []
      ensures iboSize == FitSize(old(iboSize), |old(data)|)
      ensures ibo.uploads == old(ibo.uploads) + (if |old(data)| > old(iboSize) then 1 else 0)
      ensures log == old(log) + [SetProjection(old(cam.ProjMatrix()))] + DrawCalls(old(batches))
      ensures HoldsVerticesOf(old(data)) && UploadedFrom(old(VboCapacity()))
      ensures parallel == old(parallel)
    {
      var len := |data|;
      var proj := cam.ProjMatrix();
      UploadVertices();
      FitIbo(len);
      IssueCalls(proj);
      NothingQueuedRuns();
    }
  }
}
