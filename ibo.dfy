/**
 * The index buffer of cushy-gl/src/ibo.rs.  The GL buffer object is modelled
 * by the contents last handed to `glBufferData` (`uploaded`).
 */
module Ibo {
  import opened Vbo

  /** The six indices of quad `k`: triangles (0,1,2) and (2,1,3) of its four vertices. */
  function QuadGroup(k: nat): (g: seq<nat>)
    ensures |g| == 6
  {
    var i := 4 * k;
    [i, i + 1, i + 2, i + 2, i + 1, i + 3]
  }

  /** The pattern `auto_quads(n)` leaves in the buffer. */
  function QuadIndices(n: nat): (s: seq<nat>)
  {
    if n == 0 then [] else QuadIndices(n - 1) + QuadGroup(n - 1)
  }

  /** The per-vertex offsets of a quad's six indices. */
  const Pattern: seq<nat> := [0, 1, 2, 2, 1, 3]

  /**
   * `QuadIndices(n)` has `6n` entries; entry `6k+j` is `4k + Pattern[j]`, so every
   * index is below `4n` and group `k` uses only the vertices `4k..4k+3` of quad `k`.
   */
  lemma {:induction false} QuadIndicesAt(n: nat, k: nat, j: nat)
    requires k < n && j < 6
    ensures |QuadIndices(n)| == 6 * n
    ensures QuadIndices(n)[6 * k + j] == 4 * k + Pattern[j]
    ensures 4 * k <= QuadIndices(n)[6 * k + j] < 4 * k + 4 <= 4 * n
  {
    QuadIndicesLength(n);
    if k < n - 1 {
      QuadIndicesAt(n - 1, k, j);
      QuadIndicesLength(n - 1);
    } else {
      QuadIndicesLength(n - 1);
    }
  }

  lemma {:induction false} QuadIndicesLength(n: nat)
    ensures |QuadIndices(n)| == 6 * n
  {
    if n > 0 {
      QuadIndicesLength(n - 1);
    }
  }

  /** A longer pattern extends a shorter one, so regrowing keeps earlier quads' indices. */
  lemma {:induction false} QuadIndicesPrefix(m: nat, n: nat)
    requires m <= n
    ensures |QuadIndices(m)| == 6 * m && |QuadIndices(n)| == 6 * n
    ensures QuadIndices(m) == QuadIndices(n)[..6 * m]
  {
    QuadIndicesLength(m);
    QuadIndicesLength(n);
    if m < n {
      QuadIndicesPrefix(m, n - 1);
      QuadIndicesLength(n - 1);
      assert QuadIndices(n)[..6 * (n - 1)] == QuadIndices(n - 1);
    }
  }

  /** `draw_nobind`: the byte offset handed to `glDrawElements` for a first index. */
  function DrawOffset(first: nat): (bytes: nat)
    ensures bytes / 4 == first && bytes % 4 == 0
  {
    first * 4
  }

  class IndexBuffer {
    const usage: BufferUsage
    /** `data`, the CPU-side index list. */
    var data: seq<nat>
    /** The contents of the GL buffer object after the last `upload`. */
    var uploaded: seq<nat>
    /** The number of `upload` calls, each one a `glBufferData` of the whole list. */
    var uploads: nat

    /** `new`: an empty index list. */
    constructor (usage: BufferUsage)
      ensures this.usage == usage && data == [] && uploaded == [] && uploads == 0
    {
      this.usage := usage;
      data := [];
      uploaded := [];
      uploads := 0;
    }

    /** `set_data`: replaces the list. */
    method SetData(d: seq<nat>)
      modifies this
      ensures data == d && uploaded == old(uploaded) && uploads == old(uploads)
    {
      data := d;
    }

    /** `add_data`: appends at the end. */
    method AddData(d: seq<nat>)
      modifies this
      ensures data == old(data) + d && uploaded == old(uploaded) && uploads == old(uploads)
    {
      data := data + d;
    }

    /** `auto_quads`: discards the list and generates the indices of `count` quads. */
    method AutoQuads(count: nat)
      modifies this
      ensures data == QuadIndices(count) && uploaded == old(uploaded) && uploads == old(uploads)
    {
      data := [];
      var i: nat := 0;
      for q := 0 to count
        invariant data == QuadIndices(q) && i == 4 * q
        invariant uploaded == old(uploaded) && uploads == old(uploads)
      {
        AddData([i, i + 1, i + 2, i + 2, i + 1, i + 3]);
        i := i + 4;
      }
    }

    /** `upload`: the GL buffer now holds the list. */
    method Upload()
      modifies this
      ensures uploaded == data && data == old(data) && uploads == old(uploads) + 1
    {
      uploaded := data;
      uploads := uploads + 1;
    }
  }
}
