/**
 * The vertex buffer of cushy-gl/src/vbo.rs with its capacity-growth policy.
 * The GL buffer object is modelled by its store (`store`): `glBufferData`
 * reallocates it to the data, `glBufferSubData` overwrites a prefix of it.
 */
module Vbo {

  const GL_STREAM_DRAW: nat := 0x88E0
  const GL_STATIC_DRAW: nat := 0x88E4
  const GL_DYNAMIC_DRAW: nat := 0x88E8

  datatype BufferUsage = Stream | Static | Dynamic

  /** `BufferUsage::gl_usage`. */
  function GlUsage(u: BufferUsage): (r: nat)
    ensures r in {GL_STREAM_DRAW, GL_STATIC_DRAW, GL_DYNAMIC_DRAW}
  {
    match u
    case Stream => GL_STREAM_DRAW
    case Static => GL_STATIC_DRAW
    case Dynamic => GL_DYNAMIC_DRAW
  }

  /** Distinct usages reach the driver as distinct hints. */
  lemma GlUsageInjective(u: BufferUsage, v: BufferUsage)
    ensures GlUsage(u) == GlUsage(v) <==> u == v
  {
  }

  /** The capacity after one `upload` of `count` vertices. */
  function Grow(capacity: nat, count: nat): (c: nat)
    ensures c >= capacity && c >= count
    ensures c == capacity || c == count
  {
    if count > capacity then count else capacity
  }

  /** The capacity after uploading data of the given lengths, in order. */
  function CapacityAfter(capacity: nat, counts: seq<nat>): nat
    decreases |counts|
  {
    if counts == [] then capacity else CapacityAfter(Grow(capacity, counts[0]), counts[1..])
  }

  function MaxOf(counts: seq<nat>): (m: nat)
    ensures forall i :: 0 <= i < |counts| ==> counts[i] <= m
    ensures counts == [] ==> m == 0
    ensures counts != [] ==> m in counts
  {
    if counts == [] then 0
    else
      var rest := MaxOf(counts[1..]);
      if counts[0] >= rest then counts[0] else rest
  }

  /**
   * Starting from a fresh buffer, the capacity is the largest length ever
   * uploaded; in general it never decreases.
   */
  lemma {:induction false} CapacityIsMax(capacity: nat, counts: seq<nat>)
    ensures CapacityAfter(capacity, counts) >= capacity
    ensures CapacityAfter(capacity, counts) == Grow(capacity, MaxOf(counts))
    ensures CapacityAfter(0, counts) == MaxOf(counts)
    decreases |counts|
  {
    if counts != [] {
      CapacityIsMax(Grow(capacity, counts[0]), counts[1..]);
      CapacityIsMax(Grow(0, counts[0]), counts[1..]);
    }
  }

  /** The GL call `upload` issues. */
  datatype UploadCall = BufferData(count: nat, usage: nat) | BufferSubData(count: nat)

  class VertexBuffer<T> {
    const usage: BufferUsage
    var capacity: nat
    var data: seq<T>
    /** The vertices held by the GL buffer object. */
    var store: seq<T>
    /** The upload calls issued so far. */
    var calls: seq<UploadCall>

    ghost predicate Valid()
      reads this
    {
      |store| == capacity
    }

    /** `new`: nothing allocated yet. */
    constructor (usage: BufferUsage)
      ensures Valid()
      ensures this.usage == usage && capacity == 0 && data == [] && calls == []
    {
      this.usage := usage;
      capacity := 0;
      data := [];
      store := [];
      calls := [];
    }

    /** `set_data`: replaces the vertex list. */
    method SetData(d: seq<T>)
      modifies this
      ensures data == d
      ensures capacity == old(capacity) && store == old(store) && calls == old(calls)
    {
      data := d;
    }

    /** `swap_data`: exchanges the vertex list with the caller's. */
    method SwapData(d: seq<T>) returns (out: seq<T>)
      modifies this
      ensures data == d && out == old(data)
      ensures capacity == old(capacity) && store == old(store) && calls == old(calls)
    {
      out := data;
      data := d;
    }

    /** `add_vertices`: appends at the end. */
    method AddVertices(v: seq<T>)
      modifies this
      ensures data == old(data) + v
      ensures capacity == old(capacity) && store == old(store) && calls == old(calls)
    {
      data := data + v;
    }

    /**
     * `upload`: reallocates when the data no longer fits, otherwise overwrites
     * the start of the existing store.  Either way the store begins with the data.
     */
    method Upload()
      requires Valid()
      modifies this
      ensures Valid()
      ensures data == old(data)
      ensures capacity == Grow(old(capacity), |data|)
      ensures |data| > old(capacity) ==> store == data && calls == old(calls) + [BufferData(|data|, GlUsage(usage))]
      ensures |data| <= old(capacity) ==>
        store == data + old(store)[|data|..] && calls == old(calls) + [BufferSubData(|data|)]
      ensures |data| <= |store| && store[..|data|] == data
    {
      var count := |data|;
      if count > capacity {
        capacity := count;
        store := data;
        calls := calls + [BufferData(count, GlUsage(usage))];
      } else {
        store := data + store[count..];
        calls := calls + [BufferSubData(count)];
      }
    }
  }
}
