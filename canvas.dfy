/**
 * The pixel buffer of cushy-gfx/src/canvas.rs: a `w`x`h` image stored row by
 * row in a flat array of packed colours, with clipped drawing primitives.
 * Every drawing operation is specified by `Paint`: the cells of a shape that
 * lie on the canvas take the colour, every other cell keeps its value.
 * Coordinates are `u32`; the sums the source forms from them are required to
 * stay below 2^32.
 */
module Canvas {
  import opened Opt
  import opened Geo
  import opened GfxColor

  const U32_RANGE: nat := 0x1_0000_0000

  // ---------------------------------------------------------------- Cells and shapes

  /** The cells a drawing operation aims at, before clipping to the canvas. */
  datatype Shape =
    | Box(x: int, y: int, w: int, h: int)
    | Outline(x: int, y: int, w: int, h: int)
    | Union(a: Shape, b: Shape)

  predicate InBox(px: int, py: int, x: int, y: int, w: int, h: int) {
    x <= px < x + w && y <= py < y + h
  }

  /** Whether cell (px, py) belongs to the shape; an outline is the border of its box. */
  predicate Covers(s: Shape, px: int, py: int) {
    match s
    case Box(x, y, w, h) => InBox(px, py, x, y, w, h)
    case Outline(x, y, w, h) =>
      InBox(px, py, x, y, w, h) && (px == x || px == x + w - 1 || py == y || py == y + h - 1)
    case Union(a, b) => Covers(a, px, py) || Covers(b, px, py)
  }

  /** The image `s`, `width` cells per row, with the cells of `shape` set to `c`. */
  function Paint(s: seq<Word>, width: nat, shape: Shape, c: Word): (r: seq<Word>)
    ensures |r| == |s|
  {
    seq(|s|, i requires 0 <= i < |s| =>
      if width > 0 && Covers(shape, i % width, i / width) then c else s[i])
  }

  lemma PaintIndex(s: seq<Word>, width: nat, shape: Shape, c: Word, i: nat)
    requires width > 0 && i < |s|
    ensures Paint(s, width, shape, c)[i] == if Covers(shape, i % width, i / width) then c else s[i]
  {
  }

  /** The row-major index of cell (x, y). */
  function Index(width: nat, x: nat, y: nat): nat {
    y * width + x
  }

  /** Cell (x, y) of a canvas is at index y*w + x, inside the buffer, and nothing else is there. */
  lemma CellIndex(width: nat, height: nat, x: nat, y: nat)
    requires x < width && y < height
    ensures Index(width, x, y) < width * height
    ensures Index(width, x, y) % width == x && Index(width, x, y) / width == y
  {
    var i := Index(width, x, y);
    assert (y + 1) * width <= height * width by {
      MulMono(y + 1, height, width);
    }
    DivModUnique(i, width, y, x);
  }

  lemma MulMono(a: nat, b: nat, m: nat)
    requires a <= b
    ensures a * m <= b * m
  {
  }

  /** Quotient and remainder are determined: i == q*w + r with 0 <= r < w gives i/w == q and i%w == r. */
  lemma DivModUnique(i: int, width: nat, q: int, r: int)
    requires width > 0 && 0 <= r < width && i == q * width + r
    ensures i / width == q && i % width == r
  {
    var q' := i / width;
    var r' := i % width;
    assert (q - q') * width == r' - r;
    if q > q' {
      MulMono(1, q - q', width);
    } else if q < q' {
      MulMono(1, q' - q, width);
    }
  }

  /** The index of a buffer position lies in a row below the canvas height. */
  lemma RowOfIndex(width: nat, height: nat, i: nat)
    requires width > 0 && i < width * height
    ensures i / width < height && i % width < width
    ensures Index(width, i % width, i / width) == i
  {
    if i / width >= height {
      MulMono(height, i / width, width);
    }
  }

  /**
   * What `Paint` means cell by cell: a cell of the canvas takes the colour
   * exactly when the shape covers it.
   */
  lemma PaintAt(s: seq<Word>, width: nat, height: nat, shape: Shape, c: Word, x: nat, y: nat)
    requires |s| == width * height && x < width && y < height
    ensures Index(width, x, y) < |s|
    ensures Paint(s, width, shape, c)[Index(width, x, y)]
      == if Covers(shape, x, y) then c else s[Index(width, x, y)]
  {
    CellIndex(width, height, x, y);
  }

  /** Two shapes covering the same cells of the canvas paint the same image. */
  lemma PaintSameCells(s: seq<Word>, width: nat, height: nat, a: Shape, b: Shape, c: Word)
    requires |s| == width * height
    requires forall x: nat, y: nat :: x < width && y < height ==> (Covers(a, x, y) <==> Covers(b, x, y))
    ensures Paint(s, width, a, c) == Paint(s, width, b, c)
  {
    if width > 0 {
      forall i | 0 <= i < |s|
        ensures Paint(s, width, a, c)[i] == Paint(s, width, b, c)[i]
      {
        RowOfIndex(width, height, i);
        var x: nat, y: nat := i % width, i / width;
        assert Covers(a, x, y) <==> Covers(b, x, y);
        PaintIndex(s, width, a, c, i);
        PaintIndex(s, width, b, c, i);
      }
    }
  }

  /** Painting twice with one colour paints the union. */
  lemma PaintTwice(s: seq<Word>, width: nat, a: Shape, b: Shape, c: Word)
    ensures Paint(Paint(s, width, a, c), width, b, c) == Paint(s, width, Union(a, b), c)
  {
  }

  /** Painting a single cell of the canvas changes that index and no other. */
  lemma PaintCell(s: seq<Word>, width: nat, height: nat, x: nat, y: nat, c: Word)
    requires |s| == width * height && x < width && y < height
    ensures Index(width, x, y) < |s|
    ensures Paint(s, width, Box(x, y, 1, 1), c) == s[Index(width, x, y) := c]
  {
    CellIndex(width, height, x, y);
    var i := Index(width, x, y);
    forall j | 0 <= j < |s|
      ensures Paint(s, width, Box(x, y, 1, 1), c)[j] == s[i := c][j]
    {
      RowOfIndex(width, height, j);
    }
  }

  /** A shape lying wholly off the canvas paints nothing. */
  lemma PaintOffCanvas(s: seq<Word>, width: nat, height: nat, shape: Shape, c: Word)
    requires |s| == width * height
    requires forall x: nat, y: nat :: x < width && y < height ==> !Covers(shape, x, y)
    ensures Paint(s, width, shape, c) == s
  {
    if width > 0 {
      forall i | 0 <= i < |s|
        ensures Paint(s, width, shape, c)[i] == s[i]
      {
        RowOfIndex(width, height, i);
        PaintIndex(s, width, shape, c, i);
      }
    }
  }

  /** A fill of every cell paints the whole canvas one colour. */
  lemma PaintWholeCanvas(s: seq<Word>, width: nat, height: nat, c: Word)
    requires |s| == width * height
    ensures Paint(s, width, Box(0, 0, width, height), c) == seq(|s|, _ => c)
  {
    if width > 0 {
      forall i | 0 <= i < |s|
        ensures Paint(s, width, Box(0, 0, width, height), c)[i] == c
      {
        RowOfIndex(width, height, i);
      }
    }
  }

  /** The rectangle outline is the union of its four edges, as `rect` draws them. */
  lemma OutlineIsFourEdges(x: nat, y: nat, w: nat, h: nat, px: int, py: int)
    requires w > 0 && h > 0
    ensures Covers(Outline(x, y, w, h), px, py) <==>
      Covers(Union(Union(Union(Box(x, y, w, 1), Box(x, y + h - 1, w, 1)), Box(x, y, 1, h)), Box(x + w - 1, y, 1, h)), px, py)
  {
    var top, bottom := Box(x, y, w, 1), Box(x, y + h - 1, w, 1);
    var left, right := Box(x, y, 1, h), Box(x + w - 1, y, 1, h);
    assert Covers(Union(top, bottom), px, py) <==> Covers(top, px, py) || Covers(bottom, px, py);
    assert Covers(Union(Union(top, bottom), left), px, py) <==>
      Covers(Union(top, bottom), px, py) || Covers(left, px, py);
    assert Covers(Union(Union(Union(top, bottom), left), right), px, py) <==>
      Covers(Union(Union(top, bottom), left), px, py) || Covers(right, px, py);
  }

  // ---------------------------------------------------------------- rect_fill's clipping

  /**
   * The width `rect_fill` clips to, as written: `size.w - r.x` is a `u32`
   * subtraction, negative here when the rectangle starts right of the canvas.
   */
  function RectFillWidthAsWritten(r: RectU, size: SizeU): int {
    if r.x + r.w > size.w then size.w - r.x else r.w
  }

  /** On a 10x10 canvas, the rectangle (12, 0, 5, 5) makes that subtraction underflow. */
  lemma RectFillUnderflows()
    ensures RectFillWidthAsWritten(Rect(12, 0, 5, 5), SizeU(10, 10)) < 0
  {
  }

  /** The clipped extent once rectangles starting off the canvas are turned away. */
  function ClippedExtent(start: nat, len: nat, limit: nat): (n: nat)
    requires start < limit
    ensures n <= len && start + n <= limit
    ensures n == len || start + n == limit
  {
    if start + len > limit then limit - start else len
  }

  // ---------------------------------------------------------------- Canvas

  class Canvas {
    const size: SizeU
    const data: array<Word>
    var dirty: bool

    /** One cell per pixel, and a pixel count that fits in a `u32`. */
    ghost predicate Valid() {
      data.Length == size.w * size.h && size.w * size.h < U32_RANGE
    }

    /** `Canvas::new(size, Some(col))`: every pixel holds the clear colour, and the canvas is dirty. */
    constructor (size: SizeU, clearCol: Color)
      requires size.w * size.h < U32_RANGE
      ensures Valid() && this.size == size && fresh(data)
      ensures data[..] == seq(size.w * size.h, _ => clearCol.bits)
      ensures dirty
    {
      this.size := size;
      data := new Word[size.w * size.h](_ => clearCol.bits);
      dirty := true;
    }

    /** `clear`: every pixel takes the colour, and the canvas is dirty. */
    method Clear(col: Color)
      requires Valid()
      modifies this, data
      ensures data[..] == seq(data.Length, _ => col.bits)
      ensures data[..] == Paint(old(data[..]), size.w, Box(0, 0, size.w, size.h), col.bits)
      ensures dirty
    {
      PaintWholeCanvas(data[..], size.w, size.h, col.bits);
      var i := 0;
      while i < data.Length
        invariant 0 <= i <= data.Length
        invariant forall j :: 0 <= j < i ==> data[j] == col.bits
      {
        data[i] := col.bits;
        i := i + 1;
      }
      dirty := true;
    }

    /** `pos_valid`. */
    predicate PosValid(p: PointU) {
      p.x < size.w && p.y < size.h
    }

    /** `pos_to_index`: a valid position is a cell of the buffer. */
    function PosToIndex(p: PointU): (i: nat)
      requires Valid()
      ensures PosValid(p) ==> i < data.Length && i % size.w == p.x && i / size.w == p.y
    {
      if PosValid(p) then CellIndex(size.w, size.h, p.x, p.y); Index(size.w, p.x, p.y)
      else Index(size.w, p.x, p.y)
    }

    /** `get_pixel`: the colour at a valid position, `None` elsewhere. */
    function GetPixel(p: PointU): (r: Option<Color>)
      requires Valid()
      reads data
      ensures r.Some? <==> PosValid(p)
      ensures r.Some? ==> r.value.bits == data[PosToIndex(p)]
    {
      if PosValid(p) then Some(Color(data[PosToIndex(p)])) else None
    }

    /** `set_pixel`: writes a valid position and marks the canvas dirty; elsewhere does nothing. */
    method SetPixel(p: PointU, col: Color)
      requires Valid()
      modifies this, data
      ensures data[..] == Paint(old(data[..]), size.w, Box(p.x, p.y, 1, 1), col.bits)
      ensures dirty == (old(dirty) || PosValid(p))
    {
      if PosValid(p) {
        PaintCell(data[..], size.w, size.h, p.x, p.y, col.bits);
        data[PosToIndex(p)] := col.bits;
        dirty := true;
      } else {
        PaintOffCanvas(data[..], size.w, size.h, Box(p.x, p.y, 1, 1), col.bits);
      }
    }

    /** `hline`: the cells of row `p.y` from `p.x` on, `len` long, clipped to the canvas. */
    method HLine(p: PointU, len: nat, col: Color)
      requires Valid() && p.x + len < U32_RANGE
      modifies data
      ensures data[..] == Paint(old(data[..]), size.w, Box(p.x, p.y, len, 1), col.bits)
    {
      var shape := Box(p.x, p.y, len, 1);
      if p.x >= size.w || p.y >= size.h {
        PaintOffCanvas(data[..], size.w, size.h, shape, col.bits);
        return;
      }
      var n := ClippedExtent(p.x, len, size.w);
      var pos := PosToIndex(p);
      ghost var s0 := data[..];
      var i := 0;
      while i < n
        invariant 0 <= i <= n
        invariant data[..] == Paint(s0, size.w, Box(p.x, p.y, i, 1), col.bits)
      {
        ghost var before := data[..];
        CellIndex(size.w, size.h, p.x + i, p.y);
        PaintCell(before, size.w, size.h, p.x + i, p.y, col.bits);
        PaintTwice(s0, size.w, Box(p.x, p.y, i, 1), Box(p.x + i, p.y, 1, 1), col.bits);
        PaintSameCells(s0, size.w, size.h,
          Union(Box(p.x, p.y, i, 1), Box(p.x + i, p.y, 1, 1)), Box(p.x, p.y, i + 1, 1), col.bits);
        data[pos + i] := col.bits;
        i := i + 1;
      }
      PaintSameCells(s0, size.w, size.h, Box(p.x, p.y, n, 1), shape, col.bits);
    }

    /** `vline`: the cells of column `p.x` from `p.y` down, `len` long, clipped to the canvas. */
    method VLine(p: PointU, len: nat, col: Color)
      requires Valid() && p.y + len < U32_RANGE
      modifies data
      ensures data[..] == Paint(old(data[..]), size.w, Box(p.x, p.y, 1, len), col.bits)
    {
      var shape := Box(p.x, p.y, 1, len);
      if p.x >= size.w || p.y >= size.h {
        PaintOffCanvas(data[..], size.w, size.h, shape, col.bits);
        return;
      }
      var n := ClippedExtent(p.y, len, size.h);
      var pos := PosToIndex(p);
      ghost var s0 := data[..];
      var k := 0;
      while k < n
        invariant 0 <= k <= n
        invariant pos == Index(size.w, p.x, p.y + k)
        invariant data[..] == Paint(s0, size.w, Box(p.x, p.y, 1, k), col.bits)
      {
        ghost var before := data[..];
        CellIndex(size.w, size.h, p.x, p.y + k);
        PaintCell(before, size.w, size.h, p.x, p.y + k, col.bits);
        PaintTwice(s0, size.w, Box(p.x, p.y, 1, k), Box(p.x, p.y + k, 1, 1), col.bits);
        PaintSameCells(s0, size.w, size.h,
          Union(Box(p.x, p.y, 1, k), Box(p.x, p.y + k, 1, 1)), Box(p.x, p.y, 1, k + 1), col.bits);
        data[pos] := col.bits;
        assert Index(size.w, p.x, p.y + k + 1) == pos + size.w by {
          assert (p.y + k + 1) * size.w == (p.y + k) * size.w + size.w;
        }
        pos := pos + size.w;
        k := k + 1;
      }
      PaintSameCells(s0, size.w, size.h, Box(p.x, p.y, 1, n), shape, col.bits);
    }

    /** `rect`: the border of the rectangle, clipped to the canvas. */
    method Rect(r: RectU, col: Color)
      requires Valid() && r.x + r.w < U32_RANGE && r.y + r.h < U32_RANGE
      modifies data
      ensures data[..] == Paint(old(data[..]), size.w, Outline(r.x, r.y, r.w, r.h), col.bits)
    {
      ghost var s0 := data[..];
      if r.w == 0 || r.h == 0 {
        PaintOffCanvas(s0, size.w, size.h, Outline(r.x, r.y, r.w, r.h), col.bits);
        return;
      }
      var tl := PointU(r.x, r.y);
      var tr := PointU(r.x + r.w - 1, r.y);
      var bl := PointU(r.x, r.y + r.h - 1);
      var top, bottom := Box(r.x, r.y, r.w, 1), Box(r.x, r.y + r.h - 1, r.w, 1);
      var left, right := Box(r.x, r.y, 1, r.h), Box(r.x + r.w - 1, r.y, 1, r.h);
      HLine(tl, r.w, col);
      HLine(bl, r.w, col);
      PaintTwice(s0, size.w, top, bottom, col.bits);
      VLine(tl, r.h, col);
      PaintTwice(s0, size.w, Union(top, bottom), left, col.bits);
      VLine(tr, r.h, col);
      PaintTwice(s0, size.w, Union(Union(top, bottom), left), right, col.bits);
      forall x: nat, y: nat | x < size.w && y < size.h
        ensures Covers(Union(Union(Union(top, bottom), left), right), x, y) <==> Covers(Outline(r.x, r.y, r.w, r.h), x, y)
      {
        OutlineIsFourEdges(r.x, r.y, r.w, r.h, x, y);
      }
      PaintSameCells(s0, size.w, size.h, Union(Union(Union(top, bottom), left), right),
        Outline(r.x, r.y, r.w, r.h), col.bits);
    }

    /**
     * `rect_fill`: every cell of the rectangle that lies on the canvas.  A
     * rectangle starting right of or below the canvas is turned away before
     * its extent is clipped (see `RectFillWidthAsWritten`).
     */
    method RectFill(r: RectU, col: Color)
      requires Valid() && r.x + r.w < U32_RANGE && r.y + r.h < U32_RANGE
      modifies data
      ensures data[..] == Paint(old(data[..]), size.w, Box(r.x, r.y, r.w, r.h), col.bits)
    {
      var shape := Box(r.x, r.y, r.w, r.h);
      if r.w == 0 || r.h == 0 || r.x >= size.w || r.y >= size.h {
        PaintOffCanvas(data[..], size.w, size.h, shape, col.bits);
        return;
      }
      var w := ClippedExtent(r.x, r.w, size.w);
      var h := ClippedExtent(r.y, r.h, size.h);
      ghost var s0 := data[..];
      var y := r.y;
      while y < r.y + h
        invariant r.y <= y <= r.y + h
        invariant data[..] == Paint(s0, size.w, Box(r.x, r.y, w, y - r.y), col.bits)
      {
        HLine(PointU(r.x, y), w, col);
        PaintTwice(s0, size.w, Box(r.x, r.y, w, y - r.y), Box(r.x, y, w, 1), col.bits);
        PaintSameCells(s0, size.w, size.h,
          Union(Box(r.x, r.y, w, y - r.y), Box(r.x, y, w, 1)), Box(r.x, r.y, w, y + 1 - r.y), col.bits);
        y := y + 1;
      }
      PaintSameCells(s0, size.w, size.h, Box(r.x, r.y, w, h), shape, col.bits);
    }
  }
}
