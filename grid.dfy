/** Tile coordinates and the row-major flat index used by every per-tile array. */
module Grid {

  datatype Option<T> = None | Some(value: T)

  /** A tile coordinate (`Vec2i` in the engine). */
  datatype Vec2i = Vec2i(x: int, y: int)

  /** `idx(w, x, y)`: row-major flat index of tile (x, y) in a grid of width w. */
  function Idx(w: int, x: int, y: int): int
  {
    y * w + x
  }

  /** Number of cells the per-tile vectors hold for a `width x height` grid
      (a negative product is treated as an empty grid). */
  function Cells(w: int, h: int): nat
  {
    if w * h < 0 then 0 else w * h
  }

  predicate InGrid(w: int, h: int, x: int, y: int)
  {
    0 <= x < w && 0 <= y < h
  }

  /** The coordinate a flat index stands for (`x = i % w`, `y = i / w`). */
  function CoordOf(w: int, i: int): Vec2i
    requires w > 0
  {
    Vec2i(i % w, i / w)
  }

  function Abs(a: int): nat
  {
    if a < 0 then -a else a
  }

  function Max(a: int, b: int): int
  {
    if a < b then b else a
  }

  function Min(a: int, b: int): int
  {
    if a < b then a else b
  }

  /** Manhattan distance between two tiles. */
  function Manhattan(a: Vec2i, b: Vec2i): nat
  {
    Abs(a.x - b.x) + Abs(a.y - b.y)
  }

  /** Chebyshev distance between two tiles. */
  function Chebyshev(a: Vec2i, b: Vec2i): nat
  {
    if Abs(a.x - b.x) < Abs(a.y - b.y) then Abs(a.y - b.y) else Abs(a.x - b.x)
  }

  /** An in-bounds tile has a flat index inside `[0, w*h)`. */
  lemma IdxInRange(w: int, h: int, x: int, y: int)
    requires InGrid(w, h, x, y)
    ensures 0 <= Idx(w, x, y) < w * h
    ensures Cells(w, h) == w * h
  {
    assert 0 <= y * w by { MulNonNeg(y, w); }
    assert (y + 1) * w <= h * w by { MulMono(y + 1, h, w); }
    assert (y + 1) * w == y * w + w;
  }

  lemma MulNonNeg(a: int, b: int)
    requires 0 <= a && 0 <= b
    ensures 0 <= a * b
  {
  }

  lemma MulMono(a: int, b: int, c: int)
    requires a <= b && 0 <= c
    ensures a * c <= b * c
  {
    assert b * c - a * c == (b - a) * c;
    MulNonNeg(b - a, c);
  }

  /** Row y + 1 starts w cells after row y, within the grid while y < h. */
  lemma RowStart(w: int, h: int, y: int)
    requires 0 <= y < h && 0 <= w
    ensures (y + 1) * w == y * w + w
    ensures 0 <= y * w && y * w + w <= w * h
  {
    MulMono(y + 1, h, w);
    MulNonNeg(y, w);
    assert h * w == w * h;
  }

  /** The flat index determines the coordinate: `idx` is injective on the grid. */
  lemma IdxCoords(w: int, x: int, y: int)
    requires 0 <= x < w && 0 <= y
    ensures CoordOf(w, Idx(w, x, y)) == Vec2i(x, y)
  {
    var i := y * w + x;
    DivModUnique(i, w, y, x);
  }

  /** Every index of the grid is the index of its coordinate. */
  lemma CoordIdx(w: int, h: int, i: int)
    requires w > 0 && 0 <= i < w * h
    ensures InGrid(w, h, CoordOf(w, i).x, CoordOf(w, i).y)
    ensures Idx(w, CoordOf(w, i).x, CoordOf(w, i).y) == i
  {
    var q, r := i / w, i % w;
    assert i == q * w + r;
    if q >= h {
      MulMono(h, q, w);
      assert false;
    }
    if q < 0 {
      MulMono(q, -1, w);
      assert false;
    }
  }

  lemma DivModUnique(i: int, w: int, q: int, r: int)
    requires w > 0 && 0 <= r < w && i == q * w + r
    ensures i / w == q && i % w == r
  {
    var q', r' := i / w, i % w;
    assert i == q' * w + r';
    if q' < q {
      MulMono(q' + 1, q, w);
      assert false;
    } else if q < q' {
      MulMono(q + 1, q', w);
      assert false;
    }
  }

  lemma IdxInjective(w: int, h: int, x1: int, y1: int, x2: int, y2: int)
    requires InGrid(w, h, x1, y1) && InGrid(w, h, x2, y2)
    requires Idx(w, x1, y1) == Idx(w, x2, y2)
    ensures x1 == x2 && y1 == y2
  {
    IdxCoords(w, x1, y1);
    IdxCoords(w, x2, y2);
  }
}
