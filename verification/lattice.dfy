/** Row-major flat indexing of a rectangular lattice, shared by the ocean
    buffers, the CA textures and the mesh. */
module Lattice {

  /** Multiplication by a non-negative factor is monotone. */
  lemma MulMono(d: int, a: int, b: int)
    requires d >= 0 && a <= b
    ensures d * a <= d * b
  {
  }

  /** Euclidean division is determined by quotient and remainder. */
  lemma DivModUnique(x: int, d: int, q: int, r: int)
    requires d > 0 && 0 <= r < d && x == q * d + r
    ensures x / d == q && x % d == r
  {
    var q', r' := x / d, x % d;
    assert x == d * q' + r';
    if q' > q {
      MulMono(d, q + 1, q');
      assert false;
    } else if q' < q {
      MulMono(d, q' + 1, q);
      assert false;
    }
  }

  /** The flat index of column `col` in row `row` of a lattice `width` wide.
      Column and row are recovered from it by `%` and `/`, so distinct cells
      have distinct indices. */
  function RowMajor(width: nat, col: nat, row: nat): (k: nat)
    requires col < width
    ensures k / width == row && k % width == col
  {
    DivModUnique(row * width + col, width, row, col);
    row * width + col
  }

  /** Cells of a `width` x `height` lattice index into [0, width * height). */
  lemma RowMajorBound(width: nat, height: nat, col: nat, row: nat)
    requires col < width && row < height
    ensures RowMajor(width, col, row) < width * height
  {
    MulMono(width, row + 1, height);
  }

  /** Every slot of a `width` x `height` buffer is the index of exactly one cell. */
  lemma RowMajorOnto(width: nat, height: nat, k: nat)
    requires k < width * height
    ensures width > 0 && k / width < height
    ensures k == RowMajor(width, k % width, k / width)
  {
    assert width > 0;
    if k / width >= height {
      MulMono(width, height, k / width);
      assert false;
    }
  }
}
