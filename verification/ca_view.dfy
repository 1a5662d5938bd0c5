/** The triangle mesh that draws the cellular automaton (`CAViewGLSL`): one
    texture coordinate per lattice cell, pointing at the centre of that cell's
    texel in the position texture, and two triangles per lattice quad whose
    indices select those coordinates. */
module CAView {
  import opened Numerics
  import opened Lattice

  // ---------------------------------------------------------------------------
  // Texture coordinates

  /** The coordinate written for column i, row j of a width x height lattice:
      i / width and j / height, each biased by half a texel. */
  function Texcoord(width: nat, height: nat, i: nat, j: nat): Vec2
    requires width > 0 && height > 0
  {
    var texelWidth := 1.0 / width as real;
    var texelHeight := 1.0 / height as real;
    Vec2(i as real / width as real + texelWidth * 0.5, j as real / height as real + texelHeight * 0.5)
  }

  /** One axis of `Texcoord`: (2i + 1) / 2n, strictly inside (0, 1), and
      scaling it back by n lands inside texel i. */
  lemma AxisCentre(n: nat, i: nat)
    requires i < n
    ensures i as real / n as real + (1.0 / n as real) * 0.5 == (2 * i + 1) as real / (2 * n) as real
    ensures 0.0 < (2 * i + 1) as real / (2 * n) as real < 1.0
    ensures (((2 * i + 1) as real / (2 * n) as real) * n as real).Floor == i
  {
    var r, x := n as real, i as real;
    var c := (2.0 * x + 1.0) / (2.0 * r);
    assert (2 * i + 1) as real / (2 * n) as real == c;
    Quotient(x, r, x / r);
    Quotient(1.0, r, 1.0 / r);
    Quotient(2.0 * x + 1.0, 2.0 * r, c);
    assert c * r == x + 0.5;
    assert 0.0 < c by { QuotientPositive(2.0 * x + 1.0, 2.0 * r); }
    assert c < 1.0 by { QuotientBelowOne(2.0 * x + 1.0, 2.0 * r); }
  }

  lemma Quotient(a: real, b: real, q: real)
    requires b != 0.0 && q == a / b
    ensures q * b == a
  {
  }

  lemma QuotientPositive(a: real, b: real)
    requires a > 0.0 && b > 0.0
    ensures a / b > 0.0
  {
  }

  lemma QuotientBelowOne(a: real, b: real)
    requires 0.0 <= a < b
    ensures a / b < 1.0
  {
  }

  /** The coordinate of cell (i, j) is the texel centre ((2i+1)/2w, (2j+1)/2h):
      it lies strictly inside the unit square, and a nearest-texel fetch at it
      reads texel (i, j) and not a neighbour. */
  lemma TexelCentre(width: nat, height: nat, i: nat, j: nat)
    requires i < width && j < height
    ensures Texcoord(width, height, i, j)
         == Vec2((2 * i + 1) as real / (2 * width) as real, (2 * j + 1) as real / (2 * height) as real)
    ensures 0.0 < Texcoord(width, height, i, j).x < 1.0
    ensures 0.0 < Texcoord(width, height, i, j).y < 1.0
    ensures (Texcoord(width, height, i, j).x * width as real).Floor == i
    ensures (Texcoord(width, height, i, j).y * height as real).Floor == j
  {
    AxisCentre(width, i);
    AxisCentre(height, j);
  }

  /** The `_positions` array of a square lattice: slot k holds the coordinate
      of column k / width, row k % width. */
  function TexGrid(width: nat): (g: seq<Vec2>)
    requires width > 0
    ensures |g| == width * width
  {
    seq(width * width, k requires 0 <= k < width * width => Texcoord(width, width, k / width, k % width))
  }

  /** Cell (i, j) is stored at i * width + j, inside the array, and the
      coordinate found there is its own: no two cells share a slot. */
  lemma TexGridAt(width: nat, i: nat, j: nat)
    requires i < width && j < width
    ensures i * width + j < width * width
    ensures TexGrid(width)[i * width + j] == Texcoord(width, width, i, j)
  {
    assert i * width + j == RowMajor(width, j, i);
    RowMajorBound(width, width, j, i);
  }

  /** On a lattice wider than it is tall, the write for the last cell falls
      past the end of the width * height array, so the bounds-checked store
      throws. */
  lemma WideLatticeOutOfRange(width: nat, height: nat)
    requires 0 < height < width
    ensures (width - 1) * width + (height - 1) >= width * height
  {
    MulMono(width - 1, height + 1, width);
  }

  // ---------------------------------------------------------------------------
  // Triangulation

  /** The six indices emitted for quad (s, t), with row stride `stride`:
      triangle (a, b, c) then triangle (c, b, d), where a is the quad's own
      corner, b the one a row below, c the next along and d diagonal. */
  function Quad(stride: int, s: int, t: int): (q: seq<int>)
    ensures |q| == 6
  {
    var a := t * stride + s;
    var b := (t + 1) * stride + s;
    var c := t * stride + (s + 1);
    var d := (t + 1) * stride + (s + 1);
    [a, b, c, c, b, d]
  }

  /** The quads s < n of row t, in emission order. */
  function RowQuads(stride: int, t: int, n: nat): (r: seq<int>)
    ensures |r| == 6 * n
  {
    if n == 0 then [] else RowQuads(stride, t, n - 1) + Quad(stride, n - 1, t)
  }

  /** Rows 0 .. t - 1 of the index list, each holding quads 0 .. width - 2. */
  function MeshRows(width: nat, height: nat, t: nat): (r: seq<int>)
    requires width > 0
    ensures |r| == 6 * (t * (width - 1))
  {
    if t == 0 then [] else MeshRows(width, height, t - 1) + RowQuads(height, t - 1, width - 1)
  }

  /** The whole index list: rows t < height - 1, with row stride height. */
  function Mesh(width: nat, height: nat): (r: seq<int>)
    requires width > 0 && height > 0
    ensures |r| == 6 * ((width - 1) * (height - 1))
  {
    MeshRows(width, height, height - 1)
  }

  /** Within a row, quad s occupies the six entries from 6 s on. */
  lemma {:induction false} RowQuadsAt(stride: int, t: int, n: nat, s: nat, r: nat)
    requires s < n && r < 6
    ensures RowQuads(stride, t, n)[6 * s + r] == Quad(stride, s, t)[r]
  {
    if s < n - 1 {
      RowQuadsAt(stride, t, n - 1, s, r);
    }
  }

  /** Within the first t rows, quad (s, t') occupies the six entries from
      6 (t' (width - 1) + s) on. */
  lemma {:induction false} MeshRowsAt(width: nat, height: nat, t: nat, s: nat, t': nat, r: nat)
    requires s < width - 1 && t' < t && r < 6
    ensures 6 * (t' * (width - 1) + s) + r < |MeshRows(width, height, t)|
    ensures MeshRows(width, height, t)[6 * (t' * (width - 1) + s) + r] == Quad(height, s, t')[r]
  {
    var p := 6 * (t' * (width - 1) + s) + r;
    MulMono(width - 1, t', t - 1);
    assert 6 * ((t - 1) * (width - 1)) + 6 * (width - 1) == 6 * (t * (width - 1));
    if t' < t - 1 {
      MeshRowsAt(width, height, t - 1, s, t', r);
    } else {
      RowQuadsAt(height, t - 1, width - 1, s, r);
    }
  }

  /** Quads are emitted row by row: quad (s, t) occupies the six entries from
      6 (t (width - 1) + s) on. */
  lemma MeshQuad(width: nat, height: nat, s: nat, t: nat)
    requires s < width - 1 && t < height - 1
    ensures 6 * (t * (width - 1) + s) + 6 <= |Mesh(width, height)|
    ensures Mesh(width, height)[6 * (t * (width - 1) + s)..6 * (t * (width - 1) + s) + 6]
         == Quad(height, s, t)
  {
    var q := 6 * (t * (width - 1) + s);
    forall r | 0 <= r < 6
      ensures q + r < |Mesh(width, height)| && Mesh(width, height)[q + r] == Quad(height, s, t)[r]
    {
      MeshRowsAt(width, height, height - 1, s, t, r);
    }
  }

  /** Every index of quad (s, t) of a lattice at least as wide as it is tall
      lies in [0, width * height). */
  lemma QuadBound(width: nat, height: nat, s: nat, t: nat)
    requires 0 < height <= width && s < width - 1 && t < height - 1
    ensures forall r | 0 <= r < 6 :: 0 <= Quad(height, s, t)[r] < width * height
  {
    var d := (t + 1) * height + (s + 1);
    MulMono(height, t + 1, height - 1);
    assert d <= (height - 1) * height + (width - 1);
    MulMono(height - 1, height, width);
    assert d < width * height;
  }

  lemma {:induction false} RowQuadsInBounds(width: nat, height: nat, t: nat, n: nat)
    requires 0 < height <= width && t < height - 1 && n <= width - 1
    ensures forall x | x in RowQuads(height, t, n) :: 0 <= x < width * height
  {
    if n > 0 {
      RowQuadsInBounds(width, height, t, n - 1);
      QuadBound(width, height, n - 1, t);
    }
  }

  lemma {:induction false} MeshRowsInBounds(width: nat, height: nat, t: nat)
    requires 0 < height <= width && t <= height - 1
    ensures forall x | x in MeshRows(width, height, t) :: 0 <= x < width * height
  {
    if t > 0 {
      MeshRowsInBounds(width, height, t - 1);
      RowQuadsInBounds(width, height, t - 1, width - 1);
    }
  }

  /** When the lattice is at least as wide as it is tall, every emitted index
      selects an existing texture coordinate. */
  lemma MeshInBounds(width: nat, height: nat)
    requires 0 < height <= width
    ensures forall p | 0 <= p < |Mesh(width, height)| :: 0 <= Mesh(width, height)[p] < width * height
  {
    MeshRowsInBounds(width, height, height - 1);
    forall p | 0 <= p < |Mesh(width, height)|
      ensures 0 <= Mesh(width, height)[p] < width * height
    {
      assert Mesh(width, height)[p] in MeshRows(width, height, height - 1);
    }
  }

  /** With the row stride height, a lattice taller than it is wide emits an
      index past the last cell: the final index of the last quad. */
  lemma TallMeshOutOfRange(width: nat, height: nat)
    requires 2 <= width < height
    ensures |Mesh(width, height)| > 0
    ensures Mesh(width, height)[|Mesh(width, height)| - 1] >= width * height
  {
    MulMono(width - 1, 1, height - 1);
    var last := RowQuads(height, height - 2, width - 1);
    assert Mesh(width, height) == MeshRows(width, height, height - 2) + last;
    assert last == RowQuads(height, height - 2, width - 2) + Quad(height, width - 2, height - 2);
    MulMono(height - 1, width + 1, height);
  }

  predicate Distinct3(a: int, b: int, c: int) { a != b && b != c && c != a }

  /** The two triangles of a quad share the edge b-c, and each has three
      distinct corners whenever the stride is at least 2. */
  lemma QuadTriangles(stride: int, s: int, t: int)
    requires stride >= 2
    ensures Quad(stride, s, t)[3] == Quad(stride, s, t)[2]
    ensures Quad(stride, s, t)[4] == Quad(stride, s, t)[1]
    ensures Distinct3(Quad(stride, s, t)[0], Quad(stride, s, t)[1], Quad(stride, s, t)[2])
    ensures Distinct3(Quad(stride, s, t)[3], Quad(stride, s, t)[4], Quad(stride, s, t)[5])
    ensures Quad(stride, s, t)[0] != Quad(stride, s, t)[5]
  {
  }

  /** On a square lattice the corners of quad (s, t) select the coordinates of
      four neighbouring texels: (t, s), (t + 1, s), (t, s + 1) and
      (t + 1, s + 1). */
  lemma QuadTexels(width: nat, s: nat, t: nat)
    requires s < width - 1 && t < width - 1
    ensures forall r | 0 <= r < 6 :: 0 <= Quad(width, s, t)[r] < width * width
    ensures TexGrid(width)[Quad(width, s, t)[0]] == Texcoord(width, width, t, s)
    ensures TexGrid(width)[Quad(width, s, t)[1]] == Texcoord(width, width, t + 1, s)
    ensures TexGrid(width)[Quad(width, s, t)[2]] == Texcoord(width, width, t, s + 1)
    ensures TexGrid(width)[Quad(width, s, t)[5]] == Texcoord(width, width, t + 1, s + 1)
  {
    TexGridAt(width, t, s);
    TexGridAt(width, t + 1, s);
    TexGridAt(width, t, s + 1);
    TexGridAt(width, t + 1, s + 1);
  }

  // ---------------------------------------------------------------------------
  // The view object

  class CAViewGLSL {
    /** `size.x`, `size.y` of the model's lattice */
    const width: nat
    const height: nat
    /** `_positions` */
    const positions: array<Vec2>
    /** `_indices` */
    var indices: seq<int>

    ghost predicate Valid()
    {
      width > 0 && height > 0 && positions.Length == width * height
    }

    /** The constructor's two loops on a square lattice: the texel-centred
        coordinate grid, then the index list, six entries per quad. */
    constructor (width: nat, height: nat)
      requires width > 0 && width == height
      ensures Valid() && this.width == width && this.height == height
      ensures positions[..] == TexGrid(width)
      ensures indices == Mesh(width, height)
    {
      this.width := width;
      this.height := height;
      positions := new Vec2[width * height](_ => Vec2(0.0, 0.0));
      indices := [];
      new;
      FillTexcoords();
      Triangulate();
    }

    /** The first loop: i outer, j inner, coordinate (i, j) stored at
        i * width + j. */
    method FillTexcoords()
      requires Valid() && width == height
      modifies positions
      ensures positions[..] == TexGrid(width)
    {
      var i := 0;
      while i < width
        invariant 0 <= i <= width
        invariant i * width <= width * width
        invariant positions[..i * width] == TexGrid(width)[..i * width]
      {
        FillColumn(i);
        MulMono(width, i + 1, width);
        i := i + 1;
      }
      assert positions[..] == positions[..width * width];
    }

    /** The inner loop for one i: the coordinates (i, 0) .. (i, height - 1). */
    method FillColumn(i: nat)
      requires Valid() && width == height && i < width
      requires positions[..i * width] == TexGrid(width)[..i * width]
      modifies positions
      ensures (i + 1) * width <= width * width
      ensures positions[..(i + 1) * width] == TexGrid(width)[..(i + 1) * width]
    {
      MulMono(width, i + 1, width);
      var j := 0;
      while j < height
        invariant 0 <= j <= height
        invariant positions[..i * width + j] == TexGrid(width)[..i * width + j]
      {
        var idx := i * width + j;
        TexGridAt(width, i, j);
        positions[idx] := Texcoord(width, height, i, j);
        assert positions[..idx + 1] == TexGrid(width)[..idx + 1];
        j := j + 1;
      }
    }

    /** The second loop: t outer over rows, s inner over columns. */
    method Triangulate()
      requires Valid() && indices == []
      modifies this
      ensures indices == Mesh(width, height)
    {
      var t := 0;
      while t < height - 1
        invariant 0 <= t <= height - 1
        invariant indices == MeshRows(width, height, t)
      {
        TriangulateRow(t);
        t := t + 1;
      }
    }

    /** The inner loop for row t: six `push_back`s per quad. */
    method TriangulateRow(t: nat)
      requires Valid() && indices == MeshRows(width, height, t)
      modifies this
      ensures indices == MeshRows(width, height, t + 1)
    {
      var s := 0;
      while s < width - 1
        invariant 0 <= s <= width - 1
        invariant indices == MeshRows(width, height, t) + RowQuads(height, t, s)
      {
        ghost var before := indices;
        indices := indices + [t * height + s];
        indices := indices + [(t + 1) * height + s];
        indices := indices + [t * height + (s + 1)];
        indices := indices + [t * height + (s + 1)];
        indices := indices + [(t + 1) * height + s];
        indices := indices + [(t + 1) * height + (s + 1)];
        assert indices == before + Quad(height, s, t);
        assert RowQuads(height, t, s + 1) == RowQuads(height, t, s) + Quad(height, s, t);
        s := s + 1;
      }
    }
  }
}
