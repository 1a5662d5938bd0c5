/** The CPU side of the lattice-Boltzmann wave automaton (`CAModelGLSL`): the
    initial state of every cell, built from Gaussian bumps and the ocean
    height field, and the indices of the GPU double buffer that each update
    pass flips. The GPU textures, framebuffers and the update shader itself
    are not part of this model. */
module CAModel {
  import opened Numerics
  import opened Lattice
  import opened OceanModel

  // ---------------------------------------------------------------------------
  // One cell

  /** A cell as the three textures hold it: its position, whose y is the
      water height, and the five mass-flow components c0 .. c4 (c4 is the
      first component of `massFlow1`, followed by the wave number). */
  datatype Cell = Cell(position: Vec4, massFlow0: Vec4, massFlow1: Vec4)

  /** The five mass-flow components of a cell, summed as the update shader
      does to recover the cell's height. */
  function FlowSum(c: Cell): real
  {
    c.massFlow0.x + c.massFlow0.y + c.massFlow0.z + c.massFlow0.w + c.massFlow1.x
  }

  /** The cell at lattice point p with the given height: the height is split
      evenly over the five mass-flow components, so they sum back to it. */
  function CellState(p: Vec2, height: real, waveNumber: int): (c: Cell)
    ensures c.position.y == height && FlowSum(c) == height
    ensures c.massFlow0.x == c.massFlow0.y == c.massFlow0.z == c.massFlow0.w == c.massFlow1.x
    ensures c.position.x == p.x && c.position.z == p.y && c.position.w == 1.0
    ensures c.massFlow1.y == waveNumber as real && c.massFlow1.z == 0.0 && c.massFlow1.w == 0.0
  {
    var flow := height / 5.0;
    Cell(Vec4(p.x, height, p.y, 1.0), Vec4(flow, flow, flow, flow), Vec4(flow, waveNumber as real, 0.0, 0.0))
  }

  // ---------------------------------------------------------------------------
  // Lattice geometry

  /** `_step`: the spacing that puts column 0 at min.x and column width - 1 at
      max.x, and likewise for the rows. */
  function Spacing(width: nat, height: nat, lo: Vec2, hi: Vec2): Vec2
    requires width > 1 && height > 1
  {
    Vec2((hi.x - lo.x) / (width as real - 1.0), (hi.y - lo.y) / (height as real - 1.0))
  }

  /** The position of column x, row y: min plus x and y steps. */
  function LatticePoint(lo: Vec2, step: Vec2, x: nat, y: nat): Vec2
  {
    Vec2(lo.x + x as real * step.x, lo.y + y as real * step.y)
  }

  /** Advancing the running position by one step moves to the next column,
      or to the next row. */
  lemma LatticePointStep(lo: Vec2, step: Vec2, x: nat, y: nat)
    ensures LatticePoint(lo, step, x + 1, y) == Vec2(LatticePoint(lo, step, x, y).x + step.x, lo.y + y as real * step.y)
    ensures LatticePoint(lo, step, x, y + 1).y == LatticePoint(lo, step, x, y).y + step.y
  {
    assert (x + 1) as real * step.x == x as real * step.x + step.x;
    assert (y + 1) as real * step.y == y as real * step.y + step.y;
  }

  /** The lattice runs from min at cell (0, 0) to max at cell
      (width - 1, height - 1). */
  lemma LatticeCorners(width: nat, height: nat, lo: Vec2, hi: Vec2)
    requires width > 1 && height > 1
    ensures LatticePoint(lo, Spacing(width, height, lo, hi), 0, 0) == lo
    ensures LatticePoint(lo, Spacing(width, height, lo, hi), width - 1, height - 1) == hi
  {
    var step := Spacing(width, height, lo, hi);
    var w, h := width as real - 1.0, height as real - 1.0;
    assert (width - 1) as real == w && (height - 1) as real == h;
    assert w * step.x == hi.x - lo.x;
    assert h * step.y == hi.y - lo.y;
  }

  // ---------------------------------------------------------------------------
  // Gaussian bumps

  /** `A` in the Gaussian initial states. */
  const BumpAmplitude: real := 4.0

  /** The four points whose distance from the origin sets the bumps' heights
      at p: p plus and minus a quarter of (w, h) and of (w, -h). */
  function BumpOffsets(p: Vec2, simWidth: real, simHeight: real): (o: seq<Vec2>)
    ensures |o| == 4
  {
    [ Vec2(p.x + 0.25 * simWidth, p.y + 0.25 * simHeight),
      Vec2(p.x - 0.25 * simWidth, p.y - 0.25 * simHeight),
      Vec2(p.x + 0.25 * simWidth, p.y - 0.25 * simHeight),
      Vec2(p.x - 0.25 * simWidth, p.y + 0.25 * simHeight) ]
  }

  /** One bump: A exp(-50 l^2), l the distance scaled by the lattice width. */
  function Bump(lib: Libm, distance: real, simWidth: real): real
    requires simWidth != 0.0
  {
    var l := distance / simWidth;
    BumpAmplitude * lib.exp(-50.0 * l * l)
  }

  /** The bumps at the points `qs`, accumulated first to last. */
  function BumpSum(lib: Libm, qs: seq<Vec2>, simWidth: real): real
    requires simWidth != 0.0
  {
    if |qs| == 0 then 0.0
    else BumpSum(lib, qs[..|qs| - 1], simWidth) + Bump(lib, Length2(lib, qs[|qs| - 1]), simWidth)
  }

  /** The height of the four-bump field at lattice position p. */
  function GaussianHeight(lib: Libm, lo: Vec2, hi: Vec2, p: Vec2): real
    requires hi.x != lo.x
  {
    BumpSum(lib, BumpOffsets(p, hi.x - lo.x, hi.y - lo.y), hi.x - lo.x)
  }

  /** The four bumps' contributions in order. */
  lemma {:induction false} BumpSumOfFour(lib: Libm, qs: seq<Vec2>, simWidth: real)
    requires simWidth != 0.0 && |qs| == 4
    ensures BumpSum(lib, qs, simWidth)
         == Bump(lib, Length2(lib, qs[0]), simWidth) + Bump(lib, Length2(lib, qs[1]), simWidth)
          + Bump(lib, Length2(lib, qs[2]), simWidth) + Bump(lib, Length2(lib, qs[3]), simWidth)
  {
    var B := (q: Vec2) => Bump(lib, Length2(lib, q), simWidth);
    assert qs[..3][..2] == qs[..2] && qs[..2][..1] == qs[..1] && qs[..1][..0] == [];
    assert BumpSum(lib, qs[..1], simWidth) == B(qs[0]);
    assert BumpSum(lib, qs[..2], simWidth) == B(qs[0]) + B(qs[1]);
    assert BumpSum(lib, qs[..3], simWidth) == B(qs[0]) + B(qs[1]) + B(qs[2]);
  }

  /** A point and its negation are the same distance from the origin. */
  lemma NegatedLength(lib: Libm, v: Vec2)
    ensures Length2(lib, Neg2(v)) == Length2(lib, v)
  {
    assert Dot2(Neg2(v), Neg2(v)) == Dot2(v, v);
  }

  /** The bump field is symmetric about the centre of the lattice: the heights
      at p and at -p agree, because the four offset points of -p are the
      negated offset points of p, taken in a different order. */
  lemma GaussianEven(lib: Libm, lo: Vec2, hi: Vec2, p: Vec2)
    requires hi.x != lo.x
    ensures GaussianHeight(lib, lo, hi, Neg2(p)) == GaussianHeight(lib, lo, hi, p)
  {
    var w, h := hi.x - lo.x, hi.y - lo.y;
    var o, o' := BumpOffsets(p, w, h), BumpOffsets(Neg2(p), w, h);
    BumpSumOfFour(lib, o, w);
    BumpSumOfFour(lib, o', w);
    assert o'[0] == Neg2(o[1]) && o'[1] == Neg2(o[0]) && o'[2] == Neg2(o[3]) && o'[3] == Neg2(o[2]);
    NegatedLength(lib, o[0]);
    NegatedLength(lib, o[1]);
    NegatedLength(lib, o[2]);
    NegatedLength(lib, o[3]);
  }

  // ---------------------------------------------------------------------------
  // Initial states

  /** Which of the three `initialState*` methods built the lattice. */
  datatype InitialState = Gaussian | Phillips | GaussianAndPhillips

  /** Whether the state reads the ocean's vertices. */
  predicate ReadsOcean(mode: InitialState) { mode != Gaussian }

  /** Whether the state adds the four Gaussian bumps. */
  predicate HasBumps(mode: InitialState) { mode != Phillips }

  /** The height given to cell k at lattice position p. */
  function CellHeight(lib: Libm, mode: InitialState, lo: Vec2, hi: Vec2, vertices: seq<Vec4>, p: Vec2, k: nat): real
    requires HasBumps(mode) ==> hi.x != lo.x
    requires ReadsOcean(mode) ==> k < |vertices|
  {
    match mode
    case Gaussian => GaussianHeight(lib, lo, hi, p)
    case Phillips => vertices[k].y
    case GaussianAndPhillips => GaussianHeight(lib, lo, hi, p) + vertices[k].y
  }

  /** Whether the state's inputs are usable on a width x height lattice: a
      bump state needs a lattice of non-zero width, an ocean state a vertex
      array with at least one vertex per cell. */
  predicate Admissible(mode: InitialState, width: nat, height: nat, lo: Vec2, hi: Vec2, vertices: seq<Vec4>)
  {
    width > 1 && height > 1 &&
    (HasBumps(mode) ==> hi.x != lo.x) &&
    (ReadsOcean(mode) ==> width * height <= |vertices|)
  }

  /** The initial lattice, cell k at column k % width, row k / width. */
  function Layout(lib: Libm, mode: InitialState, width: nat, height: nat, lo: Vec2, hi: Vec2,
                  vertices: seq<Vec4>): (cells: seq<Cell>)
    requires Admissible(mode, width, height, lo, hi, vertices)
    ensures |cells| == width * height
  {
    var step := Spacing(width, height, lo, hi);
    seq(width * height, k requires 0 <= k < width * height =>
      var p := LatticePoint(lo, step, k % width, k / width);
      CellState(p, CellHeight(lib, mode, lo, hi, vertices, p, k), 1))
  }

  /** Cell (x, y) of the initial lattice is stored at y * width + x; it sits
      at its lattice point with its state's height there. */
  lemma LayoutAt(lib: Libm, mode: InitialState, width: nat, height: nat, lo: Vec2, hi: Vec2,
                 vertices: seq<Vec4>, x: nat, y: nat)
    requires Admissible(mode, width, height, lo, hi, vertices)
    requires x < width && y < height
    ensures y * width + x < width * height
    ensures var p := LatticePoint(lo, Spacing(width, height, lo, hi), x, y);
            (Layout(lib, mode, width, height, lo, hi, vertices)[y * width + x]
             == CellState(p, CellHeight(lib, mode, lo, hi, vertices, p, y * width + x), 1))
  {
    assert y * width + x == RowMajor(width, x, y);
    RowMajorBound(width, height, x, y);
  }

  /** Every cell of an initial lattice is at height `position.y`, and its five
      mass-flow components, equal to one another, sum back to that height. */
  lemma LayoutConservesHeight(lib: Libm, mode: InitialState, width: nat, height: nat, lo: Vec2, hi: Vec2,
                              vertices: seq<Vec4>, k: nat)
    requires Admissible(mode, width, height, lo, hi, vertices)
    requires k < width * height
    ensures var c := Layout(lib, mode, width, height, lo, hi, vertices)[k];
            && FlowSum(c) == c.position.y
            && c.massFlow0.x == c.massFlow0.y == c.massFlow0.z == c.massFlow0.w == c.massFlow1.x
            && c.massFlow1.y == 1.0 && c.position.w == 1.0
  {
  }

  /** On a square lattice every cell's read of the ocean's (N + 1)^2 vertex
      array, N = width, is in bounds. */
  lemma SquareReadsInBounds(width: nat, x: nat, y: nat)
    requires x < width && y < width
    ensures y * width + x < (width + 1) * (width + 1)
  {
    RowMajorBound(width, width, x, y);
    MulMono(width, width, width + 1);
  }

  /** The cells read the vertex array with row stride width, but its rows are
      width + 1 long: cell (x, y) reads ocean vertex (x - y, y) when y <= x,
      and vertex (width + 1 + x - y, y - 1) otherwise. Only row 0 reads its
      own vertex. */
  lemma CellReadsShearedVertex(width: nat, x: nat, y: nat)
    requires x < width && y < width
    ensures y <= x ==> y * width + x == RowMajor(width + 1, x - y, y)
    ensures x < y ==> y * width + x == RowMajor(width + 1, width + 1 + x - y, y - 1)
  {
  }

  /** The Phillips height of cell (x, y) of a square lattice, read off the
      ocean's vertex array. */
  lemma PhillipsCellHeight(lib: Libm, width: nat, lo: Vec2, hi: Vec2, vertices: seq<Vec4>, x: nat, y: nat)
    requires width > 1 && |vertices| == (width + 1) * (width + 1)
    requires x < width && y < width
    ensures Admissible(Phillips, width, width, lo, hi, vertices)
    ensures y * width + x < width * width
    ensures var c := Layout(lib, Phillips, width, width, lo, hi, vertices)[y * width + x];
            c.position.y == if y <= x then VertexHeight(width, vertices, x - y, y)
                            else VertexHeight(width, vertices, width + 1 + x - y, y - 1)
  {
    MulMono(width, width, width + 1);
    LayoutAt(lib, Phillips, width, width, lo, hi, vertices, x, y);
    CellReadsShearedVertex(width, x, y);
  }

  // ---------------------------------------------------------------------------
  // The model object

  class CAModelGLSL {
    /** `_size` */
    const width: nat
    const height: nat
    /** `_min`, `_max` */
    const lo: Vec2
    const hi: Vec2
    const physicalSize: real
    const timeStep: real
    /** `_ocean` */
    const ocean: Ocean
    /** `_posTexID`: the two position textures, created by the GL */
    const posTexID: seq<int>
    /** `_src`, `_dst`: which of the two buffers the next pass reads and writes */
    var src: bv32
    var dst: bv32
    /** `_positions`, `_massFlow0`, `_massFlow1` */
    var positions: seq<Vec4>
    var massFlow0: seq<Vec4>
    var massFlow1: seq<Vec4>
    /** `_step`, `_lambda`, `_waveNumber` */
    var step: Vec2
    var lambda: real
    var waveNumber: int

    ghost predicate Valid()
      reads this
    {
      && width > 1 && height > 1 && hi.x != lo.x
      && width * height <= (width + 1) * (width + 1)
      && ocean.Valid() && ocean.sp.N == width
      && |posTexID| == 2 && posTexID[0] != posTexID[1]
      && src < 2 && dst == src ^ 1
      && |positions| == |massFlow0| == |massFlow1| == width * height
    }

    /** The three parallel arrays read cell by cell. */
    function Cells(): (cells: seq<Cell>)
      reads this
      requires |positions| == |massFlow0| == |massFlow1|
      ensures |cells| == |positions|
    {
      var P, F0, F1 := positions, massFlow0, massFlow1;
      seq(|P|, k requires 0 <= k < |P| => Cell(P[k], F0[k], F1[k]))
    }

    /** The constructor: buffer 0 is the source and buffer 1 the destination,
        the ocean is a new N = size.x patch with A = 0.00005, wind (0, 32) and
        side 64, whose zeroed vertex array is evaluated at t = 1/30, and the
        initial state is the Gaussian-and-Phillips one. The
        texture names are those the GL creates for the two buffers. */
    constructor (width: nat, height: nat, lo: Vec2, hi: Vec2, physicalSize: real, timeStep: real,
                 posTexID: seq<int>, lib: Libm, draws: (int, int) -> (Complex, Complex),
                 fft: seq<Complex> -> seq<Complex>)
      requires width > 1 && height > 1 && hi.x != lo.x
      requires width * height <= (width + 1) * (width + 1)
      requires |posTexID| == 2 && posTexID[0] != posTexID[1]
      requires Length2(lib, Vec2(0.0, 32.0)) != 0.0
      requires forall s: seq<Complex> :: |s| == width * width ==> |fft(s)| == |s|
      ensures Valid() && src == 0 && dst == 1
      ensures this.width == width && this.height == height && this.lo == lo && this.hi == hi
      ensures this.posTexID == posTexID
      ensures ocean.sp == Spectrum(width, 0.00005, Vec2(0.0, 32.0), 64.0)
      ensures fresh(ocean) && fresh(ocean.pos) && fresh(ocean.hTilde)
      ensures ocean.Vertices()
           == Scattered(width, seq((width + 1) * (width + 1), _ => Vec4(0.0, 0.0, 0.0, 0.0)),
                        fft(ocean.Amplitudes(lib, 1.0 / 30.0, draws)))
      ensures Cells() == Layout(lib, GaussianAndPhillips, width, height, lo, hi, ocean.Vertices())
    {
      this.width := width;
      this.height := height;
      this.lo := lo;
      this.hi := hi;
      this.physicalSize := physicalSize;
      this.timeStep := timeStep;
      this.posTexID := posTexID;
      src := 0;
      dst := 1;
      ocean := new Ocean(width, 0.00005, Vec2(0.0, 32.0), 64.0);
      positions, massFlow0, massFlow1 := [], [], [];
      new;
      InitialStateGaussianAndPhillips(lib, draws, fft);
    }

    /** `initialStateGaussian`: four Gaussian bumps. */
    method InitialStateGaussian(lib: Libm)
      requires Valid()
      modifies this
      ensures Valid() && src == old(src) && dst == old(dst)
      ensures Cells() == Layout(lib, Gaussian, width, height, lo, hi, [])
      ensures step == Spacing(width, height, lo, hi) && lambda == physicalSize / width as real
      ensures waveNumber == 1
    {
      Rebuild(lib, Gaussian, []);
    }

    /** `initialStatePhillips`: evaluate the ocean at t = 1/30, then take each
        cell's height from the vertex array. */
    method InitialStatePhillips(lib: Libm, draws: (int, int) -> (Complex, Complex),
                                fft: seq<Complex> -> seq<Complex>)
      requires Valid()
      requires Length2(lib, ocean.sp.wind) != 0.0
      requires forall s: seq<Complex> :: |s| == width * width ==> |fft(s)| == |s|
      modifies this, ocean.hTilde, ocean.pos
      ensures Valid() && src == old(src) && dst == old(dst)
      ensures ocean.Vertices() == Scattered(width, old(ocean.Vertices()), fft(ocean.Amplitudes(lib, 1.0 / 30.0, draws)))
      ensures Cells() == Layout(lib, Phillips, width, height, lo, hi, ocean.Vertices())
      ensures step == Spacing(width, height, lo, hi) && lambda == physicalSize / width as real
      ensures waveNumber == 1
    {
      ocean.EvaluateWavesFFT(lib, 1.0 / 30.0, draws, fft);
      var vertices := ocean.Vertices();
      Rebuild(lib, Phillips, vertices);
    }

    /** `initialStateGaussianAndPhillips`: the bumps plus the ocean heights. */
    method InitialStateGaussianAndPhillips(lib: Libm, draws: (int, int) -> (Complex, Complex),
                                           fft: seq<Complex> -> seq<Complex>)
      requires width > 1 && height > 1 && hi.x != lo.x
      requires width * height <= (width + 1) * (width + 1)
      requires ocean.Valid() && ocean.sp.N == width
      requires Length2(lib, ocean.sp.wind) != 0.0
      requires forall s: seq<Complex> :: |s| == width * width ==> |fft(s)| == |s|
      modifies this, ocean.hTilde, ocean.pos
      ensures src == old(src) && dst == old(dst)
      ensures ocean.Vertices() == Scattered(width, old(ocean.Vertices()), fft(ocean.Amplitudes(lib, 1.0 / 30.0, draws)))
      ensures |positions| == |massFlow0| == |massFlow1|
      ensures Cells() == Layout(lib, GaussianAndPhillips, width, height, lo, hi, ocean.Vertices())
      ensures step == Spacing(width, height, lo, hi) && lambda == physicalSize / width as real
      ensures waveNumber == 1
    {
      ocean.EvaluateWavesFFT(lib, 1.0 / 30.0, draws, fft);
      var vertices := ocean.Vertices();
      Rebuild(lib, GaussianAndPhillips, vertices);
    }

    /** The body shared by the three `initialState*` methods: clear the three
        arrays, set the spacing, lambda and the wave number, then append one
        cell per lattice point, y outer and x inner, the running position
        advancing by one step each time. */
    method Rebuild(lib: Libm, mode: InitialState, vertices: seq<Vec4>)
      requires Admissible(mode, width, height, lo, hi, vertices)
      modifies this
      ensures src == old(src) && dst == old(dst)
      ensures |positions| == |massFlow0| == |massFlow1|
      ensures Cells() == Layout(lib, mode, width, height, lo, hi, vertices)
      ensures step == Spacing(width, height, lo, hi) && lambda == physicalSize / width as real
      ensures waveNumber == 1
    {
      positions, massFlow0, massFlow1 := [], [], [];
      step := Spacing(width, height, lo, hi);
      lambda := physicalSize / width as real;
      waveNumber := 1;
      ghost var L := Layout(lib, mode, width, height, lo, hi, vertices);
      var pos := Vec2(0.0, lo.y);
      var y := 0;
      while y < height
        invariant 0 <= y <= height
        invariant y * width <= width * height
        invariant pos.y == lo.y + y as real * step.y
        invariant |positions| == |massFlow0| == |massFlow1| == y * width
        invariant Cells() == L[..y * width]
        invariant src == old(src) && dst == old(dst)
        invariant step == Spacing(width, height, lo, hi) && lambda == physicalSize / width as real
        invariant waveNumber == 1
      {
        RebuildRow(lib, mode, vertices, y, pos.y);
        MulMono(width, y + 1, height);
        LatticePointStep(lo, step, 0, y);
        y := y + 1;
        pos := pos.(y := pos.y + step.y);
      }
    }

    /** The inner loop of the initial state for row y: x runs along the row,
        `pos.x` starting at min.x and advancing one step per cell, and the
        running index `idx` is y * width + x. */
    method RebuildRow(lib: Libm, mode: InitialState, vertices: seq<Vec4>, y: nat, posY: real)
      requires Admissible(mode, width, height, lo, hi, vertices) && y < height
      requires step == Spacing(width, height, lo, hi) && waveNumber == 1
      requires posY == lo.y + y as real * step.y
      requires |positions| == |massFlow0| == |massFlow1| == y * width
      requires Cells() == Layout(lib, mode, width, height, lo, hi, vertices)[..y * width]
      modifies this
      ensures (y + 1) * width <= width * height
      ensures |positions| == |massFlow0| == |massFlow1| == (y + 1) * width
      ensures Cells() == Layout(lib, mode, width, height, lo, hi, vertices)[..(y + 1) * width]
      ensures src == old(src) && dst == old(dst)
      ensures step == old(step) && lambda == old(lambda) && waveNumber == old(waveNumber)
    {
      MulMono(width, y + 1, height);
      ghost var L := Layout(lib, mode, width, height, lo, hi, vertices);
      var pos := Vec2(lo.x, posY);
      var idx := y * width;
      var x := 0;
      while x < width
        invariant 0 <= x <= width
        invariant idx == y * width + x
        invariant pos == LatticePoint(lo, step, x, y)
        invariant |positions| == |massFlow0| == |massFlow1| == idx
        invariant Cells() == L[..idx]
        invariant src == old(src) && dst == old(dst)
        invariant step == old(step) && lambda == old(lambda) && waveNumber == old(waveNumber)
      {
        LayoutAt(lib, mode, width, height, lo, hi, vertices, x, y);
        var h: real;
        if mode == Phillips {
          h := vertices[idx].y;
        } else {
          h := BumpHeight(lib, pos);
          if mode == GaussianAndPhillips {
            h := h + vertices[idx].y;
          }
        }
        assert h == CellHeight(lib, mode, lo, hi, vertices, pos, idx);
        ghost var before := Cells();
        positions := positions + [Vec4(pos.x, h, pos.y, 1.0)];
        var flow := h / 5.0;
        massFlow0 := massFlow0 + [Vec4(flow, flow, flow, flow)];
        massFlow1 := massFlow1 + [Vec4(flow, waveNumber as real, 0.0, 0.0)];
        assert Cells() == before + [CellState(pos, h, 1)];
        LatticePointStep(lo, step, x, y);
        idx := idx + 1;
        x := x + 1;
        pos := pos.(x := pos.x + step.x);
      }
    }

    /** The inner loop over the four bumps at lattice position p. */
    method BumpHeight(lib: Libm, p: Vec2) returns (height: real)
      requires hi.x != lo.x
      ensures height == GaussianHeight(lib, lo, hi, p)
    {
      var simWidth, simHeight := hi.x - lo.x, hi.y - lo.y;
      var pos0 := BumpOffsets(p, simWidth, simHeight);
      height := 0.0;
      var i := 0;
      while i < |pos0|
        invariant 0 <= i <= |pos0|
        invariant height == BumpSum(lib, pos0[..i], simWidth)
      {
        height := height + Bump(lib, Length2(lib, pos0[i]), simWidth);
        assert pos0[..i + 1][..i] == pos0[..i];
        i := i + 1;
      }
      assert pos0[..i] == pos0;
    }

    /** `getCurPositionID`: the position texture the latest pass rendered
        into, never the one it read. */
    function CurPositionId(): (id: int)
      reads this
      requires Valid()
      ensures id == posTexID[dst] && id != posTexID[src]
    {
      posTexID[dst]
    }

    /** `update`: flip both buffer indices, then run one pass that reads the
        source textures and renders into the destination framebuffer (the GL
        calls are not modelled). It returns the position texture the pass
        reads, which is the one the previous pass rendered into. */
    method Update() returns (input: int)
      requires Valid()
      modifies this
      ensures Valid()
      ensures src == old(src) ^ 1 && dst == old(dst) ^ 1
      ensures src == old(dst) && dst == old(src)
      ensures input == posTexID[src] == old(CurPositionId())
      ensures positions == old(positions) && massFlow0 == old(massFlow0) && massFlow1 == old(massFlow1)
      ensures step == old(step) && lambda == old(lambda) && waveNumber == old(waveNumber)
    {
      dst := dst ^ 1;
      src := src ^ 1;
      input := posTexID[src];
    }
  }

  /** Flipping a buffer index twice restores it, so two updates bring the
      source and destination back where they were. */
  lemma FlipTwice(b: bv32)
    ensures b ^ 1 ^ 1 == b
  {
  }
}
