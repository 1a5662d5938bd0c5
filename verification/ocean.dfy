/** The ocean height-field generator of lb_waves/ocean.cpp: the Phillips
    spectrum, the quantised deep-water dispersion relation, the time-evolved
    amplitudes, and the fill / checkerboard-sign / scatter passes of
    `evaluateWavesFFT` around an FFT. Floating point is modelled as exact
    reals; the math library, the random draws and the FFT are parameters. */
module OceanModel {
  import opened Numerics
  import opened Lattice

  /** `_g` */
  const Gravity: real := 9.81
  /** `M_PI` (the double constant, to 16 digits) */
  const Pi: real := 3.141592653589793
  /** `T` in `dispersion`: the simulation repeats after this many seconds. */
  const RepeatTime: real := 200.0
  /** `w_0`: the frequency quantum of `dispersion`. */
  const Omega0: real := 2.0 * Pi / RepeatTime
  /** Below this wave-vector length `phillips` returns zero. */
  const MinWaveLength: real := 0.000001
  /** `damping` in `phillips`. */
  const Damping: real := 0.001

  /** The constant parameters of an Ocean: lattice size `_N`, amplitude `_A`,
      wind `_w` and patch side `_length`. */
  datatype Spectrum = Spectrum(N: nat, A: real, wind: Vec2, length: real)

  // ---------------------------------------------------------------------------
  // Wave vectors

  /** k = (pi (2n - N) / L, pi (2m - N) / L); `n`, `m` may be negative, as in
      the second `hTilde_0` call of `hTilde`. */
  function WaveVector(sp: Spectrum, n: int, m: int): Vec2
    requires sp.length > 0.0
  {
    Vec2(Pi * (2 * n - sp.N) as real / sp.length, Pi * (2 * m - sp.N) as real / sp.length)
  }

  /** One component of a wave vector vanishes exactly at the lattice centre. */
  lemma WaveComponentZero(sp: Spectrum, j: int)
    requires sp.length > 0.0
    ensures Pi * (2 * j - sp.N) as real / sp.length == 0.0 <==> 2 * j == sp.N
  {
    var d := (2 * j - sp.N) as real;
    if d != 0.0 {
      assert Pi * d != 0.0;
      assert (Pi * d / sp.length) * sp.length == Pi * d;
    }
  }

  /** The wave vector is zero exactly at (N/2, N/2). */
  lemma WaveVectorZeroIff(sp: Spectrum, n: int, m: int)
    requires sp.length > 0.0
    ensures WaveVector(sp, n, m) == Vec2(0.0, 0.0) <==> 2 * n == sp.N && 2 * m == sp.N
  {
    WaveComponentZero(sp, n);
    WaveComponentZero(sp, m);
  }

  /** The lattice point (N - n, N - m) carries the opposite wave vector -k. */
  lemma WaveVectorMirror(sp: Spectrum, n: int, m: int)
    requires sp.length > 0.0
    ensures WaveVector(sp, sp.N - n, sp.N - m) == Neg2(WaveVector(sp, n, m))
  {
    var L := sp.length;
    assert (2 * (sp.N - n) - sp.N) as real == -((2 * n - sp.N) as real);
    assert (2 * (sp.N - m) - sp.N) as real == -((2 * m - sp.N) as real);
    assert Pi * (-((2 * n - sp.N) as real)) / L == -(Pi * (2 * n - sp.N) as real / L);
    assert Pi * (-((2 * m - sp.N) as real)) / L == -(Pi * (2 * m - sp.N) as real / L);
  }

  /** The literally negated indices (-n, -m) that `hTilde` passes to its second
      `hTilde_0` call do not give -k: they give -k shifted by 2 pi N / L in both
      components, so they agree with the mirror point only when N = 0. */
  lemma NegatedIndexWaveVector(sp: Spectrum, n: int, m: int)
    requires sp.length > 0.0
    ensures WaveVector(sp, -n, -m).x == Neg2(WaveVector(sp, n, m)).x - 2.0 * Pi * sp.N as real / sp.length
    ensures WaveVector(sp, -n, -m).y == Neg2(WaveVector(sp, n, m)).y - 2.0 * Pi * sp.N as real / sp.length
    ensures WaveVector(sp, -n, -m) == Neg2(WaveVector(sp, n, m)) <==> sp.N == 0
  {
    var L := sp.length;
    var s := 2.0 * Pi * sp.N as real / L;
    assert (2 * -n - sp.N) as real == -((2 * n - sp.N) as real) - 2.0 * sp.N as real;
    assert Pi * (-((2 * n - sp.N) as real) - 2.0 * sp.N as real) / L == -(Pi * (2 * n - sp.N) as real / L) - s;
    assert (2 * -m - sp.N) as real == -((2 * m - sp.N) as real) - 2.0 * sp.N as real;
    assert Pi * (-((2 * m - sp.N) as real) - 2.0 * sp.N as real) / L == -(Pi * (2 * m - sp.N) as real / L) - s;
    if sp.N != 0 {
      assert s * L == 2.0 * Pi * sp.N as real;
      assert s != 0.0;
    }
  }

  /** |k| for lattice point (n, m). */
  function WaveNumber(lib: Libm, sp: Spectrum, n: int, m: int): real
    requires sp.length > 0.0
  {
    Length2(lib, WaveVector(sp, n, m))
  }

  // ---------------------------------------------------------------------------
  // Dispersion

  /** Equation 33: the deep-water angular frequency before quantisation. */
  function Omega(lib: Libm, sp: Spectrum, n: int, m: int): real
    requires sp.length > 0.0
  {
    var k := WaveNumber(lib, sp, n, m);
    lib.sqrt(Gravity * k * (1.0 + k * k * sp.length * sp.length))
  }

  /** w_0 = 2 pi / 200 as a decimal. */
  lemma Omega0Value()
    ensures Omega0 == 0.03141592653589793
  {
  }

  /** Equation 35: round a frequency down to a whole multiple of the quantum. */
  function Quantise(omega: real): (r: real)
    ensures (r / Omega0).Floor as real == r / Omega0
    ensures r <= omega < r + Omega0
  {
    Omega0Value();
    var q := (omega / Omega0).Floor;
    q as real * Omega0
  }

  /** A frequency that is already a multiple of the quantum is left as it is,
      so quantising twice is quantising once. */
  lemma QuantiseIdempotent(omega: real)
    ensures Quantise(Quantise(omega)) == Quantise(omega)
  {
    Omega0Value();
  }

  /** Quantisation preserves the order of frequencies. */
  lemma QuantiseMonotone(a: real, b: real)
    requires a <= b
    ensures Quantise(a) <= Quantise(b)
  {
    Omega0Value();
    var qa, qb := (a / Omega0).Floor, (b / Omega0).Floor;
    assert a / Omega0 <= b / Omega0;
    assert qa <= qb;
    assert qa as real * Omega0 <= qb as real * Omega0;
  }

  /** `dispersion(n, m)`: a whole multiple of w_0 within one quantum below
      the unquantised frequency. */
  function Dispersion(lib: Libm, sp: Spectrum, n: int, m: int): (r: real)
    requires sp.length > 0.0
    ensures (r / Omega0).Floor as real == r / Omega0
    ensures r <= Omega(lib, sp, n, m) < r + Omega0
  {
    Quantise(Omega(lib, sp, n, m))
  }

  // ---------------------------------------------------------------------------
  // Phillips spectrum

  /** L = |w|^2 / g, the largest wave arising from a continuous wind. */
  function WindScale(lib: Libm, wind: Vec2): real
  {
    Sq(Length2(lib, wind)) / Gravity
  }

  /** The two divisors of the spectrum, (k L)^2 and k^4, are positive. */
  lemma DivisorsPositive(lib: Libm, wind: Vec2, kLength: real)
    requires Length2(lib, wind) != 0.0 && kLength != 0.0
    ensures Sq(kLength) * Sq(WindScale(lib, wind)) > 0.0
    ensures Sq(Sq(kLength)) > 0.0
  {
    SqPositive(Length2(lib, wind));
    SqPositive(kLength);
    SqPositive(WindScale(lib, wind));
    SqPositive(Sq(kLength));
  }

  /** exp(-1 / (k L)^2) / k^4, for |k| = kLength. */
  function LargeWaveFactor(lib: Libm, wind: Vec2, kLength: real): real
    requires Length2(lib, wind) != 0.0 && kLength != 0.0
  {
    var kLength2 := Sq(kLength);
    var L2 := Sq(WindScale(lib, wind));
    DivisorsPositive(lib, wind, kLength);
    lib.exp(-1.0 / (kLength2 * L2)) / Sq(kLength2)
  }

  /** (k^ . w^)^2: suppresses waves travelling perpendicular to the wind. */
  function Alignment(lib: Libm, wind: Vec2, k: Vec2): real
    requires Length2(lib, wind) != 0.0 && Length2(lib, k) != 0.0
  {
    Sq(Dot2(Normalize2(lib, k), Normalize2(lib, wind)))
  }

  /** exp(-k^2 l^2) with l = damping * L: suppresses very small waves. */
  function SmallWaveDamping(lib: Libm, wind: Vec2, kLength: real): real
  {
    var l2 := Sq(WindScale(lib, wind)) * Damping * Damping;
    lib.exp(-Sq(kLength) * l2)
  }

  /** The body of `phillips` for wave vector `k`: equation 40 with the
      small-wave damping of equation 41, and zero for (near-)zero wave vectors. */
  function Density(lib: Libm, A: real, wind: Vec2, k: Vec2): (r: real)
    requires Length2(lib, wind) != 0.0
    ensures Length2(lib, k) < MinWaveLength ==> r == 0.0
  {
    var kLength := Length2(lib, k);
    if kLength < MinWaveLength then 0.0
    else A * LargeWaveFactor(lib, wind, kLength) * Alignment(lib, wind, k) * SmallWaveDamping(lib, wind, kLength)
  }

  /** `phillips(n, m)`: the spectral density at the wave vector of (n, m);
      exactly zero when |k| is below 1e-6. */
  function Phillips(lib: Libm, sp: Spectrum, n: int, m: int): (r: real)
    requires sp.length > 0.0
    requires Length2(lib, sp.wind) != 0.0
    ensures WaveNumber(lib, sp, n, m) < MinWaveLength ==> r == 0.0
  {
    Density(lib, sp.A, sp.wind, WaveVector(sp, n, m))
  }

  /** At the lattice centre the wave vector is zero and the spectrum is zero
      (given that sqrt(0) = 0). */
  lemma PhillipsZeroAtCentre(lib: Libm, sp: Spectrum, n: int, m: int)
    requires sp.length > 0.0
    requires Length2(lib, sp.wind) != 0.0
    requires lib.sqrt(0.0) == 0.0
    requires 2 * n == sp.N && 2 * m == sp.N
    ensures Phillips(lib, sp, n, m) == 0.0
  {
    WaveVectorZeroIff(sp, n, m);
    assert Dot2(WaveVector(sp, n, m), WaveVector(sp, n, m)) == 0.0;
  }

  /** The density is linear in the amplitude parameter A. */
  lemma DensityLinearInA(lib: Libm, A: real, A': real, c: real, wind: Vec2, k: Vec2)
    requires Length2(lib, wind) != 0.0
    requires A' == c * A
    ensures Density(lib, A', wind, k) == c * Density(lib, A, wind, k)
  {
    if Length2(lib, k) >= MinWaveLength {
      var kLength := Length2(lib, k);
      ProductScales(A, c, LargeWaveFactor(lib, wind, kLength), Alignment(lib, wind, k), SmallWaveDamping(lib, wind, kLength));
    }
  }

  lemma ProductScales(a: real, c: real, x1: real, x2: real, x3: real)
    ensures (c * a) * x1 * x2 * x3 == c * (a * x1 * x2 * x3)
  {
  }

  /** Scaling A by c scales every `phillips` value by c (doubling A doubles it). */
  lemma PhillipsLinearInA(lib: Libm, sp: Spectrum, c: real, n: int, m: int)
    requires sp.length > 0.0
    requires Length2(lib, sp.wind) != 0.0
    ensures Phillips(lib, sp.(A := c * sp.A), n, m) == c * Phillips(lib, sp, n, m)
  {
    assert WaveVector(sp.(A := c * sp.A), n, m) == WaveVector(sp, n, m);
    DensityLinearInA(lib, sp.A, c * sp.A, c, sp.wind, WaveVector(sp, n, m));
  }

  /** The density depends on k only through |k| and (k.w)^2, so -k has the
      same density as k. */
  lemma DensityEven(lib: Libm, A: real, wind: Vec2, k: Vec2)
    requires Length2(lib, wind) != 0.0
    ensures Density(lib, A, wind, Neg2(k)) == Density(lib, A, wind, k)
  {
    assert Dot2(Neg2(k), Neg2(k)) == Dot2(k, k);
    assert Length2(lib, Neg2(k)) == Length2(lib, k);
    if Length2(lib, k) >= MinWaveLength {
      assert Normalize2(lib, Neg2(k)) == Neg2(Normalize2(lib, k));
      assert Dot2(Normalize2(lib, Neg2(k)), Normalize2(lib, wind)) == -Dot2(Normalize2(lib, k), Normalize2(lib, wind));
      assert Alignment(lib, wind, Neg2(k)) == Alignment(lib, wind, k);
    }
  }

  /** The mirror point (N - n, N - m), whose wave vector is -k, has the same
      spectral density as (n, m). */
  lemma PhillipsMirror(lib: Libm, sp: Spectrum, n: int, m: int)
    requires sp.length > 0.0
    requires Length2(lib, sp.wind) != 0.0
    ensures Phillips(lib, sp, sp.N - n, sp.N - m) == Phillips(lib, sp, n, m)
  {
    WaveVectorMirror(sp, n, m);
    DensityEven(lib, sp.A, sp.wind, WaveVector(sp, n, m));
  }

  // ---------------------------------------------------------------------------
  // Amplitudes

  /** `hTilde_0(n, m)`: the Gaussian draw `draw` scaled by sqrt(phillips / 2). */
  function HTilde0(lib: Libm, sp: Spectrum, draw: Complex, n: int, m: int): Complex
    requires sp.length > 0.0
    requires Length2(lib, sp.wind) != 0.0
  {
    CScale(lib.sqrt(Phillips(lib, sp, n, m) / 2.0), draw)
  }

  /** e^{i omega(n, m) t}, the phase of the wave at (n, m) after t seconds. */
  function Phase(lib: Libm, sp: Spectrum, t: real, n: int, m: int): Complex
    requires sp.length > 0.0
  {
    var omegaT := Dispersion(lib, sp, n, m) * t;
    Complex(lib.cos(omegaT), lib.sin(omegaT))
  }

  /** `hTilde(t, n, m)`: equation 43, with `draw` the draw of the call at
      (n, m) and `drawNeg` the fresh draw of the call at (-n, -m). */
  function HTilde(lib: Libm, sp: Spectrum, t: real, draw: Complex, drawNeg: Complex, n: int, m: int): Complex
    requires sp.length > 0.0
    requires Length2(lib, sp.wind) != 0.0
  {
    var h0 := HTilde0(lib, sp, draw, n, m);
    var h0mkConj := Conj(HTilde0(lib, sp, drawNeg, -n, -m));
    var c0 := Phase(lib, sp, t, n, m);
    var c1 := Complex(c0.re, -c0.im);
    CAdd(CMul(h0, c0), CMul(h0mkConj, c1))
  }

  /** The second factor is the conjugate of the first, so hTilde is
      h0 e^{iwt} + conj(h0' e^{iwt}), where h0' is the amplitude drawn at (-n, -m). */
  lemma HTildeConjugatePair(lib: Libm, sp: Spectrum, t: real, draw: Complex, drawNeg: Complex, n: int, m: int)
    requires sp.length > 0.0
    requires Length2(lib, sp.wind) != 0.0
    ensures HTilde(lib, sp, t, draw, drawNeg, n, m)
              == CAdd(CMul(HTilde0(lib, sp, draw, n, m), Phase(lib, sp, t, n, m)),
                      Conj(CMul(HTilde0(lib, sp, drawNeg, -n, -m), Phase(lib, sp, t, n, m))))
  {
    var e := Phase(lib, sp, t, n, m);
    ConjMul(HTilde0(lib, sp, drawNeg, -n, -m), e);
    assert Complex(e.re, -e.im) == Conj(e);
  }

  /** When both terms carry the same amplitude, hTilde is real: twice the real
      part of h0 e^{iwt}. */
  lemma HTildeRealWhenPaired(lib: Libm, sp: Spectrum, t: real, draw: Complex, drawNeg: Complex, n: int, m: int)
    requires sp.length > 0.0
    requires Length2(lib, sp.wind) != 0.0
    requires HTilde0(lib, sp, drawNeg, -n, -m) == HTilde0(lib, sp, draw, n, m)
    ensures HTilde(lib, sp, t, draw, drawNeg, n, m).im == 0.0
    ensures HTilde(lib, sp, t, draw, drawNeg, n, m).re
              == 2.0 * CMul(HTilde0(lib, sp, draw, n, m), Phase(lib, sp, t, n, m)).re
  {
    HTildeConjugatePair(lib, sp, t, draw, drawNeg, n, m);
  }

  /** The amplitude the fill loop stores for (n, m), with the two draws of
      its `hTilde` call. */
  function AmplitudeAt(lib: Libm, sp: Spectrum, t: real, draws: (int, int) -> (Complex, Complex), n: int, m: int): Complex
    requires sp.length > 0.0
    requires Length2(lib, sp.wind) != 0.0
  {
    HTilde(lib, sp, t, draws(n, m).0, draws(n, m).1, n, m)
  }

  /** The N x N values of `amp`, lattice point (n, m) at m N + n. */
  function Grid(N: nat, amp: (int, int) -> Complex): (s: seq<Complex>)
    ensures |s| == N * N
  {
    seq(N * N, k requires 0 <= k < N * N => RowMajorOnto(N, N, k); amp(k % N, k / N))
  }

  /** Lattice point (n, m) is stored at m N + n, inside the buffer; since
      `RowMajor` is injective, no two points share a slot. */
  lemma GridAt(N: nat, amp: (int, int) -> Complex, n: nat, m: nat)
    requires n < N && m < N
    ensures m * N + n < N * N
    ensures Grid(N, amp)[m * N + n] == amp(n, m)
  {
    assert m * N + n == RowMajor(N, n, m);
    RowMajorBound(N, N, n, m);
  }

  // ---------------------------------------------------------------------------
  // Checkerboard sign and tiling

  /** `signs[(n + m) & 1]`: +1 on even n + m, -1 on odd. */
  function Sign(n: nat, m: nat): int
  {
    if (n + m) % 2 == 0 then 1 else -1
  }

  /** (-1)^k */
  function NegOnePow(k: nat): int
  {
    if k == 0 then 1 else -NegOnePow(k - 1)
  }

  /** The sign table implements the factor (-1)^(n + m). */
  lemma {:induction false} SignIsPower(k: nat, n: nat, m: nat)
    requires n + m == k
    ensures Sign(n, m) == NegOnePow(k)
  {
    if k > 0 {
      if n > 0 {
        SignIsPower(k - 1, n - 1, m);
      } else {
        SignIsPower(k - 1, n, m - 1);
      }
    }
  }

  /** The vertex column (or row) `c` of the (N+1)-wide vertex array takes its
      height from lattice column (or row) `Wrap(N, c)`: the extra column N
      repeats column 0. */
  function Wrap(N: nat, c: nat): (r: nat)
    requires c <= N
    ensures N > 0 ==> r < N
  {
    if c == N then 0 else c
  }

  /** Lattice point (nn, mm) comes before (n, m) in the m-outer, n-inner
      order of both loops of `evaluateWavesFFT`. */
  predicate Before(nn: int, mm: int, n: int, m: int)
  {
    mm < m || (mm == m && nn < n)
  }

  /** The transformed buffer times the checkerboard sign of each lattice point. */
  function Signed(N: nat, F: seq<Complex>): (r: seq<Complex>)
    requires N > 0 && |F| == N * N
    ensures |r| == |F|
  {
    seq(|F|, k requires 0 <= k < |F| => CScale(Sign(k % N, k / N) as real, F[k]))
  }

  /** The buffer once the sign loop has visited every point before (n, m). */
  function SignPrefix(N: nat, F: seq<Complex>, n: int, m: int): (r: seq<Complex>)
    requires N > 0 && |F| == N * N
    ensures |r| == |F|
  {
    seq(|F|, k requires 0 <= k < |F| =>
      if Before(k % N, k / N, n, m) then CScale(Sign(k % N, k / N) as real, F[k]) else F[k])
  }

  /** The height the scatter pass writes for lattice point (n, m): the real part
      of the sign-corrected transformed amplitude. */
  function SignedHeight(N: nat, F: seq<Complex>, n: nat, m: nat): real
    requires n < N && m < N && |F| == N * N
  {
    RowMajorBound(N, N, n, m);
    Signed(N, F)[RowMajor(N, n, m)].re
  }

  /** The vertex array after the scatter pass: every vertex keeps x, z and w,
      and its height is that of the lattice point it repeats. */
  function Scattered(N: nat, P: seq<Vec4>, F: seq<Complex>): (r: seq<Vec4>)
    requires N > 0 && |P| == (N + 1) * (N + 1) && |F| == N * N
    ensures |r| == |P|
  {
    seq(|P|, v requires 0 <= v < |P| =>
      RowMajorOnto(N + 1, N + 1, v);
      P[v].(y := SignedHeight(N, F, Wrap(N, v % (N + 1)), Wrap(N, v / (N + 1)))))
  }

  /** The vertex array once the scatter loop has visited every point before (n, m). */
  function ScatterPrefix(N: nat, P: seq<Vec4>, F: seq<Complex>, n: int, m: int): (r: seq<Vec4>)
    requires N > 0 && |P| == (N + 1) * (N + 1) && |F| == N * N
    ensures |r| == |P|
  {
    seq(|P|, v requires 0 <= v < |P| =>
      RowMajorOnto(N + 1, N + 1, v);
      var c := Wrap(N, v % (N + 1));
      var r := Wrap(N, v / (N + 1));
      if Before(c, r, n, m) then P[v].(y := SignedHeight(N, F, c, r)) else P[v])
  }

  /** Set the height of vertex `i` to `h`. */
  function SetHeight(S: seq<Vec4>, i: nat, h: real): seq<Vec4>
    requires i < |S|
  {
    S[i := S[i].(y := h)]
  }

  /** The writes of one iteration (n, m) of the scatter loop: vertex (n, m),
      then for (0, 0) the corner (N, N), for column 0 the repeating vertex
      (N, m), and for row 0 the repeating vertex (n, N). */
  function TileWrites(N: nat, S: seq<Vec4>, n: nat, m: nat, h: real): (r: seq<Vec4>)
    requires n < N && m < N && |S| == (N + 1) * (N + 1)
    ensures |r| == |S|
  {
    RowMajorBound(N + 1, N + 1, n, m);
    RowMajorBound(N + 1, N + 1, N, N);
    RowMajorBound(N + 1, N + 1, N, m);
    RowMajorBound(N + 1, N + 1, n, N);
    var S1 := SetHeight(S, RowMajor(N + 1, n, m), h);
    var S2 := if n == 0 && m == 0 then SetHeight(S1, RowMajor(N + 1, N, N), h) else S1;
    var S3 := if n == 0 then SetHeight(S2, RowMajor(N + 1, N, m), h) else S2;
    if m == 0 then SetHeight(S3, RowMajor(N + 1, n, N), h) else S3
  }

  /** The height of vertex (c, r) of an (N + 1) x (N + 1) vertex array. */
  function VertexHeight(N: nat, P: seq<Vec4>, c: nat, r: nat): real
    requires c <= N && r <= N && |P| == (N + 1) * (N + 1)
  {
    RowMajorBound(N + 1, N + 1, c, r);
    P[RowMajor(N + 1, c, r)].y
  }

  /** Row N repeats row 0, column N repeats column 0, and the corner repeats (0, 0). */
  ghost predicate Tiles(N: nat, P: seq<Vec4>)
    requires |P| == (N + 1) * (N + 1)
  {
    && (forall m | 0 <= m < N :: VertexHeight(N, P, N, m) == VertexHeight(N, P, 0, m))
    && (forall n | 0 <= n < N :: VertexHeight(N, P, n, N) == VertexHeight(N, P, n, 0))
    && VertexHeight(N, P, N, N) == VertexHeight(N, P, 0, 0)
  }

  /** The scattered vertex array tiles seamlessly. */
  lemma ScatteredTiles(N: nat, P: seq<Vec4>, F: seq<Complex>)
    requires N > 0 && |P| == (N + 1) * (N + 1) && |F| == N * N
    ensures Tiles(N, Scattered(N, P, F))
  {
    var S := Scattered(N, P, F);
    forall m | 0 <= m < N
      ensures VertexHeight(N, S, N, m) == VertexHeight(N, S, 0, m)
    {
      RowMajorBound(N + 1, N + 1, N, m);
      RowMajorBound(N + 1, N + 1, 0, m);
    }
    forall n | 0 <= n < N
      ensures VertexHeight(N, S, n, N) == VertexHeight(N, S, n, 0)
    {
      RowMajorBound(N + 1, N + 1, n, N);
      RowMajorBound(N + 1, N + 1, n, 0);
    }
    RowMajorBound(N + 1, N + 1, N, N);
    RowMajorBound(N + 1, N + 1, 0, 0);
  }

  /** Scattering changes only the y component of each vertex. */
  lemma ScatteredOnlyHeights(N: nat, P: seq<Vec4>, F: seq<Complex>, v: nat)
    requires N > 0 && |P| == (N + 1) * (N + 1) && |F| == N * N && v < |P|
    ensures Scattered(N, P, F)[v].x == P[v].x && Scattered(N, P, F)[v].z == P[v].z
    ensures Scattered(N, P, F)[v].w == P[v].w
  {
  }

  /** The vertex of the interior lattice point (n, m) holds that point's height. */
  lemma ScatteredInterior(N: nat, P: seq<Vec4>, F: seq<Complex>, n: nat, m: nat)
    requires N > 0 && |P| == (N + 1) * (N + 1) && |F| == N * N && n < N && m < N
    ensures RowMajor(N + 1, n, m) < |P|
    ensures Scattered(N, P, F)[RowMajor(N + 1, n, m)].y == SignedHeight(N, F, n, m)
  {
    RowMajorBound(N + 1, N + 1, n, m);
  }

  /** The largest vertex index written, the corner (N, N) at N + (N + 1) N,
      is the last slot of the (N + 1)^2 array. */
  lemma CornerIsLastVertex(N: nat)
    ensures RowMajor(N + 1, N, N) == N + (N + 1) * N == (N + 1) * (N + 1) - 1
  {
  }

  // ---- loop bookkeeping ----

  lemma SignPrefixStart(N: nat, F: seq<Complex>)
    requires N > 0 && |F| == N * N
    ensures SignPrefix(N, F, 0, 0) == F
  {
  }

  lemma SignPrefixDone(N: nat, F: seq<Complex>)
    requires N > 0 && |F| == N * N
    ensures SignPrefix(N, F, 0, N) == Signed(N, F)
  {
    forall k | 0 <= k < |F|
      ensures Before(k % N, k / N, 0, N)
    {
      RowMajorOnto(N, N, k);
    }
  }

  /** Finishing row m is starting row m + 1. */
  lemma SignPrefixRow(N: nat, F: seq<Complex>, m: int)
    requires N > 0 && |F| == N * N
    ensures SignPrefix(N, F, N, m) == SignPrefix(N, F, 0, m + 1)
  {
  }

  /** Iteration (n, m) of the sign loop multiplies exactly slot m N + n by its sign. */
  lemma SignPrefixStep(N: nat, F: seq<Complex>, n: nat, m: nat)
    requires N > 0 && |F| == N * N && n < N && m < N
    ensures RowMajor(N, n, m) < |F|
    ensures SignPrefix(N, F, n + 1, m)
              == SignPrefix(N, F, n, m)[RowMajor(N, n, m) := CScale(Sign(n, m) as real, SignPrefix(N, F, n, m)[RowMajor(N, n, m)])]
  {
    RowMajorBound(N, N, n, m);
    var i := RowMajor(N, n, m);
    forall k | 0 <= k < |F| && k != i
      ensures Before(k % N, k / N, n + 1, m) == Before(k % N, k / N, n, m)
    {
      RowMajorOnto(N, N, k);
    }
  }

  lemma ScatterPrefixStart(N: nat, P: seq<Vec4>, F: seq<Complex>)
    requires N > 0 && |P| == (N + 1) * (N + 1) && |F| == N * N
    ensures ScatterPrefix(N, P, F, 0, 0) == P
  {
  }

  lemma ScatterPrefixDone(N: nat, P: seq<Vec4>, F: seq<Complex>)
    requires N > 0 && |P| == (N + 1) * (N + 1) && |F| == N * N
    ensures ScatterPrefix(N, P, F, 0, N) == Scattered(N, P, F)
  {
  }

  lemma ScatterPrefixRow(N: nat, P: seq<Vec4>, F: seq<Complex>, m: int)
    requires N > 0 && |P| == (N + 1) * (N + 1) && |F| == N * N
    ensures ScatterPrefix(N, P, F, N, m) == ScatterPrefix(N, P, F, 0, m + 1)
  {
  }

  /** Iteration (n, m) of the scatter loop gives its height to exactly the
      vertices that repeat lattice point (n, m). */
  lemma ScatterPrefixStep(N: nat, P: seq<Vec4>, F: seq<Complex>, n: nat, m: nat)
    requires N > 0 && |P| == (N + 1) * (N + 1) && |F| == N * N && n < N && m < N
    ensures ScatterPrefix(N, P, F, n + 1, m)
              == TileWrites(N, ScatterPrefix(N, P, F, n, m), n, m, SignedHeight(N, F, n, m))
  {
    var S := ScatterPrefix(N, P, F, n, m);
    var S' := ScatterPrefix(N, P, F, n + 1, m);
    var W := TileWrites(N, S, n, m, SignedHeight(N, F, n, m));
    forall v | 0 <= v < |P|
      ensures S'[v] == W[v]
    {
      RowMajorOnto(N + 1, N + 1, v);
      WriteAt(N, S, n, m, SignedHeight(N, F, n, m), v);
    }
  }

  /** Which slots TileWrites changes: vertex v gets height h exactly when it
      repeats lattice point (n, m). */
  lemma WriteAt(N: nat, S: seq<Vec4>, n: nat, m: nat, h: real, v: nat)
    requires n < N && m < N && |S| == (N + 1) * (N + 1) && v < |S|
    ensures v / (N + 1) <= N
    ensures TileWrites(N, S, n, m, h)[v]
              == if Wrap(N, v % (N + 1)) == n && Wrap(N, v / (N + 1)) == m then S[v].(y := h) else S[v]
  {
    RowMajorOnto(N + 1, N + 1, v);
    RowMajorBound(N + 1, N + 1, n, m);
    RowMajorBound(N + 1, N + 1, N, N);
    RowMajorBound(N + 1, N + 1, N, m);
    RowMajorBound(N + 1, N + 1, n, N);
  }

  // ---------------------------------------------------------------------------
  // The Ocean object

  class Ocean {
    /** `_N`, `_A`, `_w`, `_length` */
    const sp: Spectrum
    /** `_Nplus1` */
    const nPlus1: nat
    /** `_hTilde`: the N x N FFT buffer */
    const hTilde: array<Complex>
    /** `_pos`: the (N + 1) x (N + 1) vertex array */
    const pos: array<Vec4>

    ghost predicate Valid()
    {
      sp.N > 0 && sp.length > 0.0 && nPlus1 == sp.N + 1 &&
      hTilde.Length == sp.N * sp.N && pos.Length == nPlus1 * nPlus1
    }

    /** `Ocean(N, A, w, length)`: `_Nplus1 = N + 1` and `_pos` holds (N + 1)^2
        zero vertices. The FFT buffer's initial contents are undefined in the
        source; here they are zero. */
    constructor (N: nat, A: real, w: Vec2, length: real)
      requires N > 0 && length > 0.0
      ensures Valid()
      ensures sp == Spectrum(N, A, w, length) && nPlus1 == N + 1
      ensures pos.Length == (N + 1) * (N + 1)
      ensures forall v | 0 <= v < pos.Length :: pos[v] == Vec4(0.0, 0.0, 0.0, 0.0)
      ensures fresh(hTilde) && fresh(pos)
    {
      sp := Spectrum(N, A, w, length);
      nPlus1 := N + 1;
      pos := new Vec4[(N + 1) * (N + 1)](_ => Vec4(0.0, 0.0, 0.0, 0.0));
      hTilde := new Complex[N * N](_ => Complex(0.0, 0.0));
    }

    /** `getVertices()` */
    function Vertices(): seq<Vec4>
      reads pos
    {
      pos[..]
    }

    /** The N x N amplitudes of the fill loop, row m at offset m N. */
    function Amplitudes(lib: Libm, t: real, draws: (int, int) -> (Complex, Complex)): (s: seq<Complex>)
      requires Valid()
      requires Length2(lib, sp.wind) != 0.0
      ensures |s| == sp.N * sp.N
    {
      seq(sp.N * sp.N, k requires 0 <= k < sp.N * sp.N => AmplitudeAt(lib, sp, t, draws, k % sp.N, k / sp.N))
    }

    /** The first loop of `evaluateWavesFFT`: m outer, n inner, a running
        index; the value `amp(n, m)` of `hTilde(t, n, m)` lands at m N + n. */
    method FillAmplitudes(amp: (int, int) -> Complex)
      requires Valid()
      modifies hTilde
      ensures hTilde[..] == Grid(sp.N, amp)
    {
      var N := sp.N;
      var index := 0;
      var m := 0;
      while m < N
        invariant 0 <= m <= N
        invariant index == m * N <= N * N
        invariant hTilde[..index] == Grid(N, amp)[..index]
      {
        var n := 0;
        while n < N
          invariant 0 <= n <= N
          invariant index == m * N + n <= N * N
          invariant hTilde[..index] == Grid(N, amp)[..index]
        {
          assert index == RowMajor(N, n, m);
          RowMajorBound(N, N, n, m);
          hTilde[index] := amp(n, m);
          assert hTilde[..index + 1] == Grid(N, amp)[..index + 1];
          n := n + 1;
          index := index + 1;
        }
        MulMono(N, m + 1, N);
        m := m + 1;
      }
      assert hTilde[..] == hTilde[..index];
    }

    /** Filling with the ocean's own amplitude function gives `Amplitudes`. */
    lemma GridIsAmplitudes(lib: Libm, t: real, draws: (int, int) -> (Complex, Complex), amp: (int, int) -> Complex)
      requires Valid()
      requires Length2(lib, sp.wind) != 0.0
      requires forall n, m :: amp(n, m) == AmplitudeAt(lib, sp, t, draws, n, m)
      ensures Grid(sp.N, amp) == Amplitudes(lib, t, draws)
    {
    }

    /** The second loop of `evaluateWavesFFT`: multiply each transformed value
        by its checkerboard sign, then write its real part as the height of
        vertex (n, m), and, for column 0, row 0 and (0, 0), also of the
        repeating corner, column N and row N. */
    method SignAndScatter()
      requires Valid()
      modifies hTilde, pos
      ensures hTilde[..] == Signed(sp.N, old(hTilde[..]))
      ensures pos[..] == Scattered(sp.N, old(pos[..]), old(hTilde[..]))
    {
      var N := sp.N;
      ghost var F := hTilde[..];
      ghost var P := pos[..];
      SignPrefixStart(N, F);
      ScatterPrefixStart(N, P, F);
      var m := 0;
      while m < N
        invariant 0 <= m <= N
        invariant hTilde[..] == SignPrefix(N, F, 0, m)
        invariant pos[..] == ScatterPrefix(N, P, F, 0, m)
      {
        var n := 0;
        while n < N
          invariant 0 <= n <= N
          invariant hTilde[..] == SignPrefix(N, F, n, m)
          invariant pos[..] == ScatterPrefix(N, P, F, n, m)
        {
          ScatterStep(n, m, F, P);
          n := n + 1;
        }
        SignPrefixRow(N, F, m);
        ScatterPrefixRow(N, P, F, m);
        m := m + 1;
      }
      SignPrefixDone(N, F);
      ScatterPrefixDone(N, P, F);
    }

    /** One iteration (n, m) of the sign-and-scatter loop. */
    method ScatterStep(n: nat, m: nat, ghost F: seq<Complex>, ghost P: seq<Vec4>)
      requires Valid() && n < sp.N && m < sp.N
      requires |F| == sp.N * sp.N && |P| == nPlus1 * nPlus1
      requires hTilde[..] == SignPrefix(sp.N, F, n, m)
      requires pos[..] == ScatterPrefix(sp.N, P, F, n, m)
      modifies hTilde, pos
      ensures hTilde[..] == SignPrefix(sp.N, F, n + 1, m)
      ensures pos[..] == ScatterPrefix(sp.N, P, F, n + 1, m)
    {
      var N := sp.N;
      var index := m * N + n;
      var index1 := m * nPlus1 + n;
      assert index == RowMajor(N, n, m);
      assert index1 == RowMajor(nPlus1, n, m);
      RowMajorBound(N, N, n, m);
      RowMajorBound(nPlus1, nPlus1, n, m);
      SignPrefixStep(N, F, n, m);
      ScatterPrefixStep(N, P, F, n, m);
      var sign := Sign(n, m);
      hTilde[index] := CScale(sign as real, hTilde[index]);
      var h := hTilde[index].re;
      assert h == SignedHeight(N, F, n, m);
      ghost var S := pos[..];
      WriteHeight(index1, h);
      ghost var S1 := SetHeight(S, index1, h);
      if n == 0 && m == 0 {
        assert index1 + N + nPlus1 * N == RowMajor(nPlus1, N, N);
        RowMajorBound(nPlus1, nPlus1, N, N);
        WriteHeight(index1 + N + nPlus1 * N, h);
      }
      ghost var S2 := if n == 0 && m == 0 then SetHeight(S1, RowMajor(nPlus1, N, N), h) else S1;
      assert pos[..] == S2;
      if n == 0 {
        assert index1 + N == RowMajor(nPlus1, N, m);
        RowMajorBound(nPlus1, nPlus1, N, m);
        WriteHeight(index1 + N, h);
      }
      ghost var S3 := if n == 0 then SetHeight(S2, RowMajor(nPlus1, N, m), h) else S2;
      assert pos[..] == S3;
      if m == 0 {
        assert index1 + nPlus1 * N == RowMajor(nPlus1, n, N);
        RowMajorBound(nPlus1, nPlus1, n, N);
        WriteHeight(index1 + nPlus1 * N, h);
      }
    }

    /** `_pos[i].y = h`: one vertex's height, nothing else. */
    method WriteHeight(i: nat, h: real)
      requires i < pos.Length
      modifies pos
      ensures pos[..] == SetHeight(old(pos[..]), i, h)
    {
      pos[i] := pos[i].(y := h);
    }

    /** `evaluateWavesFFT(t)`: fill the buffer with the amplitudes at time t,
        transform it in place (`fftw_execute`, here the parameter `fft`),
        apply the checkerboard sign, and write the heights into the vertex
        array so that it tiles. Only the y components change. */
    method EvaluateWavesFFT(lib: Libm, t: real, draws: (int, int) -> (Complex, Complex),
                            fft: seq<Complex> -> seq<Complex>)
      requires Valid()
      requires Length2(lib, sp.wind) != 0.0
      requires forall s: seq<Complex> :: |s| == sp.N * sp.N ==> |fft(s)| == |s|
      modifies hTilde, pos
      ensures hTilde[..] == Signed(sp.N, fft(Amplitudes(lib, t, draws)))
      ensures pos[..] == Scattered(sp.N, old(pos[..]), fft(Amplitudes(lib, t, draws)))
      ensures Tiles(sp.N, pos[..])
    {
      var amp := (n: int, m: int) => AmplitudeAt(lib, sp, t, draws, n, m);
      FillAmplitudes(amp);
      GridIsAmplitudes(lib, t, draws, amp);
      var transformed := fft(hTilde[..]);
      forall k | 0 <= k < hTilde.Length {
        hTilde[k] := transformed[k];
      }
      assert hTilde[..] == transformed;
      ghost var P := pos[..];
      SignAndScatter();
      ScatteredTiles(sp.N, P, transformed);
    }
  }
}
