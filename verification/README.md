# Lattice and buffer bookkeeping of the wave and particle simulations

This project models, in Dafny, the CPU-side core of two simulations in the
`simulation` repository:

- **The ocean height field** (`lb_waves/ocean.cpp`, module `OceanModel`).
  This is a Tessendorf-style generator. `phillips` computes the spectral
  density of a wave vector and returns exactly zero below |k| = 1e-6.
  `dispersion` rounds the deep-water frequency down to a whole multiple of
  w0 = 2 pi / 200. `hTilde` combines two amplitude draws with a phase.
  `evaluateWavesFFT` runs three steps:
  - It fills an N x N complex buffer, m outer and n inner.
  - It transforms the buffer in place.
  - It multiplies each value by the checkerboard sign (-1)^(n+m) and
    scatters the real parts into the y component of an (N+1) x (N+1) vertex
    array. Row N, column N and the corner repeat row 0, column 0 and (0, 0),
    so the patch tiles.
- **The lattice-Boltzmann wave automaton** (`lb_waves/ca_model_glsl.cpp`,
  module `CAModel`). The `initialState*` methods clear three parallel cell
  arrays (position, two mass-flow vectors). They then append one cell per
  lattice point, y outer and x inner, while a running position advances by
  one lattice step per cell. Each cell's height comes from four Gaussian
  bumps, the ocean's vertex array, or both. It is split evenly over five
  mass-flow components, and the update shader sums those back into the
  height. `update` flips the `_src` / `_dst` double-buffer indices with
  `^= 1`.
- **The automaton's triangle mesh** (`lb_waves/ca_view_glsl.cpp`, module
  `CAView`). The constructor builds two things:
  - a texel-centred texture-coordinate grid, one entry per cell;
  - an index list with two triangles (six indices) per lattice quad.
- **The "Singularity" particle system**
  (`ios6/Singularity/ParticleSystemModel.cpp`, module `Particles`).
  Particles fall towards a point mass. Each update advances every live
  particle by one classical fourth-order Runge-Kutta step. A particle that
  ends up farther than 100 from the origin is put back to its recorded
  initial state.

Two small modules support these: `Numerics` (vectors, complex numbers, and
the math-library oracle) and `Lattice` (row-major flat indices).

Floating point is modelled as exact reals. The math library (sqrt, exp, sin
and cos) is an oracle datatype `Libm`, and glm's length and normalize are
defined from its sqrt as glm defines them. Three more things enter the
model as parameters:
- the FFT, as an uninterpreted length-preserving transform;
- the Gaussian random draws of `hTilde`, as a function `draws` of the
  lattice point;
- the random launch velocity of each particle, as a function `velocity` of
  the particle index.

The GL texture names of the two position buffers are a constructor
parameter.

Stateful code stays stateful:
- `Ocean` holds its FFT buffer and vertex array as Dafny arrays.
- `CAViewGLSL` holds its coordinate array as an array and its index list as
  a sequence that the loops append to.
- `CAModelGLSL` and `ParticleSystemModel` hold their `std::vector`s as
  sequence fields.

Each loop is a method proved against a specification function of the
inputs and the old state: `Grid`, `Signed`, `Scattered`, `TexGrid`, `Mesh`,
`Layout` and `Step`. Lemmas state the properties of those functions.

Observations the proofs make precise:

- The automaton reads the ocean's vertices with row stride `size.x`. The
  ocean stores rows of N + 1 = `size.x` + 1 vertices. On a square lattice
  every read is in bounds, but cell (x, y) reads ocean vertex (x - y, y)
  when y <= x and (N + 1 + x - y, y - 1) otherwise. The height field is
  therefore sheared; only row 0 reads its own vertex
  (`CAModel.CellReadsShearedVertex`, `CAModel.PhillipsCellHeight`).
- The coordinate grid writes cell (i, j) at `i * size.x + j` with the
  bounds-checked `at`. The triangulation uses row stride `size.y`. Both are
  consistent only on a square lattice:
  - on a wider lattice, the last coordinate write falls past the array and
    throws (`CAView.WideLatticeOutOfRange`);
  - on a taller one, the mesh emits an index past the last cell
    (`CAView.TallMeshOutOfRange`), and cells (0, size.x) and (1, 0) write
    the same slot.
- `hTilde` passes the literally negated indices (-n, -m) to its second
  `hTilde_0` call. Their wave vector is -k shifted by 2 pi N / L in each
  component, not -k (`OceanModel.NegatedIndexWaveVector`). The model keeps
  the source's indices.
- The code applies the checkerboard sign after the FFT, in the same loop
  as the scatter. This model follows that order.

## Model

| member | source | states |
|---|---|---|
| OceanModel.WaveVector | lb_waves/ocean.cpp:114-116 | the wave vector (pi (2n - N) / L, pi (2m - N) / L); characterised by `WaveVectorZeroIff`, `WaveVectorMirror` and `NegatedIndexWaveVector` |
| OceanModel.WaveVectorZeroIff | lb_waves/ocean.cpp:114-116 | the wave vector of (n, m) is zero if and only if 2n = N and 2m = N |
| OceanModel.WaveVectorMirror | lb_waves/ocean.cpp:114-116 | lattice point (N - n, N - m) has wave vector -k |
| OceanModel.NegatedIndexWaveVector | lb_waves/ocean.cpp:172-173 | the indices (-n, -m) give -k minus 2 pi N / L in each component, which equals -k only when N = 0 |
| OceanModel.Quantise | lb_waves/ocean.cpp:105 | the result is a whole multiple of w0, at most the input, and more than the input minus w0 |
| OceanModel.QuantiseIdempotent | lb_waves/ocean.cpp:105 | quantising an already quantised frequency leaves it unchanged |
| OceanModel.QuantiseMonotone | lb_waves/ocean.cpp:105 | quantisation preserves the order of frequencies |
| OceanModel.Dispersion | lb_waves/ocean.cpp:87-106 | `dispersion` is a whole multiple of w0 within one quantum below the deep-water frequency of equation 33 |
| OceanModel.DivisorsPositive | lb_waves/ocean.cpp:128-145 | the divisors (k L)^2 and k^4 of the spectrum are positive for non-zero k and wind |
| OceanModel.Density | lb_waves/ocean.cpp:119-145 | the spectrum is exactly zero whenever \|k\| < 1e-6 |
| OceanModel.Phillips | lb_waves/ocean.cpp:111-146 | `phillips(n, m)` is zero whenever the wave number of (n, m) is below 1e-6 |
| OceanModel.PhillipsZeroAtCentre | lb_waves/ocean.cpp:114-125 | at 2n = N, 2m = N, the wave vector is zero and `phillips` returns 0 |
| OceanModel.DensityLinearInA | lb_waves/ocean.cpp:145 | the density scales linearly with the amplitude A |
| OceanModel.PhillipsLinearInA | lb_waves/ocean.cpp:145 | scaling `_A` by c scales every `phillips` value by c |
| OceanModel.DensityEven | lb_waves/ocean.cpp:119-145 | the density of -k equals that of k |
| OceanModel.PhillipsMirror | lb_waves/ocean.cpp:111-146 | `phillips(N - n, N - m) == phillips(n, m)` |
| OceanModel.HTilde0 | lb_waves/ocean.cpp:154-158 | `hTilde_0`: the draw scaled by sqrt(phillips / 2); `HTildeRealWhenPaired` relates the two draws of `hTilde` through it |
| OceanModel.HTilde | lb_waves/ocean.cpp:169-185 | equation 43 with the source's (-n, -m) draw; characterised by `HTildeConjugatePair` and `HTildeRealWhenPaired` |
| OceanModel.HTildeConjugatePair | lb_waves/ocean.cpp:169-185 | `hTilde` = h0 e^{iwt} + conj(h0' e^{iwt}), where h0' is the amplitude drawn at (-n, -m) |
| OceanModel.HTildeRealWhenPaired | lb_waves/ocean.cpp:169-185 | when both draws give the same amplitude, `hTilde` is real and equals 2 Re(h0 e^{iwt}) |
| OceanModel.GridAt | lb_waves/ocean.cpp:193-200 | the fill value for (n, m) is at m N + n, inside the N^2 buffer |
| OceanModel.SignIsPower | lb_waves/ocean.cpp:207-216 | `signs[(n + m) & 1]` is (-1)^(n + m) |
| OceanModel.Wrap | lb_waves/ocean.cpp:224-235 | the repeating column/row N takes its height from lattice column/row 0, and every other column/row from itself |
| OceanModel.Signed | lb_waves/ocean.cpp:209-218 | the sign pass keeps the buffer's N^2 length |
| OceanModel.Scattered | lb_waves/ocean.cpp:209-237 | the scatter pass keeps the (N + 1)^2 length of the vertex array |
| OceanModel.SignPrefixStep | lb_waves/ocean.cpp:213-218 | iteration (n, m) multiplies exactly slot m N + n by its sign |
| OceanModel.ScatterPrefixStep | lb_waves/ocean.cpp:214-235 | iteration (n, m) writes its height to exactly the vertices that repeat (n, m) |
| OceanModel.WriteAt | lb_waves/ocean.cpp:221-235 | vertex v is changed by iteration (n, m) exactly when it repeats lattice point (n, m), and then only in y |
| OceanModel.ScatteredTiles | lb_waves/ocean.cpp:224-235 | after the scatter, column N repeats column 0, row N repeats row 0 and the corner repeats (0, 0) |
| OceanModel.ScatteredOnlyHeights | lb_waves/ocean.cpp:221-234 | x, z and w of every vertex are unchanged |
| OceanModel.ScatteredInterior | lb_waves/ocean.cpp:213-221 | interior vertex (n, m) at m (N + 1) + n is in bounds and holds the real part of the signed transformed value of (n, m) |
| OceanModel.CornerIsLastVertex | lb_waves/ocean.cpp:226 | the largest index written, N + (N + 1) N, is (N + 1)^2 - 1 |
| OceanModel.Ocean.constructor | lb_waves/ocean.cpp:58-72 | `_Nplus1` is N + 1, `_pos` has exactly (N + 1)^2 vertices, and the FFT buffer has N^2 entries |
| OceanModel.Ocean.Vertices | lb_waves/ocean.h:87-90 | `getVertices()`: the vertex array, whose contents after an evaluation `EvaluateWavesFFT` and `ScatteredTiles` state |
| OceanModel.Ocean.Amplitudes | lb_waves/ocean.cpp:193-200 | the filled buffer has N^2 amplitudes |
| OceanModel.Ocean.FillAmplitudes | lb_waves/ocean.cpp:193-200 | after the fill loop, the buffer is `Grid`: every slot m N + n holds the amplitude of (n, m) |
| OceanModel.Ocean.GridIsAmplitudes | lb_waves/ocean.cpp:198 | filling with `hTilde(t, n, m)` yields the ocean's amplitudes at time t |
| OceanModel.Ocean.SignAndScatter | lb_waves/ocean.cpp:209-237 | after the second loop, the buffer is the signed transform and the vertex array is the scattered one |
| OceanModel.Ocean.ScatterStep | lb_waves/ocean.cpp:211-236 | one iteration advances both loop states by one lattice point |
| OceanModel.Ocean.WriteHeight | lb_waves/ocean.cpp:221 | `_pos[i].y = h` changes only vertex i's height |
| OceanModel.Ocean.EvaluateWavesFFT | lb_waves/ocean.cpp:190-238 | the buffer ends as the signed FFT of the amplitudes, the vertex array as its scatter, and the vertex array tiles |
| CAView.Texcoord | lb_waves/ca_view_glsl.cpp:42-64 | the biased coordinate of cell (i, j); characterised by `TexelCentre` |
| CAView.AxisCentre | lb_waves/ca_view_glsl.cpp:42-64 | the biased coordinate i/n + 1/(2n) is (2i + 1)/(2n), lies in (0, 1), and scales back into texel i |
| CAView.TexelCentre | lb_waves/ca_view_glsl.cpp:42-64 | texcoord (i, j) is ((2i+1)/2w, (2j+1)/2h), strictly inside the unit square, and selects texel (i, j) |
| CAView.TexGrid | lb_waves/ca_view_glsl.cpp:39 | `_positions` has size.x * size.y entries on a square lattice |
| CAView.TexGridAt | lb_waves/ca_view_glsl.cpp:67-68 | cell (i, j) is stored in bounds at i * size.x + j and holds its own coordinate |
| CAView.WideLatticeOutOfRange | lb_waves/ca_view_glsl.cpp:67-68 | on a lattice wider than it is tall, the last write targets an index past the array |
| CAView.Quad | lb_waves/ca_view_glsl.cpp:77-83 | the six indices of one quad; `QuadTriangles` and `QuadTexels` state their shape and the texels they select |
| CAView.Mesh | lb_waves/ca_view_glsl.cpp:73-85 | the index list has exactly 6 (size.x - 1)(size.y - 1) entries |
| CAView.MeshQuad | lb_waves/ca_view_glsl.cpp:73-85 | quad (s, t) occupies positions 6 (t (size.x - 1) + s) to 6 (t (size.x - 1) + s) + 5 |
| CAView.MeshInBounds | lb_waves/ca_view_glsl.cpp:77-83 | when size.y <= size.x, every emitted index is below size.x * size.y |
| CAView.TallMeshOutOfRange | lb_waves/ca_view_glsl.cpp:77-83 | on a lattice taller than it is wide, the last emitted index is at least size.x * size.y |
| CAView.QuadTriangles | lb_waves/ca_view_glsl.cpp:77-83 | the two triangles (a, b, c), (c, b, d) share edge b-c, and each has three distinct corners |
| CAView.QuadTexels | lb_waves/ca_view_glsl.cpp:77-83 | on a square lattice, the quad's corners select the coordinates of four neighbouring texels |
| CAView.CAViewGLSL.constructor | lb_waves/ca_view_glsl.cpp:35-85 | on a square lattice, `_positions` is the texel-centred grid and `_indices` the full mesh |
| CAView.CAViewGLSL.FillTexcoords | lb_waves/ca_view_glsl.cpp:54-70 | after the first loop, the coordinate array equals `TexGrid` |
| CAView.CAViewGLSL.FillColumn | lb_waves/ca_view_glsl.cpp:56-69 | the inner loop extends the finished prefix by one lattice column |
| CAView.CAViewGLSL.Triangulate | lb_waves/ca_view_glsl.cpp:73-85 | starting from an empty list, the second loop leaves exactly `Mesh` |
| CAView.CAViewGLSL.TriangulateRow | lb_waves/ca_view_glsl.cpp:75-84 | the inner loop appends the quads of row t in order |
| CAModel.CellState | lb_waves/ca_model_glsl.cpp:274-279 | the cell's y is its height; its five equal flow components sum to that height; massFlow1 is (f, wave number, 0, 0) |
| CAModel.Spacing | lb_waves/ca_model_glsl.cpp:130-131 | `_step`; `LatticeCorners` states that it spans `_min` to `_max` |
| CAModel.LatticePointStep | lb_waves/ca_model_glsl.cpp:144-147 | advancing `pos` by one step reaches the next column's (or row's) lattice point |
| CAModel.LatticeCorners | lb_waves/ca_model_glsl.cpp:130-131 | with `_step` as computed, cell (0, 0) sits at `_min` and cell (size.x - 1, size.y - 1) at `_max` |
| CAModel.Bump | lb_waves/ca_model_glsl.cpp:161-162 | one bump A exp(-50 l^2); `GaussianEven` states the symmetry of their sum |
| CAModel.BumpSum | lb_waves/ca_model_glsl.cpp:158-163 | the running height of the bump loop; `BumpSumOfFour` and `CAModelGLSL.BumpHeight` tie it to the loop |
| CAModel.BumpSumOfFour | lb_waves/ca_model_glsl.cpp:159-163 | the accumulated height is the sum of the four bumps |
| CAModel.GaussianEven | lb_waves/ca_model_glsl.cpp:149-163 | the four-bump height at -p equals that at p |
| CAModel.CellHeight | lb_waves/ca_model_glsl.cpp:221-228 | the height of a cell in each initial state; `LayoutAt` and `PhillipsCellHeight` state which value each cell gets |
| CAModel.Layout | lb_waves/ca_model_glsl.cpp:249-254 | after any `initialState*`, each array holds exactly size.x * size.y entries, whatever it held before |
| CAModel.LayoutAt | lb_waves/ca_model_glsl.cpp:267-281 | cell (x, y) is stored at y * size.x + x; it sits at its lattice point with the height its state gives |
| CAModel.LayoutConservesHeight | lb_waves/ca_model_glsl.cpp:233-235 | every initial cell has five equal flow components summing to `position.y`, wave number 1 and w = 1 |
| CAModel.SquareReadsInBounds | lb_waves/ca_model_glsl.cpp:265-281 | on a square lattice, every read `vertices[y * size.x + x]` is below (N + 1)^2 |
| CAModel.CellReadsShearedVertex | lb_waves/ca_model_glsl.cpp:274 | cell (x, y) reads ocean vertex (x - y, y) when y <= x and (N + 1 + x - y, y - 1) otherwise |
| CAModel.PhillipsCellHeight | lb_waves/ca_model_glsl.cpp:274 | in the Phillips state, the height of cell (x, y) is that of the sheared ocean vertex |
| CAModel.CAModelGLSL.constructor | lb_waves/ca_model_glsl.cpp:38-56 | `_src` = 0, `_dst` = 1; the ocean is a new N = size.x, A = 0.00005, wind (0, 32), side 64 patch whose zeroed vertex array is scattered from the transformed amplitudes at t = 1/30; the cells form the Gaussian-and-Phillips layout over those vertices |
| CAModel.CAModelGLSL.InitialStateGaussian | lb_waves/ca_model_glsl.cpp:121-174 | the cells become the four-bump layout, and `_step`, `_lambda` and `_waveNumber` are set |
| CAModel.CAModelGLSL.InitialStatePhillips | lb_waves/ca_model_glsl.cpp:245-283 | the ocean is evaluated at t = 1/30, and the cells take their heights from its vertex array |
| CAModel.CAModelGLSL.InitialStateGaussianAndPhillips | lb_waves/ca_model_glsl.cpp:179-240 | the ocean is evaluated at t = 1/30, and each cell's height is the bump sum plus `vertices[idx].y` |
| CAModel.CAModelGLSL.Rebuild | lb_waves/ca_model_glsl.cpp:183-238 | clearing and the y-outer, x-inner append loop produce exactly `Layout` |
| CAModel.CAModelGLSL.RebuildRow | lb_waves/ca_model_glsl.cpp:209-237 | the inner loop appends row y's cells, with `pos.x` and `idx` advancing in step |
| CAModel.CAModelGLSL.BumpHeight | lb_waves/ca_model_glsl.cpp:212-226 | the bump loop's height equals `GaussianHeight` at the cell's position |
| CAModel.CAModelGLSL.CurPositionId | lb_waves/ca_model_glsl.h:60-63 | `getCurPositionID` is `_posTexID[_dst]`, never the texture the pass reads |
| CAModel.CAModelGLSL.Update | lb_waves/ca_model_glsl.cpp:472-499 | both indices flip, so `_src` and `_dst` swap and stay distinct in {0, 1}; the pass reads the previous current texture; the cell arrays are unchanged |
| CAModel.FlipTwice | lb_waves/ca_model_glsl.cpp:478-479 | two flips restore a buffer index |
| Particles.Gravity | ios6/Singularity/ParticleSystemModel.cpp:25-29 | the force times r^2 is G m1 m2 (the inverse-square law) |
| Particles.Acceleration | ios6/Singularity/ParticleSystemModel.cpp:43-50 | force over mass; characterised by `AccelerationIsInverseSquare` |
| Particles.AccelerationIsInverseSquare | ios6/Singularity/ParticleSystemModel.cpp:25-50 | the acceleration is -(G m1 / r^2) times the unit vector of x, independent of m2 |
| Particles.Evaluate | ios6/Singularity/ParticleSystemModel.cpp:56-62 | the position derivative is the velocity |
| Particles.EvaluateAt | ios6/Singularity/ParticleSystemModel.cpp:65-76 | the position derivative is the velocity of the state advanced by d dt; `EvaluateAtIsShifted` relates it to `Evaluate` |
| Particles.Integrate | ios6/Singularity/ParticleSystemModel.cpp:79-91 | `integrate`; characterised by `IntegrateIsRungeKutta`, `IntegrateTimeInvariant` and `IntegrateMassInvariant` |
| Particles.EvaluateAtIsShifted | ios6/Singularity/ParticleSystemModel.cpp:65-76 | the second `evaluate` is the first one at the advanced state and time |
| Particles.IntegrateIsRungeKutta | ios6/Singularity/ParticleSystemModel.cpp:79-91 | `integrate` is x + dt w (k1 + 2 k2 + 2 k3 + k4), with slopes at the state, two half steps and a full step |
| Particles.IntegrateTimeInvariant | ios6/Singularity/ParticleSystemModel.cpp:43-91 | the step does not depend on t |
| Particles.IntegrateMassInvariant | ios6/Singularity/ParticleSystemModel.cpp:25-91 | the step is the same for every non-zero particle mass |
| Particles.Step | ios6/Singularity/ParticleSystemModel.cpp:176-188 | one particle's update; characterised by `StepResetPolicy` and `StepStaysInside` |
| Particles.StepResetPolicy | ios6/Singularity/ParticleSystemModel.cpp:176-188 | past radius 100, a particle is reset to exactly its initial state; otherwise it holds the RK4 state with w = 1 and w = 0, within the radius |
| Particles.StepStaysInside | ios6/Singularity/ParticleSystemModel.cpp:184-188 | a particle whose start is within radius 100 is within it after every update |
| Particles.Resized | ios6/Singularity/ParticleSystemModel.cpp:153-156 | `resize(n)` keeps the first n entries and pads with zero vectors |
| Particles.ParticleSystemModel.constructor | ios6/Singularity/ParticleSystemModel.cpp:99-106 | the masses are 9.5e9 and 1e5, and every particle is launched |
| Particles.ParticleSystemModel.InitParticle | ios6/Singularity/ParticleSystemModel.cpp:121-146 | particle i is at (0.1, 0, 0, 1) with velocity (v, 0), both recorded as initial; nothing else changes |
| Particles.ParticleSystemModel.InitParticles | ios6/Singularity/ParticleSystemModel.cpp:151-162 | the arrays have length n, particles below `_numParticles` are launched, and the rest are resize padding |
| Particles.ParticleSystemModel.Update | ios6/Singularity/ParticleSystemModel.cpp:167-190 | each live particle takes its `Step`; the initial arrays, the masses, the lengths and the particles beyond `_numParticles` are unchanged |

## Left out

- GPU and windowing plumbing is not part of this model: `createFBO`, `uploadInitialConditions`, `initComputeQuad`, the GL calls in `update` and in the view's constructor, and all shaders. The update shader's height sum is stated only through `FlowSum`.
- FFTW (`fftw_malloc`, the plan, `fftw_execute`) is an uninterpreted length-preserving transform. The random draws of `gaussianRandomVariable`/`hTilde_0` and the random spherical velocity of `initParticle` are parameters. The math library is an oracle, and no claim is made about its values.
- Floating point is exact real arithmetic. No rounding, overflow, NaN or infinity is modelled. `float(i) / size.x`, the 0.166666667 weight and the `float` constants are exact decimals.
- Divisions the source performs by values that may be zero are excluded by preconditions. Without them the float code would produce infinities or NaN:
  - `phillips`/`hTilde` require a non-zero wind;
  - `Particles.Integrate` and `Particles.ParticleSystemModel.Update` require every stage position to be away from the origin and a non-zero particle mass;
  - the Gaussian states require `_max.x != _min.x`;
  - `_step` requires a lattice at least 2 cells wide and tall.
- CAView.CAViewGLSL.constructor: requires a square lattice. On other lattices the source's `at` throws, or cells share a slot (see `CAView.WideLatticeOutOfRange` and `CAView.TallMeshOutOfRange`).
- CAModel.CAModelGLSL.constructor: requires size.x * size.y <= (size.x + 1)^2, so that the reads of the ocean's vertex array stay in bounds. On a taller lattice the source reads past the vector.
- Ocean's FFT buffer is uninitialised memory in the source; the model starts it at zero. It is overwritten before any read.
- `integrate` updates its `State&` argument in place; here it is a function returning the new state.
- `Particles.Weight` is the decimal 0.166666667, as in the source. `Particles.IntegrateIsRungeKutta` states the combination with that weight, not with 1/6.
- The setters and accessors of the headers are not modelled, apart from `getCurPositionID` and the ocean's `getVertices`. Neither are the destructors or `draw`.
- Particles.ParticleSystemModel.InitParticles: requires `_numParticles` <= n. With a smaller n the source's `at(i)` throws `std::out_of_range`; the only caller, the constructor, passes n equal to `_numParticles`, so no reachable behaviour is lost.
- `ios6/Singularity/ParticleSystem.cpp` is compiled out (`#if 0`) and is not part of this model.
