/** The CPU particle system of the "Singularity" demo (`ParticleSystemModel`):
    particles fall towards a point mass at the origin, each advanced by one
    fourth-order Runge-Kutta step per update, and a particle that escapes
    past radius 100 is put back where it started. */
module Particles {
  import opened Numerics

  /** Position and velocity of one particle (`State`). */
  datatype State = State(x: Vec3, v: Vec3)

  /** Their time derivatives (`Derivative`). */
  datatype Derivative = Derivative(dx: Vec3, dv: Vec3)

  /** The gravitational constant, in N m^2 / kg^2. */
  const G: real := 0.0000000000667

  /** The weight of the final Runge-Kutta combination, the decimal
      0.166666667 standing in for 1/6. */
  const Weight: real := 0.166666667

  /** The time step of each update, in seconds (`static float t`). */
  const TimeStep: real := 0.01

  /** A particle escaping past this distance from the origin is reset. */
  const EscapeRadius: real := 100.0

  /** Where every particle starts: 0.1 m along x, as a point (w = 1). */
  const LaunchPosition: Vec4 := Vec4(0.1, 0.0, 0.0, 1.0)

  /** `vec3 / float` */
  function Div3(a: Vec3, k: real): Vec3
    requires k != 0.0
  {
    Vec3(a.x / k, a.y / k, a.z / k)
  }

  // ---------------------------------------------------------------------------
  // Gravity

  /** `gravity`: the magnitude of the attraction G m1 m2 / r^2 between two
      masses at distance r. */
  function Gravity(m1: real, m2: real, r: real): (g: real)
    requires r != 0.0
    ensures g * Sq(r) == G * m1 * m2
  {
    SqPositive(r);
    G * m1 * m2 / Sq(r)
  }

  /** Whether the acceleration of a particle at x is defined: x is away from
      the singularity and the particle has mass. */
  predicate Defined(lib: Libm, x: Vec3, m2: real)
  {
    Length3(lib, x) != 0.0 && m2 != 0.0
  }

  /** `acceleration`: the force towards the origin divided by the particle's
      mass. The time is accepted and ignored. */
  function Acceleration(lib: Libm, state: State, t: real, m1: real, m2: real): Vec3
    requires Defined(lib, state.x, m2)
  {
    var g := Gravity(m1, m2, Length3(lib, state.x));
    var force := Scale3(-g, Normalize3(lib, state.x));
    Div3(force, m2)
  }

  lemma DivideOut(g: real, k: real, m2: real, n: Vec3)
    requires m2 != 0.0 && g == k * m2
    ensures Div3(Scale3(-g, n), m2) == Scale3(-k, n)
  {
    assert -g * n.x == (-k * n.x) * m2;
    assert -g * n.y == (-k * n.y) * m2;
    assert -g * n.z == (-k * n.z) * m2;
  }

  lemma Regroup(a: real, m2: real, q: real)
    requires q != 0.0
    ensures a * m2 / q == (a / q) * m2
  {
  }

  /** Over exact arithmetic the acceleration is -(G m1 / r^2) times the unit
      vector towards x: the particle's own mass m2 cancels. */
  lemma AccelerationIsInverseSquare(lib: Libm, state: State, t: real, m1: real, m2: real)
    requires Defined(lib, state.x, m2)
    ensures Acceleration(lib, state, t, m1, m2)
         == Scale3(-(G * m1 / Sq(Length3(lib, state.x))), Normalize3(lib, state.x))
  {
    var r := Length3(lib, state.x);
    SqPositive(r);
    var g := Gravity(m1, m2, r);
    Regroup(G * m1, m2, Sq(r));
    DivideOut(g, G * m1 / Sq(r), m2, Normalize3(lib, state.x));
  }

  // ---------------------------------------------------------------------------
  // Runge-Kutta stages

  /** The state reached by following the derivative d for time dt. */
  function Advance(s: State, d: Derivative, dt: real): State
  {
    State(Add3(s.x, Scale3(dt, d.dx)), Add3(s.v, Scale3(dt, d.dv)))
  }

  /** The first `evaluate`: the derivative at the state itself. */
  function Evaluate(lib: Libm, initial: State, t: real, m1: real, m2: real): (d: Derivative)
    requires Defined(lib, initial.x, m2)
    ensures d.dx == initial.v
  {
    Derivative(initial.v, Acceleration(lib, initial, t, m1, m2))
  }

  /** The second `evaluate`: the derivative at the state reached by following
      d for dt, at time t + dt. */
  function EvaluateAt(lib: Libm, initial: State, t: real, dt: real, d: Derivative, m1: real, m2: real): (r: Derivative)
    requires Defined(lib, Advance(initial, d, dt).x, m2)
    ensures r.dx == Advance(initial, d, dt).v
  {
    var state := State(Add3(initial.x, Scale3(dt, d.dx)), Add3(initial.v, Scale3(dt, d.dv)));
    Derivative(state.v, Acceleration(lib, state, t + dt, m1, m2))
  }

  /** The second `evaluate` is the first one, taken at the advanced state and
      the advanced time; with a zero step it is the first one at the state
      itself. */
  lemma EvaluateAtIsShifted(lib: Libm, initial: State, t: real, dt: real, d: Derivative, m1: real, m2: real)
    requires Defined(lib, Advance(initial, d, dt).x, m2)
    ensures EvaluateAt(lib, initial, t, dt, d, m1, m2) == Evaluate(lib, Advance(initial, d, dt), t + dt, m1, m2)
    ensures dt == 0.0 ==> Advance(initial, d, dt) == initial
  {
  }

  /** Whether every acceleration the step from s evaluates is defined: the
      four stage positions are all away from the singularity. */
  predicate Regular(lib: Libm, s: State, dt: real, m1: real, m2: real)
  {
    Defined(lib, s.x, m2) &&
    var a := Evaluate(lib, s, 0.0, m1, m2);
    Defined(lib, Advance(s, a, dt * 0.5).x, m2) &&
    var b := EvaluateAt(lib, s, 0.0, dt * 0.5, a, m1, m2);
    Defined(lib, Advance(s, b, dt * 0.5).x, m2) &&
    var c := EvaluateAt(lib, s, 0.0, dt * 0.5, b, m1, m2);
    Defined(lib, Advance(s, c, dt).x, m2)
  }

  /** `integrate`: four derivative evaluations, combined with weights
      1, 2, 2, 1 times `Weight`, advance the state by dt. */
  function Integrate(lib: Libm, state: State, t: real, dt: real, m1: real, m2: real): State
    requires Regular(lib, state, dt, m1, m2)
  {
    var a := Evaluate(lib, state, t, m1, m2);
    var b := EvaluateAt(lib, state, t, dt * 0.5, a, m1, m2);
    var c := EvaluateAt(lib, state, t, dt * 0.5, b, m1, m2);
    var d := EvaluateAt(lib, state, t, dt, c, m1, m2);
    var dxdt := Scale3(Weight, Add3(Add3(a.dx, Scale3(2.0, Add3(b.dx, c.dx))), d.dx));
    var dvdt := Scale3(Weight, Add3(Add3(a.dv, Scale3(2.0, Add3(b.dv, c.dv))), d.dv));
    State(Add3(state.x, Scale3(dt, dxdt)), Add3(state.v, Scale3(dt, dvdt)))
  }

  /** k1 + 2 k2 + 2 k3 + k4 */
  function Blend(k1: Vec3, k2: Vec3, k3: Vec3, k4: Vec3): Vec3
  {
    Add3(Add3(Add3(k1, Scale3(2.0, k2)), Scale3(2.0, k3)), k4)
  }

  /** The textbook Runge-Kutta update of s by step h from four slopes, with
      combination weight w: s + h w (k1 + 2 k2 + 2 k3 + k4). */
  function Combine(s: State, h: real, w: real, k1: Derivative, k2: Derivative, k3: Derivative, k4: Derivative): State
  {
    State(Add3(s.x, Scale3(h * w, Blend(k1.dx, k2.dx, k3.dx, k4.dx))),
          Add3(s.v, Scale3(h * w, Blend(k1.dv, k2.dv, k3.dv, k4.dv))))
  }

  lemma BlendScaled(w: real, h: real, a: Vec3, b: Vec3, c: Vec3, d: Vec3)
    ensures Scale3(h, Scale3(w, Add3(Add3(a, Scale3(2.0, Add3(b, c))), d))) == Scale3(h * w, Blend(a, b, c, d))
  {
    var s := Add3(Add3(a, Scale3(2.0, Add3(b, c))), d);
    assert s == Blend(a, b, c, d);
    assert h * (w * s.x) == (h * w) * s.x;
    assert h * (w * s.y) == (h * w) * s.y;
    assert h * (w * s.z) == (h * w) * s.z;
  }

  /** `integrate` is the classical fourth-order Runge-Kutta step: slopes at
      the state, at two half steps (each following the previous slope), and
      at a full step following the third, combined as
      s + dt w (k1 + 2 k2 + 2 k3 + k4) with w = `Weight`. */
  lemma IntegrateIsRungeKutta(lib: Libm, s: State, t: real, dt: real, m1: real, m2: real)
    requires Regular(lib, s, dt, m1, m2)
    ensures var k1 := Evaluate(lib, s, t, m1, m2);
            Defined(lib, Advance(s, k1, dt * 0.5).x, m2) &&
            var k2 := Evaluate(lib, Advance(s, k1, dt * 0.5), t + dt * 0.5, m1, m2);
            Defined(lib, Advance(s, k2, dt * 0.5).x, m2) &&
            var k3 := Evaluate(lib, Advance(s, k2, dt * 0.5), t + dt * 0.5, m1, m2);
            Defined(lib, Advance(s, k3, dt).x, m2) &&
            var k4 := Evaluate(lib, Advance(s, k3, dt), t + dt, m1, m2);
            Integrate(lib, s, t, dt, m1, m2) == Combine(s, dt, Weight, k1, k2, k3, k4)
  {
    var a := Evaluate(lib, s, t, m1, m2);
    var b := EvaluateAt(lib, s, t, dt * 0.5, a, m1, m2);
    var c := EvaluateAt(lib, s, t, dt * 0.5, b, m1, m2);
    var d := EvaluateAt(lib, s, t, dt, c, m1, m2);
    EvaluateAtIsShifted(lib, s, t, dt * 0.5, a, m1, m2);
    EvaluateAtIsShifted(lib, s, t, dt * 0.5, b, m1, m2);
    EvaluateAtIsShifted(lib, s, t, dt, c, m1, m2);
    BlendScaled(Weight, dt, a.dx, b.dx, c.dx, d.dx);
    BlendScaled(Weight, dt, a.dv, b.dv, c.dv, d.dv);
  }

  /** The acceleration ignores the time, so the step does too. */
  lemma IntegrateTimeInvariant(lib: Libm, s: State, t: real, t': real, dt: real, m1: real, m2: real)
    requires Regular(lib, s, dt, m1, m2)
    ensures Integrate(lib, s, t, dt, m1, m2) == Integrate(lib, s, t', dt, m1, m2)
  {
  }

  /** Since the particle's mass cancels from the acceleration, the step is the
      same for every non-zero particle mass. */
  lemma IntegrateMassInvariant(lib: Libm, s: State, t: real, dt: real, m1: real, m2: real, m2': real)
    requires Regular(lib, s, dt, m1, m2) && m2' != 0.0
    ensures Regular(lib, s, dt, m1, m2')
    ensures Integrate(lib, s, t, dt, m1, m2) == Integrate(lib, s, t, dt, m1, m2')
  {
    var a := Evaluate(lib, s, t, m1, m2);
    AccelerationIsInverseSquare(lib, s, t, m1, m2);
    AccelerationIsInverseSquare(lib, s, t, m1, m2');
    AccelerationIsInverseSquare(lib, s, 0.0, m1, m2);
    AccelerationIsInverseSquare(lib, s, 0.0, m1, m2');
    var sb := Advance(s, a, dt * 0.5);
    AccelerationIsInverseSquare(lib, sb, t + dt * 0.5, m1, m2);
    AccelerationIsInverseSquare(lib, sb, t + dt * 0.5, m1, m2');
    AccelerationIsInverseSquare(lib, sb, 0.0 + dt * 0.5, m1, m2);
    AccelerationIsInverseSquare(lib, sb, 0.0 + dt * 0.5, m1, m2');
    var b := EvaluateAt(lib, s, t, dt * 0.5, a, m1, m2);
    var sc := Advance(s, b, dt * 0.5);
    AccelerationIsInverseSquare(lib, sc, t + dt * 0.5, m1, m2);
    AccelerationIsInverseSquare(lib, sc, t + dt * 0.5, m1, m2');
    AccelerationIsInverseSquare(lib, sc, 0.0 + dt * 0.5, m1, m2);
    AccelerationIsInverseSquare(lib, sc, 0.0 + dt * 0.5, m1, m2');
    var c := EvaluateAt(lib, s, t, dt * 0.5, b, m1, m2);
    var sd := Advance(s, c, dt);
    AccelerationIsInverseSquare(lib, sd, t + dt, m1, m2);
    AccelerationIsInverseSquare(lib, sd, t + dt, m1, m2');
  }

  // ---------------------------------------------------------------------------
  // One particle's update

  /** The state `update` integrates for a particle stored as (p, v). */
  function StateOf(p: Vec4, v: Vec4): State
  {
    State(Xyz(p), Xyz(v))
  }

  /** One particle's update: a Runge-Kutta step from time 0 by `TimeStep`,
      stored as a point and a direction; if the new position is farther than
      `EscapeRadius` from the origin, the recorded initial position and
      velocity instead. */
  function Step(lib: Libm, p: Vec4, v: Vec4, p0: Vec4, v0: Vec4, m1: real, m2: real): (Vec4, Vec4)
    requires Regular(lib, StateOf(p, v), TimeStep, m1, m2)
  {
    var s := Integrate(lib, StateOf(p, v), 0.0, TimeStep, m1, m2);
    var p' := Extend(s.x, 1.0);
    if Length3(lib, Xyz(p')) > EscapeRadius then (p0, v0) else (p', Extend(s.v, 0.0))
  }

  /** The reset policy: a particle is put back to exactly its recorded initial
      state when, and only when, its integrated position is past the escape
      radius; otherwise it holds the integrated state, a point (w = 1) moving
      in a direction (w = 0), within the escape radius. */
  lemma StepResetPolicy(lib: Libm, p: Vec4, v: Vec4, p0: Vec4, v0: Vec4, m1: real, m2: real)
    requires Regular(lib, StateOf(p, v), TimeStep, m1, m2)
    ensures var s := Integrate(lib, StateOf(p, v), 0.0, TimeStep, m1, m2);
            var r := Step(lib, p, v, p0, v0, m1, m2);
            && (Length3(lib, s.x) > EscapeRadius ==> r == (p0, v0))
            && (Length3(lib, s.x) <= EscapeRadius ==>
                  && StateOf(r.0, r.1) == s && r.0.w == 1.0 && r.1.w == 0.0
                  && Length3(lib, Xyz(r.0)) <= EscapeRadius)
  {
  }

  /** A particle whose recorded start is within the escape radius is within it
      after every update. */
  lemma StepStaysInside(lib: Libm, p: Vec4, v: Vec4, p0: Vec4, v0: Vec4, m1: real, m2: real)
    requires Regular(lib, StateOf(p, v), TimeStep, m1, m2)
    requires Length3(lib, Xyz(p0)) <= EscapeRadius
    ensures Length3(lib, Xyz(Step(lib, p, v, p0, v0, m1, m2).0)) <= EscapeRadius
  {
  }

  /** `vector::resize(n)`: keep the first n entries, padding with zero
      vectors. */
  function Resized(s: seq<Vec4>, n: nat): (r: seq<Vec4>)
    ensures |r| == n
    ensures forall i | 0 <= i < n :: r[i] == if i < |s| then s[i] else Vec4(0.0, 0.0, 0.0, 0.0)
  {
    if n <= |s| then s[..n] else s + seq(n - |s|, _ => Vec4(0.0, 0.0, 0.0, 0.0))
  }

  // ---------------------------------------------------------------------------
  // The particle system object

  class ParticleSystemModel {
    /** `_positions`, `_velocities`, `_initialPositions`, `_initialVelocities` */
    var positions: seq<Vec4>
    var velocities: seq<Vec4>
    var initialPositions: seq<Vec4>
    var initialVelocities: seq<Vec4>
    /** `_numParticles` */
    var numParticles: nat
    /** `_singularityMass`, `_particleMass` */
    var singularityMass: real
    var particleMass: real

    /** The four arrays are parallel and hold every live particle. */
    ghost predicate Valid()
      reads this
    {
      && |velocities| == |positions|
      && |initialPositions| == |positions|
      && |initialVelocities| == |positions|
      && numParticles <= |positions|
    }

    /** Particle i holds its launch state: at `LaunchPosition`, moving with
        its recorded velocity, and the recorded initial state equal to it. */
    ghost predicate Launched(i: nat, velocity: Vec3)
      reads this
      requires Valid() && i < |positions|
    {
      && positions[i] == LaunchPosition && initialPositions[i] == positions[i]
      && velocities[i] == Extend(velocity, 0.0) && initialVelocities[i] == velocities[i]
    }

    /** `ParticleSystemModel(numParticles)`: a 9.5e9 kg singularity, 1e5 kg
        particles, all launched. `velocity(i)` is the random velocity drawn
        for particle i. */
    constructor (numParticles: nat, velocity: nat -> Vec3)
      ensures Valid() && this.numParticles == numParticles && |positions| == numParticles
      ensures singularityMass == 9500000000.0 && particleMass == 100000.0
      ensures forall i | 0 <= i < numParticles :: Launched(i, velocity(i))
    {
      this.numParticles := numParticles;
      singularityMass := 9500000000.0;
      particleMass := 100000.0;
      positions, velocities, initialPositions, initialVelocities := [], [], [], [];
      new;
      InitParticles(numParticles, velocity);
    }

    /** `initParticle(i)`: launch particle i with velocity v, recording the
        launch state as its initial state. Nothing else changes. */
    method InitParticle(i: nat, v: Vec3)
      requires Valid() && i < |positions|
      modifies this
      ensures Valid() && |positions| == |old(positions)| && Launched(i, v)
      ensures positions == old(positions)[i := LaunchPosition]
      ensures initialPositions == old(initialPositions)[i := LaunchPosition]
      ensures velocities == old(velocities)[i := Extend(v, 0.0)]
      ensures initialVelocities == old(initialVelocities)[i := Extend(v, 0.0)]
      ensures numParticles == old(numParticles)
      ensures singularityMass == old(singularityMass) && particleMass == old(particleMass)
    {
      velocities := velocities[i := Extend(v, 0.0)];
      initialVelocities := initialVelocities[i := velocities[i]];
      var height := 0.1;
      positions := positions[i := Vec4(height, 0.0, 0.0, 1.0)];
      initialPositions := initialPositions[i := positions[i]];
    }

    /** `initParticles(n)`: resize the four arrays to n, then launch particles
        0 .. numParticles - 1. The loop runs to the field, not to n, so the
        field must not exceed n. */
    method InitParticles(n: nat, velocity: nat -> Vec3)
      requires numParticles <= n
      modifies this
      ensures Valid() && |positions| == n
      ensures forall i | 0 <= i < numParticles :: Launched(i, velocity(i))
      ensures forall i | numParticles <= i < n ::
                && positions[i] == Resized(old(positions), n)[i]
                && velocities[i] == Resized(old(velocities), n)[i]
                && initialPositions[i] == Resized(old(initialPositions), n)[i]
                && initialVelocities[i] == Resized(old(initialVelocities), n)[i]
      ensures numParticles == old(numParticles)
      ensures singularityMass == old(singularityMass) && particleMass == old(particleMass)
    {
      positions := Resized(positions, n);
      velocities := Resized(velocities, n);
      initialPositions := Resized(initialPositions, n);
      initialVelocities := Resized(initialVelocities, n);
      ghost var P, V, P0, V0 := positions, velocities, initialPositions, initialVelocities;
      var i := 0;
      while i < numParticles
        invariant 0 <= i <= numParticles
        invariant Valid() && |positions| == n
        invariant forall k | 0 <= k < i :: Launched(k, velocity(k))
        invariant forall k | i <= k < n ::
                    positions[k] == P[k] && velocities[k] == V[k]
                    && initialPositions[k] == P0[k] && initialVelocities[k] == V0[k]
        invariant numParticles == old(numParticles)
        invariant singularityMass == old(singularityMass) && particleMass == old(particleMass)
      {
        InitParticle(i, velocity(i));
        i := i + 1;
      }
    }

    /** Whether every live particle's next step is defined. */
    ghost predicate CanUpdate(lib: Libm)
      reads this
      requires Valid()
    {
      forall i | 0 <= i < numParticles ::
        Regular(lib, StateOf(positions[i], velocities[i]), TimeStep, singularityMass, particleMass)
    }

    /** `update`: every live particle takes its `Step`; particles past
        `numParticles`, the recorded initial states, the masses and every
        array length are left alone. */
    method Update(lib: Libm)
      requires Valid() && CanUpdate(lib)
      modifies this
      ensures Valid()
      ensures |positions| == |old(positions)|
      ensures initialPositions == old(initialPositions) && initialVelocities == old(initialVelocities)
      ensures numParticles == old(numParticles)
      ensures singularityMass == old(singularityMass) && particleMass == old(particleMass)
      ensures forall i | 0 <= i < numParticles ::
                (positions[i], velocities[i])
                == Step(lib, old(positions[i]), old(velocities[i]), initialPositions[i], initialVelocities[i],
                        singularityMass, particleMass)
      ensures forall i | numParticles <= i < |positions| ::
                positions[i] == old(positions[i]) && velocities[i] == old(velocities[i])
      ensures forall i | 0 <= i < numParticles ::
                Length3(lib, Xyz(initialPositions[i])) <= EscapeRadius ==> Length3(lib, Xyz(positions[i])) <= EscapeRadius
    {
      ghost var P, V := positions, velocities;
      var i := 0;
      while i < numParticles
        invariant 0 <= i <= numParticles
        invariant Valid() && |positions| == |P|
        invariant initialPositions == old(initialPositions) && initialVelocities == old(initialVelocities)
        invariant numParticles == old(numParticles)
        invariant singularityMass == old(singularityMass) && particleMass == old(particleMass)
        invariant forall k | 0 <= k < i ::
                    (positions[k], velocities[k])
                    == Step(lib, P[k], V[k], initialPositions[k], initialVelocities[k], singularityMass, particleMass)
        invariant forall k | i <= k < |positions| :: positions[k] == P[k] && velocities[k] == V[k]
      {
        var state := State(Xyz(positions[i]), Xyz(velocities[i]));
        state := Integrate(lib, state, 0.0, TimeStep, singularityMass, particleMass);
        positions := positions[i := Extend(state.x, 1.0)];
        velocities := velocities[i := Extend(state.v, 0.0)];
        if Length3(lib, Xyz(positions[i])) > EscapeRadius {
          positions := positions[i := initialPositions[i]];
          velocities := velocities[i := initialVelocities[i]];
        }
        i := i + 1;
      }
      forall k | 0 <= k < numParticles
        ensures Length3(lib, Xyz(initialPositions[k])) <= EscapeRadius ==> Length3(lib, Xyz(positions[k])) <= EscapeRadius
      {
        if Length3(lib, Xyz(initialPositions[k])) <= EscapeRadius {
          StepStaysInside(lib, P[k], V[k], initialPositions[k], initialVelocities[k], singularityMass, particleMass);
        }
      }
    }
  }
}
