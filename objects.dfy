module Objects {
  import opened LinearAlgebra

  /** A point of the drawn trail, `(x, y)`. */
  type Point = (real, real)

  /** Everything an integrator reads or writes on one `Object`. */
  datatype ObjectState = ObjectState(
    x: real, y: real,
    xVel: real, yVel: real,
    prevX: real, prevY: real,
    forceX: real, forceY: real,
    mass: real, timestep: real,
    trail: seq<Point>)

  /** The velocity change `(F / m) * dt` that a force accumulator produces over one timestep. */
  function Kick(s: ObjectState): Point
    requires s.mass != 0.0
  {
    (Acceleration(s).0 * s.timestep, Acceleration(s).1 * s.timestep)
  }

  /** The acceleration `F / m` the accumulated force gives the body. */
  function Acceleration(s: ObjectState): Point
    requires s.mass != 0.0
  {
    (s.forceX / s.mass, s.forceY / s.mass)
  }

  function Position(s: ObjectState): Point {
    (s.x, s.y)
  }

  function Velocity(s: ObjectState): Point {
    (s.xVel, s.yVel)
  }

  /** The displacement `v dt` of the body's own velocity over one timestep (`kx0`). */
  function Drift(s: ObjectState): Point {
    (s.xVel * s.timestep, s.yVel * s.timestep)
  }

  /** The displacement `(v + kv / 2) dt` of velocity `v` half kicked by `s`'s force (`kx1`, `kx2`). */
  function HalfKickDrift(v: Point, s: ObjectState): Point
    requires s.mass != 0.0
  {
    ((v.0 + 0.5 * Kick(s).0) * s.timestep, (v.1 + 0.5 * Kick(s).1) * s.timestep)
  }

  /** The displacement `(v + kv) dt` of velocity `v` fully kicked by `s`'s force (`kx3`). */
  function FullKickDrift(v: Point, s: ObjectState): Point
    requires s.mass != 0.0
  {
    ((v.0 + Kick(s).0) * s.timestep, (v.1 + Kick(s).1) * s.timestep)
  }

  /** `s` with its force accumulator consumed. */
  function Cleared(s: ObjectState): ObjectState {
    s.(forceX := 0.0, forceY := 0.0)
  }

  // ---------------------------------------------------------------------------
  // One step of each integrator

  /**
   * `euler_method`, and `semi_implicit_euler` whose code is the same: the
   * position advances with the velocity held before the step, then the
   * velocity advances with the force.
   */
  function EulerStep(s: ObjectState): (r: ObjectState)
    requires s.mass != 0.0
    ensures r.forceX == 0.0 && r.forceY == 0.0
    ensures r.trail == s.trail + [(r.x, r.y)]
    ensures r.mass == s.mass && r.timestep == s.timestep && r.prevX == s.prevX && r.prevY == s.prevY
  {
    var x := s.x + s.xVel * s.timestep;
    var y := s.y + s.yVel * s.timestep;
    s.(x := x, y := y,
       xVel := s.xVel + Acceleration(s).0 * s.timestep,
       yVel := s.yVel + Acceleration(s).1 * s.timestep,
       trail := s.trail + [(x, y)],
       forceX := 0.0, forceY := 0.0)
  }

  /** `rk`: a half kick of the velocity, then a drift of the position with the kicked velocity. */
  function HalfKickStep(s: ObjectState): (r: ObjectState)
    requires s.mass != 0.0
    ensures r.forceX == 0.0 && r.forceY == 0.0
    ensures r.trail == s.trail + [(r.x, r.y)]
    ensures r.x == s.x + r.xVel * s.timestep && r.y == s.y + r.yVel * s.timestep
  {
    var xVel := s.xVel + 0.5 * Acceleration(s).0 * s.timestep;
    var yVel := s.yVel + 0.5 * Acceleration(s).1 * s.timestep;
    var x := s.x + xVel * s.timestep;
    var y := s.y + yVel * s.timestep;
    s.(x := x, y := y, xVel := xVel, yVel := yVel,
       trail := s.trail + [(x, y)],
       forceX := 0.0, forceY := 0.0)
  }

  /** `verlet`: position Verlet from the previous position; the velocity is kicked for diagnostics. */
  function VerletStep(s: ObjectState): (r: ObjectState)
    requires s.mass != 0.0
    ensures r.prevX == s.x && r.prevY == s.y
    ensures r.forceX == 0.0 && r.forceY == 0.0
    ensures r.trail == s.trail + [(r.x, r.y)]
  {
    var x := 2.0 * s.x - s.prevX + Acceleration(s).0 * (s.timestep * s.timestep);
    var y := 2.0 * s.y - s.prevY + Acceleration(s).1 * (s.timestep * s.timestep);
    s.(x := x, y := y, prevX := s.x, prevY := s.y,
       xVel := s.xVel + Acceleration(s).0 * s.timestep,
       yVel := s.yVel + Acceleration(s).1 * s.timestep,
       trail := s.trail + [(x, y)],
       forceX := 0.0, forceY := 0.0)
  }

  /** The half-step velocity that `velocity_verlet_1` returns. */
  function HalfStepVelocity(s: ObjectState): Point
    requires s.mass != 0.0
  {
    (s.xVel + 0.5 * Acceleration(s).0 * s.timestep,
     s.yVel + 0.5 * Acceleration(s).1 * s.timestep)
  }

  /** `velocity_verlet_1`: moves the position a full step; the velocity field is left alone. */
  function VelocityVerletFirst(s: ObjectState): (r: ObjectState)
    requires s.mass != 0.0
    ensures r.xVel == s.xVel && r.yVel == s.yVel && r.trail == s.trail
    ensures r.forceX == 0.0 && r.forceY == 0.0
    ensures r.mass == s.mass && r.timestep == s.timestep
  {
    s.(x := s.x + s.xVel * s.timestep + 0.5 * Acceleration(s).0 * (s.timestep * s.timestep),
       y := s.y + s.yVel * s.timestep + 0.5 * Acceleration(s).1 * (s.timestep * s.timestep),
       forceX := 0.0, forceY := 0.0)
  }

  /** `velocity_verlet_2`: completes the velocity with the freshly evaluated force; the accumulator is kept. */
  function VelocityVerletSecond(s: ObjectState, velocities: Point): (r: ObjectState)
    requires s.mass != 0.0
    ensures r.x == s.x && r.y == s.y
    ensures r.forceX == s.forceX && r.forceY == s.forceY
    ensures r.trail == s.trail + [(s.x, s.y)]
  {
    s.(xVel := velocities.0 + 0.5 * Acceleration(s).0 * s.timestep,
       yVel := velocities.1 + 0.5 * Acceleration(s).1 * s.timestep,
       trail := s.trail + [(s.x, s.y)])
  }

  /** The eight per-axis slopes one RK4 step collects for a body. */
  datatype Slopes = Slopes(kx0: Point, kx1: Point, kx2: Point, kx3: Point,
                           kv0: Point, kv1: Point, kv2: Point, kv3: Point)

  /** `rk4_final`: the weighted combination `(k0 + 2 k1 + 2 k2 + k3) / 6` added to the saved state. */
  function Rk4FinalStep(s: ObjectState, originalCoords: Point, originalVels: Point, k: Slopes): (r: ObjectState)
    ensures r.forceX == 0.0 && r.forceY == 0.0
    ensures r.trail == s.trail + [(r.x, r.y)]
    ensures r.mass == s.mass && r.timestep == s.timestep && r.prevX == s.prevX && r.prevY == s.prevY
  {
    var x := originalCoords.0 + (1.0 / 6.0) * (k.kx0.0 + 2.0 * k.kx1.0 + 2.0 * k.kx2.0 + k.kx3.0);
    var y := originalCoords.1 + (1.0 / 6.0) * (k.kx0.1 + 2.0 * k.kx1.1 + 2.0 * k.kx2.1 + k.kx3.1);
    s.(x := x, y := y,
       xVel := originalVels.0 + (1.0 / 6.0) * (k.kv0.0 + 2.0 * k.kv1.0 + 2.0 * k.kv2.0 + k.kv3.0),
       yVel := originalVels.1 + (1.0 / 6.0) * (k.kv0.1 + 2.0 * k.kv1.1 + 2.0 * k.kv2.1 + k.kv3.1),
       trail := s.trail + [(x, y)],
       forceX := 0.0, forceY := 0.0)
  }

  // ---------------------------------------------------------------------------
  // Reference motion: a body under a constant force

  /** Uniformly accelerated motion over one timestep from position `p` and velocity `v` with acceleration `a`. */
  function UniformPosition(p: real, v: real, a: real, dt: real): real {
    p + v * dt + a * dt * dt / 2.0
  }

  function UniformVelocity(v: real, a: real, dt: real): real {
    v + a * dt
  }

  /** Explicit Euler lags the uniform-acceleration position by exactly `a dt^2 / 2` per axis. */
  lemma {:induction false} EulerPositionError(s: ObjectState)
    requires s.mass != 0.0
    ensures EulerStep(s).x == UniformPosition(s.x, s.xVel, Acceleration(s).0, s.timestep) - Acceleration(s).0 * s.timestep * s.timestep / 2.0
    ensures EulerStep(s).y == UniformPosition(s.y, s.yVel, Acceleration(s).1, s.timestep) - Acceleration(s).1 * s.timestep * s.timestep / 2.0
    ensures EulerStep(s).xVel == UniformVelocity(s.xVel, Acceleration(s).0, s.timestep)
    ensures EulerStep(s).yVel == UniformVelocity(s.yVel, Acceleration(s).1, s.timestep)
  {
    var e, a := EulerStep(s), Acceleration(s);
    assert e.x == s.x + s.xVel * s.timestep && e.y == s.y + s.yVel * s.timestep;
    assert e.xVel == UniformVelocity(s.xVel, a.0, s.timestep);
    assert e.yVel == UniformVelocity(s.yVel, a.1, s.timestep);
  }

  /** The half-kick step lands on the uniform-acceleration position, with only half the velocity change. */
  lemma {:induction false} HalfKickPosition(s: ObjectState)
    requires s.mass != 0.0
    ensures HalfKickStep(s).x == UniformPosition(s.x, s.xVel, Acceleration(s).0, s.timestep)
    ensures HalfKickStep(s).y == UniformPosition(s.y, s.yVel, Acceleration(s).1, s.timestep)
  {
  }

  /** One axis of position Verlet: from the uniform-motion predecessor, `2 x - prev + a dt^2` is the uniform position. */
  lemma VerletAxis(x: real, prev: real, v: real, a: real, dt: real)
    ensures prev == x - v * dt + a * dt * dt / 2.0 ==> 2.0 * x - prev + a * (dt * dt) == UniformPosition(x, v, a, dt)
  {
    assert a * (dt * dt) == a * dt * dt;
  }

  /**
   * Position Verlet started, on an axis, from a history consistent with uniform
   * acceleration (`prev = x - v dt + a dt^2 / 2`) reproduces the
   * uniform-acceleration position on that axis; the velocity always gets the
   * full kick.
   */
  lemma {:induction false} VerletUniform(s: ObjectState)
    requires s.mass != 0.0
    ensures s.prevX == s.x - s.xVel * s.timestep + Acceleration(s).0 * s.timestep * s.timestep / 2.0 ==>
      VerletStep(s).x == UniformPosition(s.x, s.xVel, Acceleration(s).0, s.timestep)
    ensures s.prevY == s.y - s.yVel * s.timestep + Acceleration(s).1 * s.timestep * s.timestep / 2.0 ==>
      VerletStep(s).y == UniformPosition(s.y, s.yVel, Acceleration(s).1, s.timestep)
    ensures VerletStep(s).xVel == UniformVelocity(s.xVel, Acceleration(s).0, s.timestep)
    ensures VerletStep(s).yVel == UniformVelocity(s.yVel, Acceleration(s).1, s.timestep)
  {
    var e, a := VerletStep(s), Acceleration(s);
    assert e.xVel == UniformVelocity(s.xVel, a.0, s.timestep);
    assert e.yVel == UniformVelocity(s.yVel, a.1, s.timestep);
    assert e.x == 2.0 * s.x - s.prevX + a.0 * (s.timestep * s.timestep);
    assert e.y == 2.0 * s.y - s.prevY + a.1 * (s.timestep * s.timestep);
    VerletAxis(s.x, s.prevX, s.xVel, a.0, s.timestep);
    VerletAxis(s.y, s.prevY, s.yVel, a.1, s.timestep);
  }

  /**
   * The two halves of velocity Verlet, with the force re-evaluated to the same
   * value between them, reproduce uniformly accelerated motion exactly.
   */
  function VelocityVerletBoth(s: ObjectState): ObjectState
    requires s.mass != 0.0
  {
    VelocityVerletSecond(VelocityVerletFirst(s).(forceX := s.forceX, forceY := s.forceY), HalfStepVelocity(s))
  }

  lemma {:induction false} VelocityVerletUniformPosition(s: ObjectState)
    requires s.mass != 0.0
    ensures VelocityVerletBoth(s).x == UniformPosition(s.x, s.xVel, Acceleration(s).0, s.timestep)
    ensures VelocityVerletBoth(s).y == UniformPosition(s.y, s.yVel, Acceleration(s).1, s.timestep)
  {
    var first := VelocityVerletFirst(s);
    assert VelocityVerletBoth(s).x == first.x;
    assert VelocityVerletBoth(s).y == first.y;
    HalfSquare(s.x, s.xVel, Acceleration(s).0, s.timestep);
    HalfSquare(s.y, s.yVel, Acceleration(s).1, s.timestep);
  }

  /** The velocity-Verlet position update, written with `0.5 a (dt dt)`, is the uniform-acceleration position. */
  lemma HalfSquare(p: real, v: real, a: real, dt: real)
    ensures p + v * dt + 0.5 * a * (dt * dt) == UniformPosition(p, v, a, dt)
  {
    assert 0.5 * a * (dt * dt) == a * dt * dt / 2.0;
  }

  lemma {:induction false} VelocityVerletUniformVelocity(s: ObjectState)
    requires s.mass != 0.0
    ensures VelocityVerletBoth(s).xVel == UniformVelocity(s.xVel, Acceleration(s).0, s.timestep)
    ensures VelocityVerletBoth(s).yVel == UniformVelocity(s.yVel, Acceleration(s).1, s.timestep)
  {
    assert VelocityVerletBoth(s).xVel == (s.xVel + 0.5 * Acceleration(s).0 * s.timestep) + 0.5 * Acceleration(s).0 * s.timestep;
    assert VelocityVerletBoth(s).yVel == (s.yVel + 0.5 * Acceleration(s).1 * s.timestep) + 0.5 * Acceleration(s).1 * s.timestep;
  }

  // ---------------------------------------------------------------------------
  // The body

  class Object {
    var x: real
    var y: real
    var xVel: real
    var yVel: real
    var prevX: real
    var prevY: real
    var mass: real
    var forceX: real
    var forceY: real
    var timestep: real
    var trail: seq<Point>

    /** The state the integrators work on. */
    function State(): ObjectState
      reads this
    {
      ObjectState(x, y, xVel, yVel, prevX, prevY, forceX, forceY, mass, timestep, trail)
    }

    /** A body at rest at `(x, y)` with an empty accumulator and no trail. */
    constructor (x: real, y: real, mass: real, timestep: real)
      ensures State() == ObjectState(x, y, 0.0, 0.0, x, y, 0.0, 0.0, mass, timestep, [])
    {
      this.x := x;
      this.y := y;
      this.xVel := 0.0;
      this.yVel := 0.0;
      this.prevX := x;
      this.prevY := y;
      this.mass := mass;
      this.forceX := 0.0;
      this.forceY := 0.0;
      this.timestep := timestep;
      this.trail := [];
    }

    method EulerMethod()
      requires mass != 0.0
      modifies this
      ensures State() == EulerStep(old(State()))
    {
      var xVel0 := xVel;
      var yVel0 := yVel;
      x := x + xVel0 * timestep;
      y := y + yVel0 * timestep;
      xVel := xVel + forceX / mass * timestep;
      yVel := yVel + forceY / mass * timestep;
      trail := trail + [(x, y)];
      forceX := 0.0;
      forceY := 0.0;
      ghost var step := EulerStep(old(State()));
      assert x == step.x && y == step.y;
    }

    method SemiImplicitEuler()
      requires mass != 0.0
      modifies this
      ensures State() == EulerStep(old(State()))
    {
      x := x + xVel * timestep;
      y := y + yVel * timestep;
      xVel := xVel + forceX / mass * timestep;
      yVel := yVel + forceY / mass * timestep;
      trail := trail + [(x, y)];
      forceX := 0.0;
      forceY := 0.0;
      ghost var step := EulerStep(old(State()));
      assert x == step.x && y == step.y;
    }

    method Rk()
      requires mass != 0.0
      modifies this
      ensures State() == HalfKickStep(old(State()))
    {
      xVel := xVel + 0.5 * (forceX / mass) * timestep;
      yVel := yVel + 0.5 * (forceY / mass) * timestep;
      x := x + xVel * timestep;
      y := y + yVel * timestep;
      trail := trail + [(x, y)];
      forceX := 0.0;
      forceY := 0.0;
      ghost var step := HalfKickStep(old(State()));
      assert x == step.x && y == step.y;
    }

    method Verlet()
      requires mass != 0.0
      modifies this
      ensures State() == VerletStep(old(State()))
    {
      ghost var step := VerletStep(State());
      var dt := timestep;
      var tempX := x;
      var tempY := y;
      x := 2.0 * x - prevX + (forceX / mass) * (dt * dt);
      y := 2.0 * y - prevY + (forceY / mass) * (dt * dt);
      prevX := tempX;
      prevY := tempY;
      xVel := xVel + (forceX / mass) * dt;
      yVel := yVel + (forceY / mass) * dt;
      assert x == step.x && y == step.y && xVel == step.xVel && yVel == step.yVel;
      trail := trail + [(x, y)];
      forceX := 0.0;
      forceY := 0.0;
    }

    method VelocityVerlet1() returns (velocities: Point)
      requires mass != 0.0
      modifies this
      ensures State() == VelocityVerletFirst(old(State()))
      ensures velocities == HalfStepVelocity(old(State()))
    {
      ghost var target, half := VelocityVerletFirst(State()), HalfStepVelocity(State());
      var dt := timestep;
      x := x + xVel * dt + 0.5 * (forceX / mass) * (dt * dt);
      y := y + yVel * dt + 0.5 * (forceY / mass) * (dt * dt);
      var vX := xVel + 0.5 * (forceX / mass) * dt;
      var vY := yVel + 0.5 * (forceY / mass) * dt;
      assert x == target.x && y == target.y;
      assert vX == half.0 && vY == half.1;
      forceX := 0.0;
      forceY := 0.0;
      velocities := (vX, vY);
    }

    method VelocityVerlet2(velocities: Point)
      requires mass != 0.0
      modifies this
      ensures State() == VelocityVerletSecond(old(State()), velocities)
    {
      var dt := timestep;
      var newAX := forceX / mass;
      var newAY := forceY / mass;
      xVel := velocities.0 + 0.5 * newAX * dt;
      yVel := velocities.1 + 0.5 * newAY * dt;
      trail := trail + [(x, y)];
    }

    /** First RK4 stage: the slopes at the start of the step; only the accumulator changes. */
    method Rk4First() returns (kx0x: real, kv0x: real, kx1x: real, kx0y: real, kv0y: real, kx1y: real)
      requires mass != 0.0
      modifies this
      ensures State() == Cleared(old(State()))
      ensures kv0x == Kick(old(State())).0 && kv0y == Kick(old(State())).1
      ensures kx0x == Drift(old(State())).0 && kx0y == Drift(old(State())).1
      ensures kx1x == HalfKickDrift(Velocity(old(State())), old(State())).0
      ensures kx1y == HalfKickDrift(Velocity(old(State())), old(State())).1
    {
      var dt := timestep;
      kx0x := xVel * dt;
      kx0y := yVel * dt;
      kv0x := (forceX / mass) * dt;
      kv0y := (forceY / mass) * dt;
      kx1x := (xVel + 0.5 * kv0x) * dt;
      kx1y := (yVel + 0.5 * kv0y) * dt;
      forceX := 0.0;
      forceY := 0.0;
    }

    /**
     * Second RK4 stage. The first two arguments are overwritten before they
     * are read, so the results do not depend on them.
     */
    method Rk4Second(staleKv1x: real, staleKv1y: real, vt: Point) returns (kx2x: real, kv1x: real, kx2y: real, kv1y: real)
      requires mass != 0.0
      modifies this
      ensures State() == Cleared(old(State()))
      ensures kv1x == Kick(old(State())).0 && kv1y == Kick(old(State())).1
      ensures kx2x == HalfKickDrift(vt, old(State())).0 && kx2y == HalfKickDrift(vt, old(State())).1
    {
      var dt := timestep;
      kv1x := (forceX / mass) * dt;
      kv1y := (forceY / mass) * dt;
      kx2x := (vt.0 + 0.5 * kv1x) * dt;
      kx2y := (vt.1 + 0.5 * kv1y) * dt;
      forceX := 0.0;
      forceY := 0.0;
    }

    method Rk4Third(vt: Point) returns (kx3x: real, kv2x: real, kx3y: real, kv2y: real)
      requires mass != 0.0
      modifies this
      ensures State() == Cleared(old(State()))
      ensures kv2x == Kick(old(State())).0 && kv2y == Kick(old(State())).1
      ensures kx3x == FullKickDrift(vt, old(State())).0 && kx3y == FullKickDrift(vt, old(State())).1
    {
      var dt := timestep;
      kv2x := (forceX / mass) * dt;
      kv2y := (forceY / mass) * dt;
      kx3x := (vt.0 + kv2x) * dt;
      kx3y := (vt.1 + kv2y) * dt;
      forceX := 0.0;
      forceY := 0.0;
    }

    method Rk4Fourth() returns (kv3x: real, kv3y: real)
      requires mass != 0.0
      modifies this
      ensures State() == Cleared(old(State()))
      ensures kv3x == Kick(old(State())).0 && kv3y == Kick(old(State())).1
    {
      var dt := timestep;
      kv3x := (forceX / mass) * dt;
      kv3y := (forceY / mass) * dt;
      forceX := 0.0;
      forceY := 0.0;
    }

    method Rk4Final(originalCoords: Point, originalVels: Point, k: Slopes)
      modifies this
      ensures State() == Rk4FinalStep(old(State()), originalCoords, originalVels, k)
    {
      x := originalCoords.0 + (1.0 / 6.0) * (k.kx0.0 + 2.0 * k.kx1.0 + 2.0 * k.kx2.0 + k.kx3.0);
      y := originalCoords.1 + (1.0 / 6.0) * (k.kx0.1 + 2.0 * k.kx1.1 + 2.0 * k.kx2.1 + k.kx3.1);
      xVel := originalVels.0 + (1.0 / 6.0) * (k.kv0.0 + 2.0 * k.kv1.0 + 2.0 * k.kv2.0 + k.kv3.0);
      yVel := originalVels.1 + (1.0 / 6.0) * (k.kv0.1 + 2.0 * k.kv1.1 + 2.0 * k.kv2.1 + k.kv3.1);
      trail := trail + [(x, y)];
      forceX := 0.0;
      forceY := 0.0;
      ghost var step := Rk4FinalStep(old(State()), originalCoords, originalVels, k);
      assert x == step.x && y == step.y;
    }

    /** Kinetic energy `m |v|^2 / 2`: never negative for a non-negative mass, zero at rest. */
    function Energy(): (e: real)
      reads this
      ensures mass >= 0.0 ==> e >= 0.0
      ensures xVel == 0.0 && yVel == 0.0 ==> e == 0.0
    {
      SumOfSquares(xVel, yVel);
      0.5 * mass * (xVel * xVel + yVel * yVel)
    }
  }

  /** A square is never negative, and is positive away from zero. */
  lemma Square(a: real)
    ensures a * a >= 0.0
    ensures a != 0.0 ==> a * a > 0.0
  {
    if a > 0.0 {
      assert a * a > 0.0;
    } else if a < 0.0 {
      assert a * a == (-a) * (-a);
      assert (-a) * (-a) > 0.0;
    }
  }

  /** A sum of two squares is never negative, and is positive unless both terms are zero. */
  lemma SumOfSquares(a: real, b: real)
    ensures a * a + b * b >= 0.0
    ensures a != 0.0 || b != 0.0 ==> a * a + b * b > 0.0
  {
    Square(a);
    Square(b);
  }

  /** The states of a list of bodies, in order. */
  function States(objects: seq<Object>): (r: seq<ObjectState>)
    reads objects
    ensures |r| == |objects| && forall i :: 0 <= i < |objects| ==> r[i] == objects[i].State()
  {
    seq(|objects|, i requires 0 <= i < |objects| reads objects => objects[i].State())
  }

  // ---------------------------------------------------------------------------
  // Spring

  /**
   * The unit direction `(cos theta, sin theta)` with `theta = atan2(dy, dx)`,
   * given the separation's length `d`; `atan2(0, 0)` is 0, so coincident
   * points give `(1, 0)`.
   */
  function Direction(dx: real, dy: real, d: real): (r: Point)
    requires d >= 0.0 && d * d == dx * dx + dy * dy
    ensures r.0 * r.0 + r.1 * r.1 == 1.0
    ensures d > 0.0 ==> r.0 * d == dx && r.1 * d == dy
  {
    if d > 0.0 then
      UnitDirection(dx, dy, d);
      (dx / d, dy / d)
    else (1.0, 0.0)
  }

  lemma UnitDirection(dx: real, dy: real, d: real)
    requires d > 0.0 && d * d == dx * dx + dy * dy
    ensures (dx / d) * (dx / d) + (dy / d) * (dy / d) == 1.0
  {
    var c, s := dx / d, dy / d;
    assert c * d == dx && s * d == dy;
    calc {
      (c * c + s * s) * (d * d);
      (c * d) * (c * d) + (s * d) * (s * d);
      dx * dx + dy * dy;
      d * d;
    }
    assert d * d > 0.0;
  }

  /**
   * The force `force` along `Direction(dx, dy, d)` has magnitude `|force|`;
   * when `d > 0` it is parallel to `(dx, dy)` and its projection on it is `force * d`.
   */
  lemma SpringForceAlignment(dx: real, dy: real, d: real, force: real)
    requires d >= 0.0 && d * d == dx * dx + dy * dy
    ensures var dir := Direction(dx, dy, d);
      (dir.0 * force) * (dir.0 * force) + (dir.1 * force) * (dir.1 * force) == force * force
    ensures var dir := Direction(dx, dy, d);
      d > 0.0 ==> (dir.0 * force) * dy == (dir.1 * force) * dx
    ensures var dir := Direction(dx, dy, d);
      d > 0.0 ==> (dir.0 * force) * dx + (dir.1 * force) * dy == force * d
  {
    var dir := Direction(dx, dy, d);
    calc {
      (dir.0 * force) * (dir.0 * force) + (dir.1 * force) * (dir.1 * force);
      (dir.0 * dir.0 + dir.1 * dir.1) * (force * force);
      force * force;
    }
    if d > 0.0 {
      assert dir.0 * d == dx && dir.1 * d == dy;
      calc {
        (dir.0 * force) * dx + (dir.1 * force) * dy;
        force * (dir.0 * dx + dir.1 * dy);
        force * (dir.0 * (dir.0 * d) + dir.1 * (dir.1 * d));
        force * ((dir.0 * dir.0 + dir.1 * dir.1) * d);
        force * d;
      }
      calc {
        (dir.0 * force) * dy;
        (dir.0 * force) * (dir.1 * d);
        (dir.1 * force) * (dir.0 * d);
        (dir.1 * force) * dx;
      }
    }
  }

  /** A Hookean spring of rest length `length` and stiffness `k` between two bodies. */
  class Spring {
    var p1: Object
    var p2: Object
    var length: real
    var k: real

    constructor (p1: Object, p2: Object, length: real, k: real)
      ensures this.p1 == p1 && this.p2 == p2 && this.length == length && this.k == k
    {
      this.p1 := p1;
      this.p2 := p2;
      this.length := length;
      this.k := k;
    }

    /** `distance` is the length of `p1 - p2`, the square root the source takes. */
    ghost predicate IsSeparation(distance: real)
      reads this, p1, p2
    {
      distance >= 0.0 && distance * distance == (p1.x - p2.x) * (p1.x - p2.x) + (p1.y - p2.y) * (p1.y - p2.y)
    }

    /**
     * `calc_force`: the force on `p1`, of magnitude `k |length - distance|`
     * along the line through both bodies: pushing `p1` away from `p2` when
     * compressed, pulling it back when stretched.
     */
    function CalcForce(distance: real): (f: Point)
      requires IsSeparation(distance)
      reads this, p1, p2
      ensures f.0 * f.0 + f.1 * f.1 == (k * (length - distance)) * (k * (length - distance))
      ensures distance > 0.0 ==> f.0 * (p1.y - p2.y) == f.1 * (p1.x - p2.x)
      ensures distance > 0.0 ==> f.0 * (p1.x - p2.x) + f.1 * (p1.y - p2.y) == k * (length - distance) * distance
      ensures distance == 0.0 ==> f.0 == k * length && f.1 == 0.0
    {
      var dx := p1.x - p2.x;
      var dy := p1.y - p2.y;
      var force := k * (length - distance);
      var dir := Direction(dx, dy, distance);
      SpringForceAlignment(dx, dy, distance, force);
      (dir.0 * force, dir.1 * force)
    }

    /**
     * `add_forces`: equal and opposite contributions to the two accumulators,
     * so their sum is unchanged; a spring from a body to itself adds nothing.
     */
    method AddForces(distance: real)
      requires IsSeparation(distance)
      modifies p1`forceX, p1`forceY, p2`forceX, p2`forceY
      ensures p1 != p2 ==> (
        && p1.forceX == old(p1.forceX) + old(CalcForce(distance)).0
        && p1.forceY == old(p1.forceY) + old(CalcForce(distance)).1
        && p2.forceX == old(p2.forceX) - old(CalcForce(distance)).0
        && p2.forceY == old(p2.forceY) - old(CalcForce(distance)).1)
      ensures p1 == p2 ==> p1.forceX == old(p1.forceX) && p1.forceY == old(p1.forceY)
      ensures p1.forceX + p2.forceX == old(p1.forceX + p2.forceX)
      ensures p1.forceY + p2.forceY == old(p1.forceY + p2.forceY)
    {
      var f := CalcForce(distance);
      p1.forceX := p1.forceX + f.0;
      p1.forceY := p1.forceY + f.1;
      p2.forceX := p2.forceX + -f.0;
      p2.forceY := p2.forceY + -f.1;
    }

    /** Elastic energy `k (distance - length)^2 / 2`: never negative for a non-negative stiffness, zero at the rest length. */
    function Energy(distance: real): (e: real)
      requires IsSeparation(distance)
      reads this, p1, p2
      ensures k >= 0.0 ==> e >= 0.0
      ensures distance == length ==> e == 0.0
    {
      Square(distance - length);
      0.5 * k * ((distance - length) * (distance - length))
    }
  }

  // ---------------------------------------------------------------------------
  // Gravity

  /** `potential_energy`'s sum of `m g y` over the scene, taken in list order. */
  function GravityPotential(states: seq<ObjectState>, strength: real): real
    decreases |states|
  {
    if |states| == 0 then 0.0
    else GravityPotential(states[..|states| - 1], strength)
         + states[|states| - 1].mass * strength * states[|states| - 1].y
  }

  /**
   * Raising body `i` by `h` raises the potential by `m_i g h`: the force that
   * `add_forces` applies, `-g m_i` in y, is minus the gradient of this potential.
   */
  lemma {:induction false} GravityPotentialRaise(states: seq<ObjectState>, strength: real, i: nat, h: real)
    requires i < |states|
    ensures GravityPotential(states[i := states[i].(y := states[i].y + h)], strength)
         == GravityPotential(states, strength) + states[i].mass * strength * h
    decreases |states|
  {
    var n := |states| - 1;
    var raised := states[i := states[i].(y := states[i].y + h)];
    if i == n {
      assert raised[..n] == states[..n];
    } else {
      assert raised[..n] == states[..n][i := states[i].(y := states[i].y + h)];
      GravityPotentialRaise(states[..n], strength, i, h);
    }
  }

  /** The y force `-g m` that gravity of strength `g` exerts on a body of mass `m`. */
  function Weight(strength: real, mass: real): real {
    -strength * mass
  }

  /** Uniform gravity of the given strength acting in -y on every body of `scene`. */
  class Gravity {
    var strength: real
    var scene: seq<Object>

    constructor (scene: seq<Object>, strength: real)
      ensures this.scene == scene && this.strength == strength
    {
      this.strength := strength;
      this.scene := scene;
    }

    /**
     * `add_forces`: every listed body's y accumulator drops by `g m` once per
     * time it is listed; nothing else changes.
     */
    method AddForces()
      modifies scene`forceY
      ensures forall j :: 0 <= j < |scene| ==>
        scene[j].forceY == old(scene[j].forceY) + Repeated(Occurrences(scene, scene[j]), Weight(strength, scene[j].mass))
    {
      var i := 0;
      while i < |scene|
        invariant 0 <= i <= |scene|
        invariant forall j :: 0 <= j < |scene| ==>
          scene[j].forceY == old(scene[j].forceY) + Repeated(Occurrences(scene[..i], scene[j]), Weight(strength, scene[j].mass))
      {
        var body := scene[i];
        label Before:
        body.forceY := body.forceY + -strength * body.mass;
        forall j | 0 <= j < |scene|
          ensures scene[j].forceY == old(scene[j].forceY) + Repeated(Occurrences(scene[..i + 1], scene[j]), Weight(strength, scene[j].mass))
        {
          var o := scene[j];
          var n, w := Occurrences(scene[..i], o), Weight(strength, o.mass);
          assert old@Before(o.forceY) == old(o.forceY) + Repeated(n, w);
          OccurrencesStep(scene, i, o);
          if o == body {
            assert o.forceY == old@Before(o.forceY) + w;
            assert Repeated(n + 1, w) == Repeated(n, w) + w;
          } else {
            assert o.forceY == old@Before(o.forceY);
          }
        }
        i := i + 1;
      }
      assert scene[..i] == scene;
    }

    /** `potential_energy`: the sum of `m g y` over the scene, accumulated in list order. */
    method PotentialEnergy() returns (potentialEnergy: real)
      ensures potentialEnergy == GravityPotential(States(scene), strength)
    {
      potentialEnergy := 0.0;
      var i := 0;
      while i < |scene|
        invariant 0 <= i <= |scene|
        invariant potentialEnergy == GravityPotential(States(scene)[..i], strength)
      {
        assert States(scene)[..i + 1][..i] == States(scene)[..i];
        potentialEnergy := potentialEnergy + scene[i].mass * strength * scene[i].y;
        i := i + 1;
      }
      assert States(scene)[..i] == States(scene);
    }
  }
}
