/**
 * The fourth-order Runge-Kutta driver for vector particles: the four stage
 * helpers, `apply_rk4`, and `runge_kutta_4th_order`, which evaluates the
 * forces four times per step and moves every particle between evaluations.
 */
module ParticleRk4 {
  import opened LinearAlgebra
  import opened Particles
  import Objects

  // ---------------------------------------------------------------------------
  // The stage helpers

  /** `s` with its force accumulator replaced by a fresh zero array. */
  function Cleared(s: ParticleState): ParticleState {
    s.(forceAccumulator := Zero)
  }

  /** `v dt`: the displacement of the particle's own velocity over one timestep (`kx0`). */
  function Drift(s: ParticleState): Vec2 {
    s.velocity.Times(s.timestep)
  }

  /** `(F / m) dt`: the velocity change the accumulated force produces over one timestep. */
  function Kick(s: ParticleState): Vec2
    requires s.mass != 0.0
  {
    s.forceAccumulator.Over(s.mass).Times(s.timestep)
  }

  /** `(v + kv / 2) dt` for velocity `v` and the kick of `s`'s force (`kx1`, `kx2`). */
  function HalfKickDrift(v: Vec2, s: ParticleState): Vec2
    requires s.mass != 0.0
  {
    v.Plus(Kick(s).Over(2.0)).Times(s.timestep)
  }

  /** `(v + kv) dt` for velocity `v` and the kick of `s`'s force (`kx3`). */
  function FullKickDrift(v: Vec2, s: ParticleState): Vec2
    requires s.mass != 0.0
  {
    v.Plus(Kick(s)).Times(s.timestep)
  }

  /** `rk4_1`: the slopes at the start of the step; only the accumulator changes. */
  method Rk4First(p1: Particle) returns (kx0: Vec2, kv0: Vec2, kx1: Vec2)
    requires p1.mass != 0.0
    modifies p1`forceAccumulator
    ensures p1.State() == Cleared(old(p1.State()))
    ensures kx0 == Drift(old(p1.State())) && kv0 == Kick(old(p1.State()))
    ensures kx1 == HalfKickDrift(old(p1.velocity), old(p1.State()))
  {
    var dt := p1.timestep;
    kx0 := p1.velocity.Times(dt);
    kv0 := p1.forceAccumulator.Over(p1.mass).Times(dt);
    kx1 := p1.velocity.Plus(kv0.Over(2.0)).Times(dt);
    p1.forceAccumulator := Zero;
  }

  /** `rk4_2`: the second velocity slope and the position slope from the saved velocity. */
  method Rk4Second(p1: Particle, orgVel: Vec2) returns (kx2: Vec2, kv1: Vec2)
    requires p1.mass != 0.0
    modifies p1`forceAccumulator
    ensures p1.State() == Cleared(old(p1.State()))
    ensures kx2 == HalfKickDrift(orgVel, old(p1.State())) && kv1 == Kick(old(p1.State()))
  {
    var dt := p1.timestep;
    kv1 := p1.forceAccumulator.Over(p1.mass).Times(dt);
    kx2 := orgVel.Plus(kv1.Over(2.0)).Times(dt);
    p1.forceAccumulator := Zero;
  }

  /** `rk4_3`: the third velocity slope and the full-step position slope from the saved velocity. */
  method Rk4Third(p1: Particle, orgVel: Vec2) returns (kx3: Vec2, kv2: Vec2)
    requires p1.mass != 0.0
    modifies p1`forceAccumulator
    ensures p1.State() == Cleared(old(p1.State()))
    ensures kx3 == FullKickDrift(orgVel, old(p1.State())) && kv2 == Kick(old(p1.State()))
  {
    var dt := p1.timestep;
    kv2 := p1.forceAccumulator.Over(p1.mass).Times(dt);
    kx3 := orgVel.Plus(kv2).Times(dt);
    p1.forceAccumulator := Zero;
  }

  /** `rk4_4`: the last velocity slope. */
  method Rk4Fourth(p1: Particle) returns (kv3: Vec2)
    requires p1.mass != 0.0
    modifies p1`forceAccumulator
    ensures p1.State() == Cleared(old(p1.State()))
    ensures kv3 == Kick(old(p1.State()))
  {
    var dt := p1.timestep;
    kv3 := p1.forceAccumulator.Over(p1.mass).Times(dt);
    p1.forceAccumulator := Zero;
  }

  /** The eight slopes one RK4 step collects for a particle. */
  datatype Slopes = Slopes(kx0: Vec2, kx1: Vec2, kx2: Vec2, kx3: Vec2, kv0: Vec2, kv1: Vec2, kv2: Vec2, kv3: Vec2)

  /** `(k0 + 2 k1 + 2 k2 + k3) / 6`. */
  function Weighted(k0: Vec2, k1: Vec2, k2: Vec2, k3: Vec2): Vec2 {
    k0.Plus(k1.Times(2.0)).Plus(k2.Times(2.0)).Plus(k3).Over(6.0)
  }

  /** `apply_rk4`: the weighted slopes added to the saved state, the new position appended to the trail. */
  function ApplyStep(s: ParticleState, k: Slopes, orgCoord: Vec2, orgVel: Vec2): (r: ParticleState)
    ensures r.position == orgCoord.Plus(Weighted(k.kx0, k.kx1, k.kx2, k.kx3))
    ensures r.velocity == orgVel.Plus(Weighted(k.kv0, k.kv1, k.kv2, k.kv3))
    ensures r.trail == s.trail + [r.position] && r.forceAccumulator == Zero
    ensures r.mass == s.mass && r.timestep == s.timestep
  {
    var position := orgCoord.Plus(Weighted(k.kx0, k.kx1, k.kx2, k.kx3));
    s.(position := position,
       velocity := orgVel.Plus(Weighted(k.kv0, k.kv1, k.kv2, k.kv3)),
       trail := s.trail + [position],
       forceAccumulator := Zero)
  }

  method ApplyRk4(p1: Particle, k: Slopes, orgCoord: Vec2, orgVel: Vec2)
    modifies p1
    ensures p1.State() == ApplyStep(old(p1.State()), k, orgCoord, orgVel)
  {
    p1.position := orgCoord.Plus(k.kx0.Plus(k.kx1.Times(2.0)).Plus(k.kx2.Times(2.0)).Plus(k.kx3).Over(6.0));
    p1.velocity := orgVel.Plus(k.kv0.Plus(k.kv1.Times(2.0)).Plus(k.kv2.Times(2.0)).Plus(k.kv3).Over(6.0));
    p1.trail := p1.trail + [p1.position];
    p1.forceAccumulator := Zero;
  }

  // ---------------------------------------------------------------------------
  // The force callback

  /** What one `add_forces` call adds to particle `i`'s accumulator, given every particle's state. */
  type ForceLaw = (seq<ParticleState>, nat) -> Vec2

  /** The states after one `add_forces` call: each accumulator grows by the law's value, nothing else moves. */
  function WithForces(states: seq<ParticleState>, law: ForceLaw): (r: seq<ParticleState>)
    ensures |r| == |states|
    ensures forall i :: 0 <= i < |states| ==> Cleared(r[i]) == Cleared(states[i])
    ensures forall i :: 0 <= i < |states| ==> r[i].forceAccumulator == states[i].forceAccumulator.Plus(law(states, i))
    ensures Massive(states) ==> Massive(r)
  {
    seq(|states|, i requires 0 <= i < |states| =>
      states[i].(forceAccumulator := states[i].forceAccumulator.Plus(law(states, i))))
  }

  /**
   * The `add_forces` function the driver receives. Its effect is given by
   * `law`; `calls` counts how often the driver evaluates the forces.
   */
  class ForceField {
    const law: ForceLaw
    var calls: nat

    constructor (law: ForceLaw)
      ensures this.law == law && calls == 0
    {
      this.law := law;
      calls := 0;
    }

    method AddForces(particles: seq<Particle>)
      requires Distinct(particles)
      modifies particles`forceAccumulator, this`calls
      ensures States(particles) == WithForces(old(States(particles)), law)
      ensures calls == old(calls) + 1
    {
      var snapshot := States(particles);
      var i := 0;
      while i < |particles|
        invariant 0 <= i <= |particles|
        invariant forall j :: 0 <= j < i ==> particles[j].State() == WithForces(snapshot, law)[j]
        invariant forall j :: i <= j < |particles| ==> particles[j].State() == snapshot[j]
        invariant calls == old(calls)
      {
        var particle, f := particles[i], law(snapshot, i);
        particle.forceAccumulator := particle.forceAccumulator.Plus(f);
        assert particle.State() == WithForces(snapshot, law)[i];
        i := i + 1;
      }
      assert States(particles) == WithForces(snapshot, law);
      calls := calls + 1;
    }
  }

  // ---------------------------------------------------------------------------
  // The driver, `runge_kutta_4th_order`

  function ClearedAll(states: seq<ParticleState>): (r: seq<ParticleState>)
    ensures |r| == |states| && forall i :: 0 <= i < |states| ==> r[i] == Cleared(states[i])
    ensures Massive(states) ==> Massive(r)
  {
    seq(|states|, i requires 0 <= i < |states| => Cleared(states[i]))
  }

  function Drifts(states: seq<ParticleState>): (r: seq<Vec2>)
    ensures |r| == |states| && forall i :: 0 <= i < |states| ==> r[i] == Drift(states[i])
  {
    seq(|states|, i requires 0 <= i < |states| => Drift(states[i]))
  }

  function Kicks(states: seq<ParticleState>): (r: seq<Vec2>)
    requires Massive(states)
    ensures |r| == |states| && forall i :: 0 <= i < |states| ==> r[i] == Kick(states[i])
  {
    seq(|states|, i requires 0 <= i < |states| => Kick(states[i]))
  }

  function HalfKickDrifts(vels: seq<Vec2>, states: seq<ParticleState>): (r: seq<Vec2>)
    requires Massive(states) && |vels| == |states|
    ensures |r| == |states| && forall i :: 0 <= i < |states| ==> r[i] == HalfKickDrift(vels[i], states[i])
  {
    seq(|states|, i requires 0 <= i < |states| => HalfKickDrift(vels[i], states[i]))
  }

  function FullKickDrifts(vels: seq<Vec2>, states: seq<ParticleState>): (r: seq<Vec2>)
    requires Massive(states) && |vels| == |states|
    ensures |r| == |states| && forall i :: 0 <= i < |states| ==> r[i] == FullKickDrift(vels[i], states[i])
  {
    seq(|states|, i requires 0 <= i < |states| => FullKickDrift(vels[i], states[i]))
  }

  /** Every particle placed at `coords[i] + dx[i] / 2` with velocity `vels[i] + dv[i] / 2`. */
  function Midpoints(states: seq<ParticleState>, coords: seq<Vec2>, vels: seq<Vec2>, dx: seq<Vec2>, dv: seq<Vec2>): (r: seq<ParticleState>)
    requires |coords| == |vels| == |dx| == |dv| == |states|
    ensures |r| == |states| && (Massive(states) ==> Massive(r))
    ensures forall i :: 0 <= i < |states| ==>
      r[i] == states[i].(position := coords[i].Plus(dx[i].Over(2.0)), velocity := vels[i].Plus(dv[i].Over(2.0)))
  {
    seq(|states|, i requires 0 <= i < |states| =>
      states[i].(position := coords[i].Plus(dx[i].Over(2.0)), velocity := vels[i].Plus(dv[i].Over(2.0))))
  }

  /** Every particle placed at `coords[i] + dx[i]` with velocity `vels[i] + dv[i]`. */
  function Endpoints(states: seq<ParticleState>, coords: seq<Vec2>, vels: seq<Vec2>, dx: seq<Vec2>, dv: seq<Vec2>): (r: seq<ParticleState>)
    requires |coords| == |vels| == |dx| == |dv| == |states|
    ensures |r| == |states| && (Massive(states) ==> Massive(r))
    ensures forall i :: 0 <= i < |states| ==>
      r[i] == states[i].(position := coords[i].Plus(dx[i]), velocity := vels[i].Plus(dv[i]))
  {
    seq(|states|, i requires 0 <= i < |states| =>
      states[i].(position := coords[i].Plus(dx[i]), velocity := vels[i].Plus(dv[i])))
  }

  /** The four force evaluations of one step, as seen by the particles. */
  datatype Rk4Forces = Rk4Forces(f1: seq<ParticleState>, f2: seq<ParticleState>, f3: seq<ParticleState>, f4: seq<ParticleState>)

  function Rk4Evaluations(s0: seq<ParticleState>, law: ForceLaw): (r: Rk4Forces)
    requires Massive(s0)
    ensures |r.f1| == |r.f2| == |r.f3| == |r.f4| == |s0|
    ensures Massive(r.f1) && Massive(r.f2) && Massive(r.f3) && Massive(r.f4)
  {
    var coords, vels := Positions(s0), Velocities(s0);
    var f1 := WithForces(s0, law);
    var f2 := WithForces(Midpoints(ClearedAll(f1), coords, vels, Drifts(f1), Kicks(f1)), law);
    var f3 := WithForces(Midpoints(ClearedAll(f2), coords, vels, HalfKickDrifts(Velocities(f1), f1), Kicks(f2)), law);
    var f4 := WithForces(Endpoints(ClearedAll(f3), coords, vels, HalfKickDrifts(vels, f2), Kicks(f3)), law);
    Rk4Forces(f1, f2, f3, f4)
  }

  /** The eight slopes of particle `i` collected from the four force evaluations. */
  function Rk4Slopes(s0: seq<ParticleState>, e: Rk4Forces, i: nat): Slopes
    requires i < |s0| == |e.f1| == |e.f2| == |e.f3| == |e.f4|
    requires Massive(e.f1) && Massive(e.f2) && Massive(e.f3) && Massive(e.f4)
  {
    Slopes(Drift(e.f1[i]), HalfKickDrift(e.f1[i].velocity, e.f1[i]),
           HalfKickDrift(s0[i].velocity, e.f2[i]), FullKickDrift(s0[i].velocity, e.f3[i]),
           Kick(e.f1[i]), Kick(e.f2[i]), Kick(e.f3[i]), Kick(e.f4[i]))
  }

  /** The slopes of every particle. */
  function AllSlopes(s0: seq<ParticleState>, e: Rk4Forces): (r: seq<Slopes>)
    requires |s0| == |e.f1| == |e.f2| == |e.f3| == |e.f4|
    requires Massive(e.f1) && Massive(e.f2) && Massive(e.f3) && Massive(e.f4)
    ensures |r| == |s0| && forall i :: 0 <= i < |s0| ==> r[i] == Rk4Slopes(s0, e, i)
  {
    seq(|s0|, i requires 0 <= i < |s0| => Rk4Slopes(s0, e, i))
  }

  /** `apply_rk4` on every particle. */
  function AppliedAll(states: seq<ParticleState>, k: seq<Slopes>, coords: seq<Vec2>, vels: seq<Vec2>): (r: seq<ParticleState>)
    requires |k| == |coords| == |vels| == |states|
    ensures |r| == |states| && forall i :: 0 <= i < |states| ==> r[i] == ApplyStep(states[i], k[i], coords[i], vels[i])
  {
    seq(|states|, i requires 0 <= i < |states| => ApplyStep(states[i], k[i], coords[i], vels[i]))
  }

  /** What one `runge_kutta_4th_order` call does to the particles. */
  function Rk4Spec(s0: seq<ParticleState>, law: ForceLaw): (r: seq<ParticleState>)
    requires Massive(s0)
    ensures |r| == |s0|
  {
    var e := Rk4Evaluations(s0, law);
    AppliedAll(ClearedAll(e.f4), AllSlopes(s0, e), Positions(s0), Velocities(s0))
  }

  /** The first helper loop: `rk4_1` on every particle. */
  method FirstSlopes(particles: seq<Particle>) returns (kx0: seq<Vec2>, kx1: seq<Vec2>, kv0: seq<Vec2>)
    requires Distinct(particles) && Massive(States(particles))
    modifies particles`forceAccumulator
    ensures States(particles) == ClearedAll(old(States(particles)))
    ensures kx0 == Drifts(old(States(particles))) && kv0 == Kicks(old(States(particles)))
    ensures kx1 == HalfKickDrifts(Velocities(old(States(particles))), old(States(particles)))
  {
    ghost var s := States(particles);
    kx0, kx1, kv0 := [], [], [];
    var i := 0;
    while i < |particles|
      invariant 0 <= i <= |particles| && |kx0| == |kx1| == |kv0| == i
      invariant forall j :: 0 <= j < i ==>
        kx0[j] == Drift(s[j]) && kx1[j] == HalfKickDrift(s[j].velocity, s[j]) && kv0[j] == Kick(s[j])
      invariant forall j :: 0 <= j < i ==> particles[j].State() == Cleared(s[j])
      invariant forall j :: i <= j < |particles| ==> particles[j].State() == s[j]
    {
      var a, b, c := Rk4First(particles[i]);
      kx0, kx1, kv0 := kx0 + [a], kx1 + [c], kv0 + [b];
      i := i + 1;
    }
    assert States(particles) == ClearedAll(s);
  }

  /** The second helper loop: `rk4_2` on every particle with its saved velocity. */
  method SecondSlopes(particles: seq<Particle>, vels: seq<Vec2>) returns (kx2: seq<Vec2>, kv1: seq<Vec2>)
    requires Distinct(particles) && Massive(States(particles)) && |vels| == |particles|
    modifies particles`forceAccumulator
    ensures States(particles) == ClearedAll(old(States(particles)))
    ensures kx2 == HalfKickDrifts(vels, old(States(particles))) && kv1 == Kicks(old(States(particles)))
  {
    ghost var s := States(particles);
    kx2, kv1 := [], [];
    var i := 0;
    while i < |particles|
      invariant 0 <= i <= |particles| && |kx2| == |kv1| == i
      invariant forall j :: 0 <= j < i ==> kx2[j] == HalfKickDrift(vels[j], s[j]) && kv1[j] == Kick(s[j])
      invariant forall j :: 0 <= j < i ==> particles[j].State() == Cleared(s[j])
      invariant forall j :: i <= j < |particles| ==> particles[j].State() == s[j]
    {
      var a, b := Rk4Second(particles[i], vels[i]);
      kx2, kv1 := kx2 + [a], kv1 + [b];
      i := i + 1;
    }
    assert States(particles) == ClearedAll(s);
  }

  /** The third helper loop: `rk4_3` on every particle with its saved velocity. */
  method ThirdSlopes(particles: seq<Particle>, vels: seq<Vec2>) returns (kx3: seq<Vec2>, kv2: seq<Vec2>)
    requires Distinct(particles) && Massive(States(particles)) && |vels| == |particles|
    modifies particles`forceAccumulator
    ensures States(particles) == ClearedAll(old(States(particles)))
    ensures kx3 == FullKickDrifts(vels, old(States(particles))) && kv2 == Kicks(old(States(particles)))
  {
    ghost var s := States(particles);
    kx3, kv2 := [], [];
    var i := 0;
    while i < |particles|
      invariant 0 <= i <= |particles| && |kx3| == |kv2| == i
      invariant forall j :: 0 <= j < i ==> kx3[j] == FullKickDrift(vels[j], s[j]) && kv2[j] == Kick(s[j])
      invariant forall j :: 0 <= j < i ==> particles[j].State() == Cleared(s[j])
      invariant forall j :: i <= j < |particles| ==> particles[j].State() == s[j]
    {
      var a, b := Rk4Third(particles[i], vels[i]);
      kx3, kv2 := kx3 + [a], kv2 + [b];
      i := i + 1;
    }
    assert States(particles) == ClearedAll(s);
  }

  /** The fourth helper loop: `rk4_4` on every particle. */
  method FourthSlopes(particles: seq<Particle>) returns (kv3: seq<Vec2>)
    requires Distinct(particles) && Massive(States(particles))
    modifies particles`forceAccumulator
    ensures States(particles) == ClearedAll(old(States(particles)))
    ensures kv3 == Kicks(old(States(particles)))
  {
    ghost var s := States(particles);
    kv3 := [];
    var i := 0;
    while i < |particles|
      invariant 0 <= i <= |particles| && |kv3| == i
      invariant forall j :: 0 <= j < i ==> kv3[j] == Kick(s[j])
      invariant forall j :: 0 <= j < i ==> particles[j].State() == Cleared(s[j])
      invariant forall j :: i <= j < |particles| ==> particles[j].State() == s[j]
    {
      var a := Rk4Fourth(particles[i]);
      kv3 := kv3 + [a];
      i := i + 1;
    }
    assert States(particles) == ClearedAll(s);
  }

  /** A placing loop for the first two stages: saved state plus half the slopes. */
  method MoveToMidpoints(particles: seq<Particle>, coords: seq<Vec2>, vels: seq<Vec2>, dx: seq<Vec2>, dv: seq<Vec2>)
    requires Distinct(particles) && |coords| == |vels| == |dx| == |dv| == |particles|
    modifies particles`position, particles`velocity
    ensures States(particles) == Midpoints(old(States(particles)), coords, vels, dx, dv)
  {
    ghost var s := States(particles);
    var i := 0;
    while i < |particles|
      invariant 0 <= i <= |particles|
      invariant forall j :: 0 <= j < i ==> particles[j].State() == Midpoints(s, coords, vels, dx, dv)[j]
      invariant forall j :: i <= j < |particles| ==> particles[j].State() == s[j]
    {
      particles[i].position := coords[i].Plus(dx[i].Over(2.0));
      particles[i].velocity := vels[i].Plus(dv[i].Over(2.0));
      i := i + 1;
    }
    assert States(particles) == Midpoints(s, coords, vels, dx, dv);
  }

  /** The placing loop for the third stage: saved state plus the full slopes. */
  method MoveToEndpoints(particles: seq<Particle>, coords: seq<Vec2>, vels: seq<Vec2>, dx: seq<Vec2>, dv: seq<Vec2>)
    requires Distinct(particles) && |coords| == |vels| == |dx| == |dv| == |particles|
    modifies particles`position, particles`velocity
    ensures States(particles) == Endpoints(old(States(particles)), coords, vels, dx, dv)
  {
    ghost var s := States(particles);
    var i := 0;
    while i < |particles|
      invariant 0 <= i <= |particles|
      invariant forall j :: 0 <= j < i ==> particles[j].State() == Endpoints(s, coords, vels, dx, dv)[j]
      invariant forall j :: i <= j < |particles| ==> particles[j].State() == s[j]
    {
      particles[i].position := coords[i].Plus(dx[i]);
      particles[i].velocity := vels[i].Plus(dv[i]);
      i := i + 1;
    }
    assert States(particles) == Endpoints(s, coords, vels, dx, dv);
  }

  /** The last loop: `apply_rk4` on every particle. */
  method ApplyAll(particles: seq<Particle>, k: seq<Slopes>, coords: seq<Vec2>, vels: seq<Vec2>)
    requires Distinct(particles) && |k| == |coords| == |vels| == |particles|
    modifies particles
    ensures States(particles) == AppliedAll(old(States(particles)), k, coords, vels)
  {
    ghost var s := States(particles);
    var i := 0;
    while i < |particles|
      invariant 0 <= i <= |particles|
      invariant forall j :: 0 <= j < i ==> particles[j].State() == ApplyStep(s[j], k[j], coords[j], vels[j])
      invariant forall j :: i <= j < |particles| ==> particles[j].State() == s[j]
    {
      ApplyRk4(particles[i], k[i], coords[i], vels[i]);
      i := i + 1;
    }
    assert States(particles) == AppliedAll(s, k, coords, vels);
  }

  /** The first stage: forces at the start, their slopes, then every particle moved to the first midpoint. */
  method FirstStage(particles: seq<Particle>, field: ForceField, coords: seq<Vec2>, vels: seq<Vec2>)
    returns (kx0: seq<Vec2>, kx1: seq<Vec2>, kv0: seq<Vec2>, ghost f1: seq<ParticleState>)
    requires Distinct(particles) && Massive(States(particles)) && |coords| == |vels| == |particles|
    modifies particles`forceAccumulator, particles`position, particles`velocity, field`calls
    ensures f1 == WithForces(old(States(particles)), field.law) && field.calls == old(field.calls) + 1
    ensures kx0 == Drifts(f1) && kv0 == Kicks(f1) && kx1 == HalfKickDrifts(Velocities(f1), f1)
    ensures States(particles) == Midpoints(ClearedAll(f1), coords, vels, kx0, kv0)
  {
    field.AddForces(particles);
    f1 := States(particles);
    kx0, kx1, kv0 := FirstSlopes(particles);
    MoveToMidpoints(particles, coords, vels, kx0, kv0);
  }

  /** The second stage: forces at the first midpoint, their slopes, then every particle moved to the second. */
  method SecondStage(particles: seq<Particle>, field: ForceField, coords: seq<Vec2>, vels: seq<Vec2>, kx1: seq<Vec2>)
    returns (kx2: seq<Vec2>, kv1: seq<Vec2>, ghost f2: seq<ParticleState>)
    requires Distinct(particles) && Massive(States(particles)) && |coords| == |vels| == |kx1| == |particles|
    modifies particles`forceAccumulator, particles`position, particles`velocity, field`calls
    ensures f2 == WithForces(old(States(particles)), field.law) && field.calls == old(field.calls) + 1
    ensures kx2 == HalfKickDrifts(vels, f2) && kv1 == Kicks(f2)
    ensures States(particles) == Midpoints(ClearedAll(f2), coords, vels, kx1, kv1)
  {
    field.AddForces(particles);
    f2 := States(particles);
    kx2, kv1 := SecondSlopes(particles, vels);
    MoveToMidpoints(particles, coords, vels, kx1, kv1);
  }

  /** The third stage: forces at the second midpoint, their slopes, then every particle moved to the end point. */
  method ThirdStage(particles: seq<Particle>, field: ForceField, coords: seq<Vec2>, vels: seq<Vec2>, kx2: seq<Vec2>)
    returns (kx3: seq<Vec2>, kv2: seq<Vec2>, ghost f3: seq<ParticleState>)
    requires Distinct(particles) && Massive(States(particles)) && |coords| == |vels| == |kx2| == |particles|
    modifies particles`forceAccumulator, particles`position, particles`velocity, field`calls
    ensures f3 == WithForces(old(States(particles)), field.law) && field.calls == old(field.calls) + 1
    ensures kx3 == FullKickDrifts(vels, f3) && kv2 == Kicks(f3)
    ensures States(particles) == Endpoints(ClearedAll(f3), coords, vels, kx2, kv2)
  {
    field.AddForces(particles);
    f3 := States(particles);
    kx3, kv2 := ThirdSlopes(particles, vels);
    MoveToEndpoints(particles, coords, vels, kx2, kv2);
  }

  /** The last evaluation: forces at the end point and their kicks; the accumulators are consumed. */
  method FourthStage(particles: seq<Particle>, field: ForceField) returns (kv3: seq<Vec2>, ghost f4: seq<ParticleState>)
    requires Distinct(particles) && Massive(States(particles))
    modifies particles`forceAccumulator, field`calls
    ensures f4 == WithForces(old(States(particles)), field.law) && field.calls == old(field.calls) + 1
    ensures kv3 == Kicks(f4) && States(particles) == ClearedAll(f4)
  {
    field.AddForces(particles);
    f4 := States(particles);
    kv3 := FourthSlopes(particles);
  }

  /**
   * `runge_kutta_4th_order`: four force evaluations, the particles moved to
   * the stage points from their saved state between them, and the weighted
   * combination applied at the end.
   */
  method RungeKutta4thOrder(particles: seq<Particle>, field: ForceField)
    requires Distinct(particles) && Massive(States(particles))
    modifies particles, field`calls
    ensures States(particles) == Rk4Spec(old(States(particles)), field.law)
    ensures field.calls == old(field.calls) + 4
  {
    ghost var s0 := States(particles);
    var originalCoordinates, originalVelocities := Positions(States(particles)), Velocities(States(particles));
    var kx0, kx1, kv0, f1 := FirstStage(particles, field, originalCoordinates, originalVelocities);
    ghost var m1 := States(particles);
    var kx2, kv1, f2 := SecondStage(particles, field, originalCoordinates, originalVelocities, kx1);
    ghost var m2 := States(particles);
    var kx3, kv2, f3 := ThirdStage(particles, field, originalCoordinates, originalVelocities, kx2);
    ghost var m3 := States(particles);
    var kv3, f4 := FourthStage(particles, field);
    var k := Collected(kx0, kx1, kx2, kx3, kv0, kv1, kv2, kv3);
    Rk4Chain(s0, field.law, f1, m1, f2, m2, f3, m3, f4, kx0, kx1, kx2, kx3, kv0, kv1, kv2, kv3);
    ApplyAll(particles, k, originalCoordinates, originalVelocities);
  }

  /** The eight slope lists zipped into one `Slopes` per particle. */
  function Collected(kx0: seq<Vec2>, kx1: seq<Vec2>, kx2: seq<Vec2>, kx3: seq<Vec2>,
                     kv0: seq<Vec2>, kv1: seq<Vec2>, kv2: seq<Vec2>, kv3: seq<Vec2>): (r: seq<Slopes>)
    requires |kx0| == |kx1| == |kx2| == |kx3| == |kv0| == |kv1| == |kv2| == |kv3|
    ensures |r| == |kx0|
    ensures forall i :: 0 <= i < |r| ==> r[i] == Slopes(kx0[i], kx1[i], kx2[i], kx3[i], kv0[i], kv1[i], kv2[i], kv3[i])
  {
    seq(|kx0|, i requires 0 <= i < |kx0| => Slopes(kx0[i], kx1[i], kx2[i], kx3[i], kv0[i], kv1[i], kv2[i], kv3[i]))
  }

  /**
   * The states the driver passes through between its four force evaluations
   * are the ones `Rk4Evaluations` names, and the slopes its stages hand back
   * are the ones those evaluations determine.
   */
  lemma {:induction false} Rk4Chain(s0: seq<ParticleState>, law: ForceLaw, f1: seq<ParticleState>, m1: seq<ParticleState>,
                                    f2: seq<ParticleState>, m2: seq<ParticleState>, f3: seq<ParticleState>, m3: seq<ParticleState>,
                                    f4: seq<ParticleState>,
                                    kx0: seq<Vec2>, kx1: seq<Vec2>, kx2: seq<Vec2>, kx3: seq<Vec2>,
                                    kv0: seq<Vec2>, kv1: seq<Vec2>, kv2: seq<Vec2>, kv3: seq<Vec2>)
    requires Massive(s0) && f1 == WithForces(s0, law)
    requires kx0 == Drifts(f1) && kv0 == Kicks(f1) && kx1 == HalfKickDrifts(Velocities(f1), f1)
    requires m1 == Midpoints(ClearedAll(f1), Positions(s0), Velocities(s0), kx0, kv0) && f2 == WithForces(m1, law)
    requires kx2 == HalfKickDrifts(Velocities(s0), f2) && kv1 == Kicks(f2)
    requires m2 == Midpoints(ClearedAll(f2), Positions(s0), Velocities(s0), kx1, kv1) && f3 == WithForces(m2, law)
    requires kx3 == FullKickDrifts(Velocities(s0), f3) && kv2 == Kicks(f3)
    requires m3 == Endpoints(ClearedAll(f3), Positions(s0), Velocities(s0), kx2, kv2) && f4 == WithForces(m3, law)
    requires kv3 == Kicks(f4)
    ensures Rk4Evaluations(s0, law) == Rk4Forces(f1, f2, f3, f4)
    ensures Collected(kx0, kx1, kx2, kx3, kv0, kv1, kv2, kv3) == AllSlopes(s0, Rk4Forces(f1, f2, f3, f4))
  {
  }

  /**
   * Whatever the force law, one `runge_kutta_4th_order` call leaves every
   * accumulator at zero, appends exactly the new position to every trail, and
   * keeps every mass and timestep.
   */
  lemma {:induction false} Rk4Bookkeeping(s0: seq<ParticleState>, law: ForceLaw)
    requires Massive(s0)
    ensures forall i :: 0 <= i < |s0| ==>
      var r := Rk4Spec(s0, law)[i];
      r.forceAccumulator == Zero && r.trail == s0[i].trail + [r.position] &&
      r.mass == s0[i].mass && r.timestep == s0[i].timestep
  {
  }

  // ---------------------------------------------------------------------------
  // Exactness under constant forces

  /** The law always gives particle `i` the same force `g[i]`, wherever the particles are. */
  ghost predicate ConstantLaw(law: ForceLaw, g: seq<Vec2>) {
    forall t: seq<ParticleState>, i: nat :: i < |g| ==> law(t, i) == g[i]
  }

  /**
   * The reference motion: one timestep of uniform acceleration `g / m` from
   * the particle's state, the new position appended to the trail and the
   * accumulator left empty.
   */
  function UniformMotion(s: ParticleState, g: Vec2): ParticleState
    requires s.mass != 0.0
  {
    var a := g.Over(s.mass);
    var position := Vec2(Objects.UniformPosition(s.position.x, s.velocity.x, a.x, s.timestep),
                         Objects.UniformPosition(s.position.y, s.velocity.y, a.y, s.timestep));
    s.(position := position,
       velocity := Vec2(Objects.UniformVelocity(s.velocity.x, a.x, s.timestep),
                        Objects.UniformVelocity(s.velocity.y, a.y, s.timestep)),
       trail := s.trail + [position],
       forceAccumulator := Zero)
  }

  /** The RK4 weights applied to the slopes of a constant acceleration give `v dt + a dt^2 / 2` and `a dt`. */
  lemma Rk4WeightsUniform(p: real, v: real, a: real, dt: real)
    ensures p + (v * dt + ((v + a * dt / 2.0) * dt) * 2.0 + ((v + a * dt / 2.0) * dt) * 2.0 + (v + a * dt) * dt) / 6.0
         == Objects.UniformPosition(p, v, a, dt)
    ensures v + (a * dt + (a * dt) * 2.0 + (a * dt) * 2.0 + a * dt) / 6.0 == Objects.UniformVelocity(v, a, dt)
  {
    assert (v + a * dt / 2.0) * dt == v * dt + a * dt * dt / 2.0;
    assert (v + a * dt) * dt == v * dt + a * dt * dt;
  }

  /** One particle's RK4 result when all four evaluations found it carrying the constant force `g`. */
  lemma {:induction false} Rk4ParticleUniform(o: ParticleState, g: Vec2, f1: ParticleState, f2: ParticleState, f3: ParticleState, f4: ParticleState)
    requires o.mass != 0.0
    requires f1.mass == f2.mass == f3.mass == f4.mass == o.mass
    requires f1.timestep == f2.timestep == f3.timestep == f4.timestep == o.timestep
    requires f1.forceAccumulator == f2.forceAccumulator == f3.forceAccumulator == f4.forceAccumulator == g
    requires f1.velocity == o.velocity && f4.trail == o.trail
    ensures ApplyStep(Cleared(f4), Slopes(Drift(f1), HalfKickDrift(f1.velocity, f1), HalfKickDrift(o.velocity, f2),
                                          FullKickDrift(o.velocity, f3), Kick(f1), Kick(f2), Kick(f3), Kick(f4)),
                      o.position, o.velocity)
         == UniformMotion(o, g)
  {
    var a, v, dt := g.Over(o.mass), o.velocity, o.timestep;
    var k := a.Times(dt);
    assert Kick(f1) == Kick(f2) == Kick(f3) == Kick(f4) == k;
    var half, full := v.Plus(k.Over(2.0)).Times(dt), v.Plus(k).Times(dt);
    assert Drift(f1) == v.Times(dt);
    assert HalfKickDrift(f1.velocity, f1) == half && HalfKickDrift(v, f2) == half && FullKickDrift(v, f3) == full;
    var r := ApplyStep(Cleared(f4), Slopes(v.Times(dt), half, half, full, k, k, k, k), o.position, v);
    Rk4WeightsUniform(o.position.x, v.x, a.x, dt);
    Rk4WeightsUniform(o.position.y, v.y, a.y, dt);
    assert r.position == UniformMotion(o, g).position;
    assert r.velocity == UniformMotion(o, g).velocity;
  }

  /** Under a constant law, each of the four evaluations finds particle `i` carrying exactly `g_i`. */
  lemma {:induction false} Rk4Loads(s0: seq<ParticleState>, law: ForceLaw, g: seq<Vec2>, i: nat)
    requires Massive(s0) && |g| == |s0| && ConstantLaw(law, g) && i < |s0|
    requires s0[i].forceAccumulator == Zero
    ensures var e := Rk4Evaluations(s0, law);
      e.f1[i].mass == e.f2[i].mass == e.f3[i].mass == e.f4[i].mass == s0[i].mass &&
      e.f1[i].timestep == e.f2[i].timestep == e.f3[i].timestep == e.f4[i].timestep == s0[i].timestep &&
      e.f1[i].forceAccumulator == e.f2[i].forceAccumulator == e.f3[i].forceAccumulator == e.f4[i].forceAccumulator == g[i] &&
      e.f1[i].velocity == s0[i].velocity && e.f4[i].trail == s0[i].trail
  {
    var coords, vels := Positions(s0), Velocities(s0);
    var f1 := WithForces(s0, law);
    var s1 := Midpoints(ClearedAll(f1), coords, vels, Drifts(f1), Kicks(f1));
    var f2 := WithForces(s1, law);
    var s2 := Midpoints(ClearedAll(f2), coords, vels, HalfKickDrifts(Velocities(f1), f1), Kicks(f2));
    var f3 := WithForces(s2, law);
    var s3 := Endpoints(ClearedAll(f3), coords, vels, HalfKickDrifts(vels, f2), Kicks(f3));
    var f4 := WithForces(s3, law);
    assert Rk4Evaluations(s0, law) == Rk4Forces(f1, f2, f3, f4);
    assert law(s0, i) == g[i] && law(s1, i) == g[i] && law(s2, i) == g[i] && law(s3, i) == g[i];
    assert Cleared(f1[i]) == Cleared(s0[i]);
    assert Cleared(f2[i]) == Cleared(s1[i]);
    assert Cleared(f3[i]) == Cleared(s2[i]);
    assert Cleared(f4[i]) == Cleared(s3[i]);
  }

  /**
   * An RK4 step from empty accumulators under constant forces is exact: every
   * particle ends where uniformly accelerated motion with acceleration
   * `g_i / m_i` takes it, with the matching velocity, that position appended
   * to its trail and an empty accumulator.
   */
  lemma {:induction false} Rk4UniformForce(s0: seq<ParticleState>, law: ForceLaw, g: seq<Vec2>)
    requires Massive(s0) && |g| == |s0| && ConstantLaw(law, g)
    requires forall i :: 0 <= i < |s0| ==> s0[i].forceAccumulator == Zero
    ensures forall i :: 0 <= i < |s0| ==> Rk4Spec(s0, law)[i] == UniformMotion(s0[i], g[i])
  {
    var e := Rk4Evaluations(s0, law);
    forall i | 0 <= i < |s0|
      ensures Rk4Spec(s0, law)[i] == UniformMotion(s0[i], g[i])
    {
      Rk4Loads(s0, law, g, i);
      Rk4ParticleUniform(s0[i], g[i], e.f1[i], e.f2[i], e.f3[i], e.f4[i]);
    }
  }

  /** A uniform motion without force is a straight line at the particle's own velocity. */
  lemma {:induction false} UniformMotionUnforced(s: ParticleState)
    requires s.mass != 0.0
    ensures UniformMotion(s, Zero).position == s.position.Plus(s.velocity.Times(s.timestep))
    ensures UniformMotion(s, Zero).velocity == s.velocity
  {
    assert Zero.Over(s.mass) == Zero;
  }

  /** With no force at all, an RK4 step moves every particle in a straight line at its own velocity. */
  lemma {:induction false} Rk4FreeMotion(s0: seq<ParticleState>, law: ForceLaw, g: seq<Vec2>)
    requires Massive(s0) && |g| == |s0| && ConstantLaw(law, g)
    requires forall i :: 0 <= i < |s0| ==> s0[i].forceAccumulator == Zero && g[i] == Zero
    ensures forall i :: 0 <= i < |s0| ==>
      Rk4Spec(s0, law)[i].position == s0[i].position.Plus(s0[i].velocity.Times(s0[i].timestep)) &&
      Rk4Spec(s0, law)[i].velocity == s0[i].velocity
  {
    Rk4UniformForce(s0, law, g);
    forall i | 0 <= i < |s0|
      ensures Rk4Spec(s0, law)[i].position == s0[i].position.Plus(s0[i].velocity.Times(s0[i].timestep))
      ensures Rk4Spec(s0, law)[i].velocity == s0[i].velocity
    {
      UniformMotionUnforced(s0[i]);
    }
  }
}
