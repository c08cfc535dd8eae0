/**
 * The vector particle that the array-based force generators, the constraint
 * solver and the vector RK4 driver work on: 2-element position, velocity and
 * force accumulator, a mass, a timestep and the trail of visited positions.
 */
module Particles {
  import opened LinearAlgebra

  datatype Option<T> = None | Some(value: T)

  /** Everything the solvers read or write on one particle. */
  datatype ParticleState = ParticleState(
    position: Vec2, velocity: Vec2, forceAccumulator: Vec2,
    mass: real, timestep: real, trail: seq<Vec2>)

  class Particle {
    var position: Vec2
    var velocity: Vec2
    var forceAccumulator: Vec2
    var mass: real
    var timestep: real
    var trail: seq<Vec2>

    function State(): ParticleState
      reads this
    {
      ParticleState(position, velocity, forceAccumulator, mass, timestep, trail)
    }

    /** A particle with an empty accumulator and no trail. */
    constructor (position: Vec2, velocity: Vec2, mass: real, timestep: real)
      ensures State() == ParticleState(position, velocity, Zero, mass, timestep, [])
    {
      this.position := position;
      this.velocity := velocity;
      this.forceAccumulator := Zero;
      this.mass := mass;
      this.timestep := timestep;
      this.trail := [];
    }
  }

  /** The states of a list of particles, in order. */
  function States(particles: seq<Particle>): (r: seq<ParticleState>)
    reads particles
    ensures |r| == |particles| && forall i :: 0 <= i < |particles| ==> r[i] == particles[i].State()
  {
    seq(|particles|, i requires 0 <= i < |particles| reads particles => particles[i].State())
  }

  /** The positions of a list of particles, in order. */
  function Positions(states: seq<ParticleState>): (r: seq<Vec2>)
    ensures |r| == |states| && forall i :: 0 <= i < |states| ==> r[i] == states[i].position
  {
    seq(|states|, i requires 0 <= i < |states| => states[i].position)
  }

  /** The velocities of a list of particles, in order. */
  function Velocities(states: seq<ParticleState>): (r: seq<Vec2>)
    ensures |r| == |states| && forall i :: 0 <= i < |states| ==> r[i] == states[i].velocity
  {
    seq(|states|, i requires 0 <= i < |states| => states[i].velocity)
  }

  /** The force accumulators of a list of particles, in order. */
  function Accumulators(states: seq<ParticleState>): (r: seq<Vec2>)
    ensures |r| == |states| && forall i :: 0 <= i < |states| ==> r[i] == states[i].forceAccumulator
  {
    seq(|states|, i requires 0 <= i < |states| => states[i].forceAccumulator)
  }

  /** Every particle has a mass that can be divided by. */
  predicate Massive(states: seq<ParticleState>) {
    forall i :: 0 <= i < |states| ==> states[i].mass != 0.0
  }

  /**
   * The component that numpy's `v[d]` selects in a 2-element array: `d` itself,
   * or `d + 2` for a negative index counted from the end; `None` where numpy
   * raises `IndexError`.
   */
  function Axis(d: int): (r: Option<nat>)
    ensures r.Some? <==> -2 <= d < 2
    ensures r.Some? ==> r.value < 2 && (r.value == d || r.value == d + 2)
  {
    if 0 <= d < 2 then Some(d)
    else if -2 <= d < 0 then Some(d + 2)
    else None
  }

  /** The position of `p` in `scene`, as `list.index`: its first occurrence. */
  function IndexOf(scene: seq<Particle>, p: Particle): (r: nat)
    requires p in scene
    ensures r < |scene| && scene[r] == p
    ensures forall k :: 0 <= k < r ==> scene[k] != p
  {
    if scene[0] == p then 0 else 1 + IndexOf(scene[1..], p)
  }
}
