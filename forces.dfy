/**
 * The array-based force generators: linear friction on the first `dimension`
 * components, and uniform gravity along one component. Both add into the
 * particles' force accumulators and change nothing else.
 */
module Forces {
  import opened LinearAlgebra
  import opened Particles
  import Objects

  /** The drag force `-c v` along one component. */
  function Drag(strength: real, v: real): real {
    -strength * v
  }

  /** The friction one pass adds: drag on every component below `dimension`, nothing on the others. */
  function DragOf(strength: real, v: Vec2, dimension: int): Vec2 {
    Vec2(if 0 < dimension then Drag(strength, v.x) else 0.0,
         if 1 < dimension then Drag(strength, v.y) else 0.0)
  }

  /** The friction `n` passes add: `n` drags on every component below `dimension`. */
  function RepeatedDrag(n: nat, strength: real, v: Vec2, dimension: int): Vec2 {
    Vec2(Repeated(n, DragOf(strength, v, dimension).x), Repeated(n, DragOf(strength, v, dimension).y))
  }

  /** One more listing adds one more drag. */
  lemma {:induction false} RepeatedDragStep(n: nat, strength: real, v: Vec2, dimension: int)
    ensures RepeatedDrag(n + 1, strength, v, dimension) == RepeatedDrag(n, strength, v, dimension).Plus(DragOf(strength, v, dimension))
  {
  }

  /** The inner loop of friction's `add_forces` for one particle; numpy raises `IndexError` at component 2. */
  method AddDrag(particle: Particle, strength: real, dimension: int) returns (raised: bool)
    modifies particle`forceAccumulator
    ensures raised <==> dimension > 2
    ensures particle.forceAccumulator == old(particle.forceAccumulator).Plus(DragOf(strength, particle.velocity, dimension))
  {
    var dim := 0;
    while dim < dimension
      invariant 0 <= dim <= 2
      invariant dimension <= 2 ==> dim <= if dimension < 0 then 0 else dimension
      invariant particle.forceAccumulator == old(particle.forceAccumulator).Plus(DragOf(strength, particle.velocity, dim))
    {
      if dim >= 2 {
        return true;
      }
      particle.forceAccumulator := particle.forceAccumulator.With(dim, particle.forceAccumulator.At(dim) + -strength * particle.velocity.At(dim));
      dim := dim + 1;
    }
    return false;
  }

  /** Linear friction `-c v` on the first `dimension` components of every particle of `scene`. */
  class LinearFrictionForce {
    var strength: real
    var scene: seq<Particle>
    var dimension: int

    constructor (scene: seq<Particle>, strength: real, dimensions: int)
      ensures this.scene == scene && this.strength == strength && this.dimension == dimensions
    {
      this.strength := strength;
      this.scene := scene;
      this.dimension := dimensions;
    }

    /**
     * `add_forces`: each particle's accumulator gains the drag once per time
     * it is listed. With more than two dimensions numpy raises `IndexError`
     * on the first particle after its two components were updated.
     */
    method AddForces() returns (raised: bool)
      modifies scene`forceAccumulator
      ensures raised <==> |scene| > 0 && dimension > 2
      ensures !raised ==> forall k :: 0 <= k < |scene| ==>
        scene[k].forceAccumulator
          == old(scene[k].forceAccumulator).Plus(RepeatedDrag(Occurrences(scene, scene[k]), strength, scene[k].velocity, dimension))
      ensures raised ==>
        scene[0].forceAccumulator == old(scene[0].forceAccumulator).Plus(DragOf(strength, scene[0].velocity, dimension)) &&
        forall k :: 0 <= k < |scene| && scene[k] != scene[0] ==> scene[k].forceAccumulator == old(scene[k].forceAccumulator)
    {
      var i := 0;
      while i < |scene|
        invariant 0 <= i <= |scene|
        invariant i > 0 ==> dimension <= 2
        invariant forall k :: 0 <= k < |scene| ==>
          scene[k].forceAccumulator
            == old(scene[k].forceAccumulator).Plus(RepeatedDrag(Occurrences(scene[..i], scene[k]), strength, scene[k].velocity, dimension))
      {
        var particle := scene[i];
        label Before:
        raised := AddDrag(particle, strength, dimension);
        if raised {
          return;
        }
        forall k | 0 <= k < |scene|
          ensures scene[k].forceAccumulator
            == old(scene[k].forceAccumulator).Plus(RepeatedDrag(Occurrences(scene[..i + 1], scene[k]), strength, scene[k].velocity, dimension))
        {
          var p := scene[k];
          var n := Occurrences(scene[..i], p);
          assert old@Before(p.forceAccumulator)
            == old(p.forceAccumulator).Plus(RepeatedDrag(n, strength, p.velocity, dimension));
          OccurrencesStep(scene, i, p);
          if p == particle {
            RepeatedDragStep(n, strength, p.velocity, dimension);
          }
        }
        i := i + 1;
      }
      assert scene[..i] == scene;
      return false;
    }
  }

  /** `v` with `w` along component `axis` and zero along the other. */
  function Along(axis: nat, w: real): (r: Vec2)
    requires axis < 2
    ensures r.At(axis) == w && r.At(1 - axis) == 0.0
  {
    if axis == 0 then Vec2(w, 0.0) else Vec2(0.0, w)
  }

  /** One more listing adds one more weight along the axis. */
  lemma {:induction false} WeightStep(start: Vec2, before: Vec2, axis: nat, n: nat, w: real)
    requires axis < 2
    requires before == start.Plus(Along(axis, Repeated(n, w)))
    ensures before.With(axis, before.At(axis) + w) == start.Plus(Along(axis, Repeated(n + 1, w)))
  {
  }

  /** `potential_energy`'s sum of `m g p[axis]` over the scene, taken in list order. */
  function GravityPotential(states: seq<ParticleState>, strength: real, axis: nat): real
    requires axis < 2
    decreases |states|
  {
    if |states| == 0 then 0.0
    else GravityPotential(states[..|states| - 1], strength, axis) + Height(states[|states| - 1], strength, axis)
  }

  /** One particle's share `m g p[axis]` of the potential. */
  function Height(s: ParticleState, strength: real, axis: nat): real
    requires axis < 2
  {
    s.mass * strength * s.position.At(axis)
  }

  /** Replacing particle `i`'s state replaces its share of the potential and nothing else. */
  lemma {:induction false} GravityPotentialUpdate(states: seq<ParticleState>, strength: real, axis: nat, i: nat, t: ParticleState)
    requires axis < 2 && i < |states|
    ensures GravityPotential(states[i := t], strength, axis)
         == GravityPotential(states, strength, axis) - Height(states[i], strength, axis) + Height(t, strength, axis)
    decreases |states|
  {
    var n := |states| - 1;
    var updated := states[i := t];
    assert GravityPotential(updated, strength, axis) == GravityPotential(updated[..n], strength, axis) + Height(updated[n], strength, axis);
    if i == n {
      assert updated[..n] == states[..n];
    } else {
      assert updated[..n] == states[..n][i := t];
      GravityPotentialUpdate(states[..n], strength, axis, i, t);
    }
  }

  /**
   * Raising particle `i` by `h` along the axis raises the potential by
   * `m_i g h`: the force `-g m_i` that `add_forces` applies along that axis
   * is minus the gradient of this potential.
   */
  lemma {:induction false} GravityPotentialRaise(states: seq<ParticleState>, strength: real, axis: nat, i: nat, h: real)
    requires axis < 2 && i < |states|
    ensures GravityPotential(states[i := states[i].(position := states[i].position.Plus(Along(axis, h)))], strength, axis)
         == GravityPotential(states, strength, axis) + states[i].mass * strength * h
  {
    var moved := states[i].(position := states[i].position.Plus(Along(axis, h)));
    assert moved.position.At(axis) == states[i].position.At(axis) + h;
    RaiseProduct(states[i].mass * strength, states[i].position.At(axis), h);
    assert Height(moved, strength, axis) == Height(states[i], strength, axis) + states[i].mass * strength * h;
    GravityPotentialUpdate(states, strength, axis, i, moved);
  }

  /** Raising a height by `h` raises `c` times it by `c h`. */
  lemma RaiseProduct(c: real, p: real, h: real)
    ensures c * (p + h) == c * p + c * h
  {
  }

  /** Uniform gravity of the given strength acting against component `dimension` of every particle. */
  class Gravity {
    var strength: real
    var scene: seq<Particle>
    var dimension: int

    constructor (scene: seq<Particle>, strength: real, dimension: int)
      ensures this.scene == scene && this.strength == strength && this.dimension == dimension
    {
      this.strength := strength;
      this.scene := scene;
      this.dimension := dimension;
    }

    /**
     * `add_forces`: each particle's accumulator drops by `g m` along the axis
     * once per time it is listed; the other component is untouched. An index
     * numpy rejects raises `IndexError` before anything changes.
     */
    method AddForces() returns (raised: bool)
      modifies scene`forceAccumulator
      ensures raised <==> |scene| > 0 && Axis(dimension).None?
      ensures raised ==> forall k :: 0 <= k < |scene| ==> scene[k].forceAccumulator == old(scene[k].forceAccumulator)
      ensures !raised ==> forall k :: 0 <= k < |scene| ==>
        Axis(dimension).Some? &&
        scene[k].forceAccumulator
          == old(scene[k].forceAccumulator).Plus(Along(Axis(dimension).value,
                                                        Repeated(Occurrences(scene, scene[k]), Objects.Weight(strength, scene[k].mass))))
    {
      var axis := Axis(dimension);
      if axis.None? {
        return |scene| > 0;
      }
      var a := axis.value;
      var i := 0;
      while i < |scene|
        invariant 0 <= i <= |scene|
        invariant forall k :: 0 <= k < |scene| ==>
          scene[k].forceAccumulator
            == old(scene[k].forceAccumulator).Plus(Along(a, Repeated(Occurrences(scene[..i], scene[k]), Objects.Weight(strength, scene[k].mass))))
      {
        var body := scene[i];
        label Before:
        body.forceAccumulator := body.forceAccumulator.With(a, body.forceAccumulator.At(a) + -strength * body.mass);
        forall k | 0 <= k < |scene|
          ensures scene[k].forceAccumulator
            == old(scene[k].forceAccumulator).Plus(Along(a, Repeated(Occurrences(scene[..i + 1], scene[k]), Objects.Weight(strength, scene[k].mass))))
        {
          var p := scene[k];
          var n := Occurrences(scene[..i], p);
          assert old@Before(p.forceAccumulator)
            == old(p.forceAccumulator).Plus(Along(a, Repeated(n, Objects.Weight(strength, p.mass))));
          OccurrencesStep(scene, i, p);
          if p == body {
            WeightStep(old(p.forceAccumulator), old@Before(p.forceAccumulator), a, n, Objects.Weight(strength, p.mass));
          }
        }
        i := i + 1;
      }
      assert scene[..i] == scene;
      return false;
    }

    /** `potential_energy`: the sum of `m g p[axis]` over the scene, accumulated in list order. */
    method PotentialEnergy() returns (potentialEnergy: real, raised: bool)
      ensures raised <==> |scene| > 0 && Axis(dimension).None?
      ensures !raised ==> Axis(dimension).Some? || |scene| == 0
      ensures !raised && Axis(dimension).Some? ==>
        potentialEnergy == GravityPotential(States(scene), strength, Axis(dimension).value)
      ensures |scene| == 0 ==> potentialEnergy == 0.0
    {
      potentialEnergy := 0.0;
      var axis := Axis(dimension);
      if axis.None? {
        return potentialEnergy, |scene| > 0;
      }
      var a := axis.value;
      var i := 0;
      while i < |scene|
        invariant 0 <= i <= |scene|
        invariant potentialEnergy == GravityPotential(States(scene)[..i], strength, a)
      {
        assert States(scene)[..i + 1][..i] == States(scene)[..i];
        potentialEnergy := potentialEnergy + scene[i].mass * strength * scene[i].position.At(a);
        i := i + 1;
      }
      assert States(scene)[..i] == States(scene);
      return potentialEnergy, false;
    }
  }
}
