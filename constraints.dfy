/**
 * The constraint-force manager: it snapshots the scene into stacked state
 * vectors and a diagonal mass matrix, collects one Jacobian row and one
 * Jacobian-rate row per registered constraint, and turns a solution `lambda`
 * of the constraint system into forces `J^T lambda` on the particles.
 *
 * The stacked layout puts particle `c`'s component `d` at entry `2 c + d`.
 */
module Constraints {
  import opened LinearAlgebra
  import opened Particles

  // ---------------------------------------------------------------------------
  // Stacked vectors and the mass matrix

  /** The vectors `vs` laid out one after another: `vs[c][d]` at entry `2 c + d` (see `StackAt`). */
  function Stack(vs: seq<Vec2>): (r: seq<real>)
    ensures |r| == 2 * |vs|
  {
    seq(2 * |vs|, k requires 0 <= k < 2 * |vs| => vs[k / 2].At(k % 2))
  }

  /** Entry `2 c + d` of a stacked vector is component `d` of vector `c`. */
  lemma {:induction false} StackAt(vs: seq<Vec2>, c: nat, d: nat)
    requires c < |vs| && d < 2
    ensures Stack(vs)[2 * c + d] == vs[c].At(d)
  {
    var k := 2 * c + d;
    assert k / 2 == c && k % 2 == d;
  }

  /** Stacking one more vector appends its two components. */
  lemma {:induction false} StackAppend(vs: seq<Vec2>, b: Vec2)
    ensures Stack(vs + [b]) == Stack(vs) + [b.x, b.y]
  {
    var long, short := Stack(vs + [b]), Stack(vs) + [b.x, b.y];
    forall k | 0 <= k < |long|
      ensures long[k] == short[k]
    {
      if k < 2 * |vs| {
        assert long[k] == (vs + [b])[k / 2].At(k % 2);
      } else {
        assert k / 2 == |vs|;
      }
    }
  }

  /** Each particle's mass, once per component: the diagonal of `M` (see `MassAt`). */
  function MassEntries(states: seq<ParticleState>): (r: seq<real>)
    ensures |r| == 2 * |states|
  {
    Stack(seq(|states|, c requires 0 <= c < |states| => Vec2(states[c].mass, states[c].mass)))
  }

  /** Each particle's inverse mass, once per component: the diagonal of `W` (see `MassAt`). */
  function InverseMassEntries(states: seq<ParticleState>): (r: seq<real>)
    requires Massive(states)
    ensures |r| == 2 * |states|
  {
    Stack(seq(|states|, c requires 0 <= c < |states| => Vec2(1.0 / states[c].mass, 1.0 / states[c].mass)))
  }

  /** Particle `c`'s two diagonal entries of `M` are its mass, and those of `W` its inverse mass. */
  lemma {:induction false} MassAt(states: seq<ParticleState>, c: nat)
    requires c < |states|
    ensures MassEntries(states)[2 * c] == states[c].mass && MassEntries(states)[2 * c + 1] == states[c].mass
    ensures Massive(states) ==>
      InverseMassEntries(states)[2 * c] == 1.0 / states[c].mass && InverseMassEntries(states)[2 * c + 1] == 1.0 / states[c].mass
  {
    var masses := seq(|states|, c requires 0 <= c < |states| => Vec2(states[c].mass, states[c].mass));
    StackAt(masses, c, 0);
    StackAt(masses, c, 1);
    if Massive(states) {
      var inverses := seq(|states|, c requires 0 <= c < |states| => Vec2(1.0 / states[c].mass, 1.0 / states[c].mass));
      StackAt(inverses, c, 0);
      StackAt(inverses, c, 1);
    }
  }

  /** A number times its inverse is one. */
  lemma InverseProduct(a: real, b: real, m: real)
    requires m != 0.0 && a == m && b == 1.0 / m
    ensures a * b == 1.0
  {
  }

  /** `W` is the inverse of `M`: their product is the identity. */
  lemma {:induction false} MassMatrixInverse(states: seq<ParticleState>)
    requires Massive(states)
    ensures MatMul(Diagonal(MassEntries(states)), Diagonal(InverseMassEntries(states)), 2 * |states|)
         == Identity(2 * |states|)
  {
    var d, w := MassEntries(states), InverseMassEntries(states);
    forall k | 0 <= k < |d|
      ensures d[k] * w[k] == 1.0
    {
      var c := k / 2;
      var m := states[c].mass;
      MassAt(states, c);
      assert d[k] == m && w[k] == 1.0 / m by {
        assert k == 2 * c || k == 2 * c + 1;
      }
      InverseProduct(d[k], w[k], m);
    }
    DiagonalInverse(d, w);
  }

  // ---------------------------------------------------------------------------
  // Constraint rows

  /**
   * The per-particle blocks of a constraint row over `n` particles: `b1` at
   * particle `i1`, `b2` at particle `i2`, zero elsewhere; `i1` is looked at first.
   */
  function Blocks(n: nat, i1: nat, b1: Vec2, i2: nat, b2: Vec2): (r: seq<Vec2>)
    ensures |r| == n
    ensures forall c :: 0 <= c < n ==> r[c] == if c == i1 then b1 else if c == i2 then b2 else Zero
  {
    seq(n, c requires 0 <= c < n => if c == i1 then b1 else if c == i2 then b2 else Zero)
  }

  /** A constraint row of width `2 n`, in the stacked layout. */
  function PairRow(n: nat, i1: nat, b1: Vec2, i2: nat, b2: Vec2): (r: seq<real>)
    ensures |r| == 2 * n
  {
    Stack(Blocks(n, i1, b1, i2, b2))
  }

  /**
   * The row-building loop of every constraint: one block of two entries per
   * particle of the scene. A constraint on one particle passes it twice.
   */
  method BuildRow(n: nat, i1: nat, b1: Vec2, i2: nat, b2: Vec2) returns (row: seq<real>)
    ensures row == PairRow(n, i1, b1, i2, b2)
  {
    ghost var blocks := Blocks(n, i1, b1, i2, b2);
    row := [];
    for c := 0 to n
      invariant row == Stack(blocks[..c])
    {
      assert blocks[..c + 1] == blocks[..c] + [blocks[c]];
      StackAppend(blocks[..c], blocks[c]);
      if c == i1 {
        row := row + [b1.x, b1.y];
      } else if c == i2 {
        row := row + [b2.x, b2.y];
      } else {
        row := row + [0.0, 0.0];
      }
    }
    assert blocks[..n] == blocks;
  }

  /**
   * A row with the same block at `i` twice is that block at `i`'s two
   * columns and zero in every other column.
   */
  lemma {:induction false} BlockRowSparse(n: nat, i: nat, b: Vec2, k: nat)
    requires i < n && k < 2 * n
    ensures PairRow(n, i, b, i, b)[k] == if k == 2 * i then b.x else if k == 2 * i + 1 then b.y else 0.0
  {
    var c, d := k / 2, k % 2;
    assert k == 2 * c + d;
    StackAt(Blocks(n, i, b, i, b), c, d);
  }

  /**
   * A row with two blocks is `b1` at `i1`'s columns, `b2` at `i2`'s columns
   * when the particles differ, and zero in every other column.
   */
  lemma {:induction false} PairRowSparse(n: nat, i1: nat, b1: Vec2, i2: nat, b2: Vec2, k: nat)
    requires i1 < n && i2 < n && i1 != i2 && k < 2 * n
    ensures PairRow(n, i1, b1, i2, b2)[k]
         == if k == 2 * i1 then b1.x else if k == 2 * i1 + 1 then b1.y
            else if k == 2 * i2 then b2.x else if k == 2 * i2 + 1 then b2.y else 0.0
  {
    var c, d := k / 2, k % 2;
    assert k == 2 * c + d;
    StackAt(Blocks(n, i1, b1, i2, b2), c, d);
  }

  /** A row that is zero outside `i`'s columns meets a stacked vector only there. */
  lemma {:induction false} BlockRowDot(n: nat, i: nat, b: Vec2, v: seq<real>)
    requires i < n && |v| == 2 * n
    ensures Dot(PairRow(n, i, b, i, b), v) == b.x * v[2 * i] + b.y * v[2 * i + 1]
  {
    var row := PairRow(n, i, b, i, b);
    forall m | 0 <= m < |row| && m != 2 * i && m != 2 * i + 1
      ensures row[m] == 0.0
    {
      BlockRowSparse(n, i, b, m);
    }
    BlockRowSparse(n, i, b, 2 * i);
    BlockRowSparse(n, i, b, 2 * i + 1);
    DotPair(row, v, 2 * i);
  }

  /** The curve `y = f(x)` of a rail, with the first and second derivatives sympy computes for it. */
  datatype Curve = Curve(f: real -> real, df: real -> real, ddf: real -> real)

  /** The rail constraint's value `C = y - f(x)`: zero on the curve. */
  function RailValue(curve: Curve, p: ParticleState): real {
    p.position.y - curve.f(p.position.x)
  }

  /** The rail constraint's rate `dC/dt = -f'(x) x' + y'`. */
  function RailRate(curve: Curve, p: ParticleState): real {
    -curve.df(p.position.x) * p.velocity.x + p.velocity.y
  }

  /** The rail's Jacobian block `[-f'(x), 1]`. */
  function RailBlock(curve: Curve, p: ParticleState): Vec2 {
    Vec2(-curve.df(p.position.x), 1.0)
  }

  /** The rail's Jacobian-rate block `[-f''(x) x', 0]`. */
  function RailRateBlock(curve: Curve, p: ParticleState): Vec2 {
    Vec2(-curve.ddf(p.position.x) * p.velocity.x, 0.0)
  }

  /** The distance constraint's Jacobian block `[dx / u, dy / u]` of particle 1 for the difference `dx, dy` and `u = |p1 - p2|`. */
  function DistanceBlock1(p1: ParticleState, p2: ParticleState, u: real): Vec2
    requires u != 0.0
  {
    Vec2((p1.position.x - p2.position.x) / u, (p1.position.y - p2.position.y) / u)
  }

  /** Particle 2's block, written as the negated differences over `u`. */
  function DistanceBlock2(p1: ParticleState, p2: ParticleState, u: real): Vec2
    requires u != 0.0
  {
    Vec2((-1.0 * (p1.position.x - p2.position.x)) / u, (-1.0 * (p1.position.y - p2.position.y)) / u)
  }

  /** The numerator of the distance rate's first component, as the expanded derivative writes it. */
  function DistanceRateX(p1: ParticleState, p2: ParticleState): real {
    var x1, y1, x2, y2 := p1.position.x, p1.position.y, p2.position.x, p2.position.y;
    var x1v, y1v, x2v, y2v := p1.velocity.x, p1.velocity.y, p2.velocity.x, p2.velocity.y;
    (x1 * (y1v - y2v) - x1v * (y1 - y2) - x2 * (y1v - y2v) + x2v * (y1 - y2)) * (y1 - y2)
  }

  /** The numerator of the distance rate's second component, as the expanded derivative writes it. */
  function DistanceRateY(p1: ParticleState, p2: ParticleState): real {
    var x1, y1, x2, y2 := p1.position.x, p1.position.y, p2.position.x, p2.position.y;
    var x1v, y1v, x2v, y2v := p1.velocity.x, p1.velocity.y, p2.velocity.x, p2.velocity.y;
    (x1 * x1) * (y1v - y2v) - x1 * (x1v * (y1 - y2) + 2.0 * x2 * (y1v - y2v) - x2v * (y1 - y2))
      + (x1v * (y1 - y2) + x2 * (y1v - y2v) - x2v * (y1 - y2)) * x2
  }

  function DistanceRateBlock1(p1: ParticleState, p2: ParticleState, u: real): Vec2
    requires u != 0.0
  {
    Vec2((-1.0 * DistanceRateX(p1, p2)) / (u * u * u), DistanceRateY(p1, p2) / (u * u * u))
  }

  function DistanceRateBlock2(p1: ParticleState, p2: ParticleState, u: real): Vec2
    requires u != 0.0
  {
    Vec2(DistanceRateX(p1, p2) / (u * u * u), (-1.0 * DistanceRateY(p1, p2)) / (u * u * u))
  }

  /** The circular wire's Jacobian block `[x / u, y / u]`. */
  function CircularBlock(p: ParticleState, u: real): Vec2
    requires u != 0.0
  {
    Vec2(p.position.x / u, p.position.y / u)
  }

  /** The circular wire's Jacobian-rate block. */
  function CircularRateBlock(p: ParticleState, u: real): Vec2
    requires u != 0.0
  {
    var x, y, xv, yv := p.position.x, p.position.y, p.velocity.x, p.velocity.y;
    Vec2((xv * (y * y) - yv * x * y) / (u * u * u), (yv * (x * x) - xv * x * y) / (u * u * u))
  }

  // ---------------------------------------------------------------------------
  // Filling the snapshot entry by entry

  /** `v` on its first `m` entries and zero on the rest: a snapshot filled up to entry `m`. */
  function Prefix(v: seq<real>, m: nat): (r: seq<real>)
    requires m <= |v|
    ensures |r| == |v| && forall k :: 0 <= k < |v| ==> r[k] == if k < m then v[k] else 0.0
  {
    seq(|v|, k requires 0 <= k < |v| => if k < m then v[k] else 0.0)
  }

  /** Nothing filled is the zero vector; everything filled is the vector itself. */
  lemma {:induction false} PrefixEnds(v: seq<real>)
    ensures Prefix(v, 0) == Zeros(|v|) && Prefix(v, |v|) == v
  {
    var empty, full := Prefix(v, 0), Prefix(v, |v|);
    assert forall k :: 0 <= k < |v| ==> empty[k] == Zeros(|v|)[k];
    assert forall k :: 0 <= k < |v| ==> full[k] == v[k];
  }

  /** Filling entry `m` extends the filled prefix by one. */
  lemma {:induction false} PrefixStep(v: seq<real>, m: nat)
    requires m < |v|
    ensures Prefix(v, m + 1) == Prefix(v, m)[m := v[m]]
  {
    var filled, updated := Prefix(v, m + 1), Prefix(v, m)[m := v[m]];
    assert forall k :: 0 <= k < |v| ==> filled[k] == updated[k];
  }

  /** Setting diagonal entry `m` of a diagonal matrix gives the diagonal matrix of the updated diagonal. */
  lemma {:induction false} DiagonalStep(d: seq<real>, m: nat, x: real)
    requires m < |d|
    ensures Diagonal(d)[m := Diagonal(d)[m][m := x]] == Diagonal(d[m := x])
  {
    var a, b := Diagonal(d)[m := Diagonal(d)[m][m := x]], Diagonal(d[m := x]);
    forall r | 0 <= r < |d|
      ensures a[r] == b[r]
    {
      assert forall k :: 0 <= k < |d| ==> a[r][k] == b[r][k];
    }
  }

  /**
   * The inner filling loop of `__init__` for one particle: its two components
   * go to entries `2 i` and `2 i + 1` of the stacked vectors and of the
   * diagonal of `M`.
   */
  method FillParticle(particle: Particle, i: nat, q0: seq<real>, dq0: seq<real>, Q0: seq<real>, M0: seq<seq<real>>,
                      ghost positions: seq<real>, ghost velocities: seq<real>, ghost forces: seq<real>, ghost masses: seq<real>)
    returns (q: seq<real>, dq: seq<real>, Q: seq<real>, M: seq<seq<real>>)
    requires 2 * i + 2 <= |positions| == |velocities| == |forces| == |masses|
    requires positions[2 * i] == particle.position.x && positions[2 * i + 1] == particle.position.y
    requires velocities[2 * i] == particle.velocity.x && velocities[2 * i + 1] == particle.velocity.y
    requires forces[2 * i] == particle.forceAccumulator.x && forces[2 * i + 1] == particle.forceAccumulator.y
    requires masses[2 * i] == particle.mass && masses[2 * i + 1] == particle.mass
    requires q0 == Prefix(positions, 2 * i) && dq0 == Prefix(velocities, 2 * i) && Q0 == Prefix(forces, 2 * i)
    requires M0 == Diagonal(Prefix(masses, 2 * i))
    ensures q == Prefix(positions, 2 * i + 2) && dq == Prefix(velocities, 2 * i + 2) && Q == Prefix(forces, 2 * i + 2)
    ensures M == Diagonal(Prefix(masses, 2 * i + 2))
  {
    q, dq, Q, M := q0, dq0, Q0, M0;
    for dim := 0 to 2
      invariant q == Prefix(positions, 2 * i + dim) && dq == Prefix(velocities, 2 * i + dim)
      invariant Q == Prefix(forces, 2 * i + dim) && M == Diagonal(Prefix(masses, 2 * i + dim))
    {
      var k := 2 * i + dim;
      PrefixStep(positions, k);
      PrefixStep(velocities, k);
      PrefixStep(forces, k);
      PrefixStep(masses, k);
      ghost var before := Prefix(masses, k);
      DiagonalStep(before, k, particle.mass);
      q := q[k := particle.position.At(dim)];
      dq := dq[k := particle.velocity.At(dim)];
      Q := Q[k := particle.forceAccumulator.At(dim)];
      M := M[k := M[k][k := particle.mass]];
      assert M == Diagonal(before[k := particle.mass]);
    }
  }

  /** Particle `i`'s entries in the stacked snapshot vectors and the mass diagonal. */
  lemma {:induction false} ParticleEntries(states: seq<ParticleState>, i: nat)
    requires i < |states|
    ensures Stack(Positions(states))[2 * i] == states[i].position.x
    ensures Stack(Positions(states))[2 * i + 1] == states[i].position.y
    ensures Stack(Velocities(states))[2 * i] == states[i].velocity.x
    ensures Stack(Velocities(states))[2 * i + 1] == states[i].velocity.y
    ensures Stack(Accumulators(states))[2 * i] == states[i].forceAccumulator.x
    ensures Stack(Accumulators(states))[2 * i + 1] == states[i].forceAccumulator.y
    ensures MassEntries(states)[2 * i] == states[i].mass && MassEntries(states)[2 * i + 1] == states[i].mass
  {
    StackAt(Positions(states), i, 0);
    StackAt(Positions(states), i, 1);
    StackAt(Velocities(states), i, 0);
    StackAt(Velocities(states), i, 1);
    StackAt(Accumulators(states), i, 0);
    StackAt(Accumulators(states), i, 1);
    MassAt(states, i);
  }

  /**
   * The filling loop of `__init__`: zero vectors and a zero matrix of size
   * `dimensions * len(scene)`, then, particle by particle, entries `2 c` and
   * `2 c + 1` of the stacked vectors and the diagonal of `M`.
   */
  method Snapshot(scene: seq<Particle>, dimensions: int) returns (q: seq<real>, dq: seq<real>, Q: seq<real>, M: seq<seq<real>>)
    requires dimensions == 2
    ensures q == Stack(Positions(States(scene))) && dq == Stack(Velocities(States(scene)))
    ensures Q == Stack(Accumulators(States(scene))) && M == Diagonal(MassEntries(States(scene)))
  {
    var n := dimensions * |scene|;
    ghost var states := States(scene);
    ghost var positions, velocities := Stack(Positions(states)), Stack(Velocities(states));
    ghost var forces, masses := Stack(Accumulators(states)), MassEntries(states);
    PrefixEnds(positions);
    PrefixEnds(velocities);
    PrefixEnds(forces);
    PrefixEnds(masses);
    q, dq, Q := Zeros(n), Zeros(n), Zeros(n);
    M := Diagonal(Zeros(n));
    for i := 0 to |scene|
      invariant q == Prefix(positions, 2 * i) && dq == Prefix(velocities, 2 * i) && Q == Prefix(forces, 2 * i)
      invariant M == Diagonal(Prefix(masses, 2 * i))
    {
      var particle := scene[i];
      assert states[i] == particle.State();
      ParticleEntries(states, i);
      q, dq, Q, M := FillParticle(particle, i, q, dq, Q, M, positions, velocities, forces, masses);
    }
  }

  /**
   * The states after adding a stacked force vector to the accumulators:
   * particle `c` receives entries `2 c` and `2 c + 1`.
   */
  function Loaded(states: seq<ParticleState>, forces: seq<real>): (r: seq<ParticleState>)
    requires |forces| == 2 * |states|
    ensures |r| == |states|
  {
    seq(|states|, c requires 0 <= c < |states| =>
      states[c].(forceAccumulator := states[c].forceAccumulator.Plus(Vec2(forces[2 * c], forces[2 * c + 1]))))
  }

  /**
   * What the first `n` passes of `add_forces`' loop give particle `p`: entries
   * `2 c` and `2 c + 1` of `forces` for every listing `c < n` of `p`.
   */
  function Share(particles: seq<Particle>, forces: seq<real>, p: Particle, n: nat): Vec2
    requires n <= |particles| && |forces| == 2 * |particles|
    decreases n
  {
    if n == 0 then Zero
    else
      var c := n - 1;
      Share(particles, forces, p, c).Plus(if particles[c] == p then Vec2(forces[2 * c], forces[2 * c + 1]) else Zero)
  }

  /** In a scene that lists every particle once, particle `k` receives exactly its own two entries. */
  lemma {:induction false} ShareDistinct(particles: seq<Particle>, forces: seq<real>, k: nat, n: nat)
    requires Distinct(particles) && |forces| == 2 * |particles| && k < |particles| && n <= |particles|
    ensures Share(particles, forces, particles[k], n) == if k < n then Vec2(forces[2 * k], forces[2 * k + 1]) else Zero
    decreases n
  {
    if n > 0 {
      ShareDistinct(particles, forces, k, n - 1);
    }
  }

  /** One pass of `add_forces`' loop: the two components of a particle's accumulator grow one at a time. */
  method AddEntries(particle: Particle, fx: real, fy: real)
    modifies particle`forceAccumulator
    ensures particle.forceAccumulator == old(particle.forceAccumulator).Plus(Vec2(fx, fy))
  {
    particle.forceAccumulator := particle.forceAccumulator.With(0, particle.forceAccumulator.At(0) + fx);
    particle.forceAccumulator := particle.forceAccumulator.With(1, particle.forceAccumulator.At(1) + fy);
  }

  /** A particle that received `Share` keeps everything else: with distinct listings that is `Loaded`. */
  lemma {:induction false} SharesLoaded(particles: seq<Particle>, forces: seq<real>, s: seq<ParticleState>, t: seq<ParticleState>)
    requires Distinct(particles) && |forces| == 2 * |particles| && |s| == |t| == |particles|
    requires forall k :: 0 <= k < |particles| ==>
      t[k] == s[k].(forceAccumulator := s[k].forceAccumulator.Plus(Share(particles, forces, particles[k], |particles|)))
    ensures t == Loaded(s, forces)
  {
    forall k | 0 <= k < |particles|
      ensures t[k] == Loaded(s, forces)[k]
    {
      ShareDistinct(particles, forces, k, |particles|);
    }
  }

  /** Pass `c` of `add_forces`' loop: listing `c` adds its two entries to whichever particle it names. */
  method AddListing(particles: seq<Particle>, forces: seq<real>, c: nat, ghost start: seq<Vec2>)
    requires c < |particles| && |forces| == 2 * |particles| && |start| == |particles|
    requires forall k :: 0 <= k < |particles| ==>
      particles[k].forceAccumulator == start[k].Plus(Share(particles, forces, particles[k], c))
    modifies particles`forceAccumulator
    ensures forall k :: 0 <= k < |particles| ==>
      particles[k].forceAccumulator == start[k].Plus(Share(particles, forces, particles[k], c + 1))
  {
    var particle := particles[c];
    label Before:
    AddEntries(particle, forces[2 * c], forces[2 * c + 1]);
    forall k | 0 <= k < |particles|
      ensures particles[k].forceAccumulator == start[k].Plus(Share(particles, forces, particles[k], c + 1))
    {
      var p := particles[k];
      var before := old@Before(p.forceAccumulator);
      assert before == start[k].Plus(Share(particles, forces, p, c));
      if p == particle {
        assert p.forceAccumulator == before.Plus(Vec2(forces[2 * c], forces[2 * c + 1]));
      } else {
        assert p.forceAccumulator == before;
      }
    }
  }

  /**
   * The accumulating loop of `add_forces`, component by component. A particle
   * listed several times receives the entries of every listing.
   */
  method AddListings(particles: seq<Particle>, forces: seq<real>)
    requires |forces| == 2 * |particles|
    modifies particles`forceAccumulator
    ensures forall k :: 0 <= k < |particles| ==>
      particles[k].forceAccumulator == old(particles[k].forceAccumulator).Plus(Share(particles, forces, particles[k], |particles|))
  {
    ghost var start := Accumulators(States(particles));
    for c := 0 to |particles|
      invariant forall k :: 0 <= k < |particles| ==>
        particles[k].forceAccumulator == start[k].Plus(Share(particles, forces, particles[k], c))
    {
      AddListing(particles, forces, c, start);
    }
  }

  /**
   * `add_forces`' loop on the particle list: every listing adds its two entries,
   * so a scene listing each particle once ends in `Loaded`.
   */
  method AddStacked(particles: seq<Particle>, forces: seq<real>)
    requires |forces| == 2 * |particles|
    modifies particles`forceAccumulator
    ensures forall k :: 0 <= k < |particles| ==>
      particles[k].forceAccumulator == old(particles[k].forceAccumulator).Plus(Share(particles, forces, particles[k], |particles|))
    ensures Distinct(particles) ==> States(particles) == Loaded(old(States(particles)), forces)
  {
    ghost var s := States(particles);
    AddListings(particles, forces);
    ghost var distinct := Distinct(particles);
    if distinct {
      ghost var t := States(particles);
      forall k | 0 <= k < |particles|
        ensures t[k] == s[k].(forceAccumulator := s[k].forceAccumulator.Plus(Share(particles, forces, particles[k], |particles|)))
      {
      }
      SharesLoaded(particles, forces, s, t);
    }
  }

  // ---------------------------------------------------------------------------
  // The manager

  class ConstraintManager {
    var scene: seq<Particle>
    var dimensions: int
    /** Stacked positions, velocities and forces at the last (re)initialisation. */
    var q: seq<real>
    var dq: seq<real>
    var Q: seq<real>
    /** The mass matrix and its inverse. */
    var M: seq<seq<real>>
    var W: seq<seq<real>>
    /** The Jacobian `J = dC/dq` and its time derivative, one row per constraint. */
    var j: seq<seq<real>>
    var dj: seq<seq<real>>
    /** The rail constraints' values `C` and rates `dC/dt`. */
    var c: seq<real>
    var dc: seq<real>

    /** The shapes every operation relies on. */
    predicate Valid()
      reads this
    {
      dimensions == 2 &&
      |q| == |dq| == |Q| == 2 * |scene| &&
      |W| == 2 * |scene| && IsMatrix(W, 2 * |scene|) &&
      |j| == |dj| && IsMatrix(j, 2 * |scene|) && IsMatrix(dj, 2 * |scene|)
    }

    constructor (scene: seq<Particle>, dimensions: int)
      requires dimensions == 2 && Massive(States(scene))
      ensures Valid() && this.scene == scene && this.dimensions == dimensions
      ensures q == old(Stack(Positions(States(scene)))) && dq == old(Stack(Velocities(States(scene))))
      ensures Q == old(Stack(Accumulators(States(scene))))
      ensures M == old(Diagonal(MassEntries(States(scene)))) && W == old(Diagonal(InverseMassEntries(States(scene))))
      ensures j == [] && dj == [] && c == [] && dc == []
    {
      new;
      Reset(scene, dimensions);
    }

    /**
     * The body of `__init__`: snapshot the scene as it is on entry, empty the
     * constraint rows.
     */
    method Reset(scene: seq<Particle>, dimensions: int)
      requires dimensions == 2 && Massive(States(scene))
      modifies this
      ensures Valid() && this.scene == scene && this.dimensions == dimensions
      ensures q == old(Stack(Positions(States(scene)))) && dq == old(Stack(Velocities(States(scene))))
      ensures Q == old(Stack(Accumulators(States(scene))))
      ensures M == old(Diagonal(MassEntries(States(scene)))) && W == old(Diagonal(InverseMassEntries(States(scene))))
      ensures j == [] && dj == [] && c == [] && dc == []
    {
      ghost var states := States(scene);
      var positions, velocities, forces, masses := Snapshot(scene, dimensions);
      assert States(scene) == states;
      var inverse := Diagonal(InverseMassEntries(States(scene)));
      this.scene, this.dimensions := scene, dimensions;
      q, dq, Q, M, W := positions, velocities, forces, masses, inverse;
      j, dj, c, dc := [], [], [], [];
    }

    /** `update`: initialise again from the scene's current state. */
    method Update()
      requires dimensions == 2 && Massive(States(scene))
      modifies this
      ensures Valid() && scene == old(scene) && dimensions == old(dimensions)
      ensures q == old(Stack(Positions(States(scene)))) && dq == old(Stack(Velocities(States(scene))))
      ensures Q == old(Stack(Accumulators(States(scene))))
      ensures M == old(Diagonal(MassEntries(States(scene)))) && W == old(Diagonal(InverseMassEntries(States(scene))))
      ensures j == [] && dj == [] && c == [] && dc == []
    {
      Reset(scene, dimensions);
    }

    /**
     * `rail_constraint`: keep `particle` on the curve `y = f(x)`. A particle
     * missing from the scene raises `ValueError` and changes nothing.
     */
    method RailConstraint(particle: Particle, curve: Curve) returns (raised: bool)
      requires Valid()
      modifies this`j, this`dj, this`c, this`dc
      ensures Valid()
      ensures raised <==> particle !in scene
      ensures raised ==> j == old(j) && dj == old(dj) && c == old(c) && dc == old(dc)
      ensures !raised ==>
        var index := IndexOf(scene, particle);
        j == old(j) + [PairRow(|scene|, index, RailBlock(curve, particle.State()), index, RailBlock(curve, particle.State()))] &&
        dj == old(dj) + [PairRow(|scene|, index, RailRateBlock(curve, particle.State()), index, RailRateBlock(curve, particle.State()))] &&
        c == old(c) + [RailValue(curve, particle.State())] &&
        dc == old(dc) + [RailRate(curve, particle.State())]
    {
      if particle !in scene {
        return true;
      }
      var index := IndexOf(scene, particle);
      var objects := |scene|;
      var row := BuildRow(objects, index, RailBlock(curve, particle.State()), index, RailBlock(curve, particle.State()));
      var rateRow := BuildRow(objects, index, RailRateBlock(curve, particle.State()), index, RailRateBlock(curve, particle.State()));
      var value := particle.position.y - curve.f(particle.position.x);
      var rate := -curve.df(particle.position.x) * particle.velocity.x + particle.velocity.y;
      assert value == RailValue(curve, particle.State()) && rate == RailRate(curve, particle.State());
      j, dj, c, dc := j + [row], dj + [rateRow], c + [value], dc + [rate];
      return false;
    }

    /**
     * `distance_constraint`: keep the two particles at a fixed distance. `u`
     * is the square root numpy computes of the squared distance. A particle
     * missing from the scene raises `ValueError` and changes nothing.
     */
    method DistanceConstraint(particle1: Particle, particle2: Particle, u: real) returns (raised: bool)
      requires Valid()
      requires u > 0.0
      requires u * u == (particle1.position.x - particle2.position.x) * (particle1.position.x - particle2.position.x)
                      + (particle1.position.y - particle2.position.y) * (particle1.position.y - particle2.position.y)
      modifies this`j, this`dj
      ensures Valid() && c == old(c) && dc == old(dc)
      ensures raised <==> particle1 !in scene || particle2 !in scene
      ensures raised ==> j == old(j) && dj == old(dj)
      ensures !raised ==>
        var index1, index2, s1, s2 := IndexOf(scene, particle1), IndexOf(scene, particle2), particle1.State(), particle2.State();
        j == old(j) + [PairRow(|scene|, index1, DistanceBlock1(s1, s2, u), index2, DistanceBlock2(s1, s2, u))] &&
        dj == old(dj) + [PairRow(|scene|, index1, DistanceRateBlock1(s1, s2, u), index2, DistanceRateBlock2(s1, s2, u))]
    {
      if particle1 !in scene || particle2 !in scene {
        return true;
      }
      var index1, index2 := IndexOf(scene, particle1), IndexOf(scene, particle2);
      var objects := |scene|;
      var s1, s2 := particle1.State(), particle2.State();
      var row := BuildRow(objects, index1, DistanceBlock1(s1, s2, u), index2, DistanceBlock2(s1, s2, u));
      var rateRow := BuildRow(objects, index1, DistanceRateBlock1(s1, s2, u), index2, DistanceRateBlock2(s1, s2, u));
      j := j + [row];
      dj := dj + [rateRow];
      return false;
    }

    /**
     * `circular_wire_constraint`: keep `particle` at a fixed distance from the
     * origin. `u` is the square root numpy computes of `x^2 + y^2`. A
     * particle missing from the scene raises `ValueError` and changes nothing.
     */
    method CircularWireConstraint(particle: Particle, u: real) returns (raised: bool)
      requires Valid()
      requires u > 0.0 && u * u == particle.position.x * particle.position.x + particle.position.y * particle.position.y
      modifies this`j, this`dj
      ensures Valid() && c == old(c) && dc == old(dc)
      ensures raised <==> particle !in scene
      ensures raised ==> j == old(j) && dj == old(dj)
      ensures !raised ==>
        var index, s := IndexOf(scene, particle), particle.State();
        j == old(j) + [PairRow(|scene|, index, CircularBlock(s, u), index, CircularBlock(s, u))] &&
        dj == old(dj) + [PairRow(|scene|, index, CircularRateBlock(s, u), index, CircularRateBlock(s, u))]
    {
      if particle !in scene {
        return true;
      }
      var index := IndexOf(scene, particle);
      var objects := |scene|;
      var s := particle.State();
      var row := BuildRow(objects, index, CircularBlock(s, u), index, CircularBlock(s, u));
      var rateRow := BuildRow(objects, index, CircularRateBlock(s, u), index, CircularRateBlock(s, u));
      j := j + [row];
      dj := dj + [rateRow];
      return false;
    }

    /** `J W`. */
    function JW(): (r: seq<seq<real>>)
      reads this
      requires Valid()
      ensures |r| == |j| && IsMatrix(r, 2 * |scene|)
    {
      MatMul(j, W, 2 * |scene|)
    }

    /**
     * `lambda` is what `np.linalg.solve` returns for the constraint system
     * `(J W J^T) lambda = -J' q' - J W Q`.
     */
    predicate Solves(lambda: seq<real>)
      reads this
      requires Valid() && |lambda| == |j|
    {
      MatVec(MatMul(JW(), Transpose(j, 2 * |scene|), |j|), lambda)
        == Add(Neg(MatVec(dj, dq)), Neg(MatVec(JW(), Q)))
    }

    /** `get_forces`: the constraint forces `J^T lambda`, one entry per stacked component. */
    function GetForces(lambda: seq<real>): (r: seq<real>)
      reads this
      requires Valid() && |lambda| == |j|
      ensures |r| == 2 * |scene|
    {
      MatVec(Transpose(j, 2 * |scene|), lambda)
    }

    /** A component whose column of `J` is zero, such as one of a particle in no constraint, gets no force. */
    lemma {:induction false} UnconstrainedGetsNoForce(lambda: seq<real>, k: nat)
      requires Valid() && |lambda| == |j| && k < 2 * |scene|
      requires forall row :: 0 <= row < |j| ==> j[row][k] == 0.0
      ensures GetForces(lambda)[k] == 0.0
    {
      DotZero(Column(j, 2 * |scene|, k), lambda);
    }

    /**
     * With `lambda` solving the system, the constrained accelerations
     * `W (Q + J^T lambda)` satisfy `J W (Q + J^T lambda) = -J' q'`: the
     * constraint forces cancel the drift of the constraints.
     */
    lemma {:induction false} AccelerationIdentity(lambda: seq<real>)
      requires Valid() && |lambda| == |j| && Solves(lambda)
      ensures MatVec(JW(), Add(Q, GetForces(lambda))) == Neg(MatVec(dj, dq))
    {
      var n := 2 * |scene|;
      var jw, jt := JW(), Transpose(j, n);
      var applied, rate := MatVec(jw, Q), MatVec(dj, dq);
      MatVecAdd(jw, Q, MatVec(jt, lambda));
      MatVecMatMul(jw, jt, lambda);
      var constrained := MatVec(jw, MatVec(jt, lambda));
      assert constrained == Add(Neg(rate), Neg(applied));
      AddNegCancel(applied, rate);
    }

    /**
     * `add_forces`: entries `2 c` and `2 c + 1` of `J^T lambda` are added to
     * scene particle `c`'s accumulator, once per listing; nothing else changes.
     */
    method AddForces(lambda: seq<real>)
      requires Valid() && |lambda| == |j| && Solves(lambda)
      modifies scene`forceAccumulator
      ensures forall k :: 0 <= k < |scene| ==>
        scene[k].forceAccumulator == old(scene[k].forceAccumulator).Plus(Share(scene, GetForces(lambda), scene[k], |scene|))
      ensures Distinct(scene) ==> States(scene) == Loaded(old(States(scene)), GetForces(lambda))
    {
      var constraint := GetForces(lambda);
      AddStacked(scene, constraint);
    }
  }

  // ---------------------------------------------------------------------------
  // Properties of the rows

  /** The rail's rate `dC/dt = -f'(x) x' + y'` is its Jacobian row times the stacked velocities. */
  lemma {:induction false} RailRateIsJacobianTimesVelocity(scene: seq<ParticleState>, index: nat, curve: Curve)
    requires index < |scene|
    ensures Dot(PairRow(|scene|, index, RailBlock(curve, scene[index]), index, RailBlock(curve, scene[index])),
                Stack(Velocities(scene)))
         == RailRate(curve, scene[index])
  {
    var v := Stack(Velocities(scene));
    var b := RailBlock(curve, scene[index]);
    BlockRowDot(|scene|, index, b, v);
    StackAt(Velocities(scene), index, 0);
    StackAt(Velocities(scene), index, 1);
    assert v[2 * index] == scene[index].velocity.x;
    assert v[2 * index + 1] == scene[index].velocity.y;
  }

  /** The distance constraint's entries for particle 2 are the negation of particle 1's, in `J` and in `J'`. */
  lemma {:induction false} DistanceBlocksOpposite(p1: ParticleState, p2: ParticleState, u: real)
    requires u != 0.0
    ensures DistanceBlock2(p1, p2, u).x == -DistanceBlock1(p1, p2, u).x
    ensures DistanceBlock2(p1, p2, u).y == -DistanceBlock1(p1, p2, u).y
    ensures DistanceRateBlock2(p1, p2, u).x == -DistanceRateBlock1(p1, p2, u).x
    ensures DistanceRateBlock2(p1, p2, u).y == -DistanceRateBlock1(p1, p2, u).y
  {
  }

  /**
   * A distance row puts opposite entries in the two particles' columns, so
   * any multiple of it exerts equal and opposite forces on them.
   */
  lemma {:induction false} DistanceForcesOpposite(n: nat, index1: nat, index2: nat, p1: ParticleState, p2: ParticleState, u: real, lambda: real, d: nat)
    requires index1 < n && index2 < n && index1 != index2 && u != 0.0 && d < 2
    ensures var row := PairRow(n, index1, DistanceBlock1(p1, p2, u), index2, DistanceBlock2(p1, p2, u));
      lambda * row[2 * index2 + d] == -(lambda * row[2 * index1 + d])
  {
    DistanceBlocksOpposite(p1, p2, u);
    var b1, b2 := DistanceBlock1(p1, p2, u), DistanceBlock2(p1, p2, u);
    PairRowSparse(n, index1, b1, index2, b2, 2 * index1 + d);
    PairRowSparse(n, index1, b1, index2, b2, 2 * index2 + d);
  }

  /**
   * The quotient rule for one component of `(x, y) / u` with `u^2 = x^2 + y^2`:
   * the derivative `x' / u - x (x x' + y y') / u^3` is `(x' y^2 - y' x y) / u^3`.
   */
  lemma QuotientRule(x: real, y: real, xv: real, yv: real, u: real)
    requires u > 0.0 && u * u == x * x + y * y
    ensures xv / u - x * (x * xv + y * yv) / (u * u * u) == (xv * (y * y) - yv * x * y) / (u * u * u)
  {
    var u3 := u * u * u;
    assert xv / u == xv * (u * u) / u3;
    assert xv * (u * u) - x * (x * xv + y * yv) == xv * (y * y) - yv * x * y;
  }

  /**
   * The expanded numerators of the distance rate are the quotient-rule
   * numerators `dvx dy^2 - dvy dx dy` and `dvy dx^2 - dvx dy dx` of the
   * difference `(dx, dy)` and its rate `(dvx, dvy)`.
   */
  lemma {:induction false} DistanceRateNumerators(p1: ParticleState, p2: ParticleState)
    ensures var dx, dy := p1.position.x - p2.position.x, p1.position.y - p2.position.y;
      var dvx, dvy := p1.velocity.x - p2.velocity.x, p1.velocity.y - p2.velocity.y;
      -1.0 * DistanceRateX(p1, p2) == dvx * (dy * dy) - dvy * dx * dy &&
      DistanceRateY(p1, p2) == dvy * (dx * dx) - dvx * dy * dx
  {
  }

  /**
   * The distance rate block is the time derivative of the unit vector
   * `(dx, dy) / u` by the quotient rule: `d' / u - d (d . d') / u^3`.
   */
  lemma {:induction false} DistanceRateIsDerivative(p1: ParticleState, p2: ParticleState, u: real)
    requires u > 0.0
    requires u * u == (p1.position.x - p2.position.x) * (p1.position.x - p2.position.x)
                    + (p1.position.y - p2.position.y) * (p1.position.y - p2.position.y)
    ensures var dx, dy := p1.position.x - p2.position.x, p1.position.y - p2.position.y;
      var dvx, dvy := p1.velocity.x - p2.velocity.x, p1.velocity.y - p2.velocity.y;
      DistanceRateBlock1(p1, p2, u) == Vec2(dvx / u - dx * (dx * dvx + dy * dvy) / (u * u * u),
                                            dvy / u - dy * (dx * dvx + dy * dvy) / (u * u * u))
  {
    var dx, dy := p1.position.x - p2.position.x, p1.position.y - p2.position.y;
    var dvx, dvy := p1.velocity.x - p2.velocity.x, p1.velocity.y - p2.velocity.y;
    DistanceRateNumerators(p1, p2);
    QuotientRule(dx, dy, dvx, dvy, u);
    QuotientRule(dy, dx, dvy, dvx, u);
  }

  /**
   * The circular wire's rate block is the time derivative of `(x, y) / u` by
   * the quotient rule: `v / u - p (p . v) / u^3`.
   */
  lemma {:induction false} CircularRateIsDerivative(p: ParticleState, u: real)
    requires u > 0.0 && u * u == p.position.x * p.position.x + p.position.y * p.position.y
    ensures var x, y, xv, yv := p.position.x, p.position.y, p.velocity.x, p.velocity.y;
      CircularRateBlock(p, u) == Vec2(xv / u - x * (x * xv + y * yv) / (u * u * u),
                                      yv / u - y * (x * xv + y * yv) / (u * u * u))
  {
    var x, y, xv, yv := p.position.x, p.position.y, p.velocity.x, p.velocity.y;
    QuotientRule(x, y, xv, yv, u);
    QuotientRule(y, x, yv, xv, u);
    assert y * yv * x == yv * x * y && x * xv * y == xv * x * y;
  }
}
