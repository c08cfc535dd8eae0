# A verified model of a 2-D particle simulator's integrators, forces and constraints

The simulator moves point masses in the plane. Each body carries a force
accumulator. The force generators add to it, and an integrator step reads it,
moves the body and clears it. This project models that core in Dafny on real
numbers:

- **`Objects`** (`objects.dfy`) models the scalar `Object` API as a class with
  the fields `x`, `y`, `xVel`, `yVel`, `prevX`, `prevY`, `mass`, `forceX`,
  `forceY`, `timestep` and `trail`. It covers:
  - every integrator method: explicit and "semi-implicit" Euler, the
    half-kick `rk`, position Verlet, the two halves of velocity Verlet, the
    four RK4 stage helpers and the RK4 combination;
  - the kinetic energy;
  - the `Spring` and `Gravity` force generators and their energies.

  Each method is proved against a step function on an `ObjectState` value.
  Lemmas compare those step functions with exact uniformly accelerated motion.
- **`Particles`** (`particles.dfy`) models the vector `Particle`: a 2-element
  position, velocity and force accumulator, plus mass, timestep and trail. It
  also models numpy's index of a 2-element array, including negative indices,
  and `list.index`.
- **`Forces`** (`forces.dfy`) models the array-based `LinearFrictionForce` and
  `Gravity`. A particle listed `n` times in a scene receives the contribution
  `n` times. A dimension numpy cannot index raises, as it does in the source.
- **`Constraints`** (`constraints.dfy`) models `ConstraintManager`:
  - stacking `q`, `dq` and `Q`, and the diagonal mass matrix `M` with its
    inverse `W`;
  - the rail, distance and circular-wire rows of the Jacobian `J` and of its
    rate `dJ`;
  - distributing the constraint force `Jᵗλ` back into the accumulators. A
    particle listed several times receives the entries of every listing.

  It proves the row layout, sparsity, sign symmetry and the derivative
  formulas. It also proves the constraint-acceleration identity
  `J W (Q + Jᵗλ) = -dJ dq` for every `λ` that solves the system.
- **`OdeSolvers`** (`ode_solvers.dfy`) models the `rk4` and `velocity_verlet`
  drivers over `Object`s. **`ParticleRk4`** (`rk4.dfy`) models
  `runge_kutta_4th_order` and its stage helpers over `Particle`s. Each driver
  is proved equal to a specification function of the scene's states and the
  force law. The `add_forces` callback is a `ForceField` whose `calls` counter
  shows how often the driver evaluates the forces. Lemmas show that an RK4
  step, whatever the force law, clears every accumulator, extends every trail
  by exactly the new position and keeps masses and timesteps. They also show
  that under constant forces, RK4 and velocity Verlet reproduce uniformly
  accelerated motion exactly.
- **`LinearAlgebra`** (`linear_algebra.dfy`) holds the vectors, matrices and
  lemmas the constraint proofs need. This includes the associativity of
  matrix-vector products and an occurrence count.

`semi_implicit_euler` in `objects.py` has the same statements as
`euler_method`: the position moves with the velocity held before the kick.
The model follows the code, so both methods share one step function.

## Model

| member | source | states |
|---|---|---|
| `Particles.Axis` | forces.py:25 | numpy accepts a component index of a 2-element array exactly when -2 <= d < 2. The selected component is d, or d + 2 for a negative index |
| `Particles.IndexOf` | constraints.py:44 | `scene.index(p)` is the first position in the scene that holds `p` |
| `LinearAlgebra.OccurrencesIsMultiplicity` | forces.py:11-13 | the number of times a particle appears in a scene equals its multiplicity in the scene's multiset |
| `LinearAlgebra.RepeatedIsProduct` | forces.py:25 | adding the same contribution `n` times adds `n` times that contribution |
| `Objects.Object.constructor` | objects.py:12-28 | a new body is at rest at its position, its previous position equals its position, both accumulators are 0 and the trail is empty |
| `Objects.EulerStep` | objects.py:47-56 | an Euler step clears both accumulators, appends the new position to the trail, and keeps mass, timestep and the previous position |
| `Objects.Object.EulerMethod` | objects.py:47-56 | `euler_method` moves the position by the old velocity times dt, then kicks the velocity by (F/m) dt, clears the accumulators and appends the new position to the trail |
| `Objects.Object.SemiImplicitEuler` | objects.py:58-65 | `semi_implicit_euler` has exactly the effect of `euler_method` |
| `Objects.EulerPositionError` | objects.py:47-65 | under constant acceleration a, the Euler position falls short of the exact position by a dt²/2 on each axis, while the Euler velocity is exact on both axes |
| `Objects.HalfKickStep` | objects.py:67-76 | `rk` moves the position by the half-kicked velocity, clears the accumulators and appends the new position |
| `Objects.Object.Rk` | objects.py:67-76 | `rk` kicks the velocity by half of (F/m) dt, then drifts with the new velocity, clears the accumulators and appends the new position |
| `Objects.HalfKickPosition` | objects.py:67-76 | the `rk` position equals the exact position of uniformly accelerated motion, p + v dt + a dt²/2 |
| `Objects.VerletStep` | objects.py:78-95 | a Verlet step stores the old position as the previous one, clears the accumulators and appends the new position |
| `Objects.Object.Verlet` | objects.py:78-95 | `verlet` sets x := 2x - prev_x + (F/m) dt², stores the old x in prev_x, kicks the velocity by (F/m) dt, clears the accumulators and appends the new position |
| `Objects.VerletUniform` | objects.py:78-91 | on each axis where the previous position is the one uniform motion came from, Verlet lands exactly on the uniform-motion position. The velocity always gets the full kick on both axes |
| `Objects.VelocityVerletFirst` | objects.py:97-109 | the first velocity-Verlet half leaves the velocity, trail, mass and timestep alone and clears the accumulators |
| `Objects.Object.VelocityVerlet1` | objects.py:97-109 | `velocity_verlet_1` moves the position by v dt + (F/m) dt²/2, leaves the velocity unchanged, clears the accumulators, and returns v + (F/m) dt/2 |
| `Objects.VelocityVerletSecond` | objects.py:111-120 | the second velocity-Verlet half does not move the position, keeps the accumulators and appends the current position |
| `Objects.Object.VelocityVerlet2` | objects.py:111-120 | `velocity_verlet_2` sets the velocity to the given half-step velocity plus (F_new/m) dt/2, keeps the position and accumulators, and appends the position to the trail |
| `Objects.VelocityVerletUniformPosition` | objects.py:97-120 | under a force that does not change between the halves, both halves together reach the exact uniform-motion position |
| `Objects.VelocityVerletUniformVelocity` | objects.py:97-120 | under a force that does not change between the halves, both halves together reach the exact uniform-motion velocity |
| `Objects.Object.Rk4First` | objects.py:122-137 | `rk4_1` returns kx0 = v dt, kv0 = (F/m) dt and kx1 = (v + kv0/2) dt per axis, clears the accumulators and changes nothing else |
| `Objects.Object.Rk4Second` | objects.py:139-151 | `rk4_2` ignores its kv1 arguments, returns kv1 = (F/m) dt and kx2 = (vt + kv1/2) dt, clears the accumulators and changes nothing else |
| `Objects.Object.Rk4Third` | objects.py:153-165 | `rk4_3` returns kv2 = (F/m) dt and kx3 = (vt + kv2) dt, clears the accumulators and changes nothing else |
| `Objects.Object.Rk4Fourth` | objects.py:167-175 | `rk4_4` returns kv3 = (F/m) dt, clears the accumulators and changes nothing else |
| `Objects.Rk4FinalStep` | objects.py:177-197 | the RK4 combination clears the accumulators, appends the new position and keeps mass, timestep and previous position |
| `Objects.Object.Rk4Final` | objects.py:177-197 | `rk4_final` sets position and velocity to the originals plus the 1:2:2:1 weighted slopes over 6, appends the position and clears the accumulators |
| `Objects.Object.Energy` | objects.py:199-200 | the kinetic energy is non-negative for a non-negative mass, and 0 for a body at rest |
| `Objects.Direction` | objects.py:219-221 | (cos θ, sin θ) for θ = atan2(dy, dx) is a unit vector. For d > 0 it points along (dx, dy), and at coincident points it is (1, 0) |
| `Objects.UnitDirection` | objects.py:214-221 | (dx/d, dy/d) is a unit vector when d is the length of (dx, dy) |
| `Objects.SpringForceAlignment` | objects.py:218-221 | the spring force has magnitude \|force\|, is parallel to the separation, and its projection on the separation is force times d |
| `Objects.Spring.constructor` | objects.py:204-208 | a spring joins the two given bodies with the given rest length and stiffness |
| `Objects.Spring.CalcForce` | objects.py:229-239 | the force on p1 has magnitude \|k (length - d)\|, is parallel to p1 - p2 and projects onto it as k (length - d) d. At coincident bodies it is (k length, 0) |
| `Objects.Spring.AddForces` | objects.py:213-227 | p1 receives the spring force and p2 its negation, so the two accumulators' sum is unchanged. A spring from a body to itself leaves it unchanged |
| `Objects.Spring.Energy` | objects.py:241-246 | the spring energy is non-negative for k >= 0 and 0 at the rest length |
| `Objects.GravityPotentialRaise` | objects.py:305-310 | raising one body by h raises the potential energy by m g h |
| `Objects.Gravity.constructor` | objects.py:297-299 | the generator keeps the given scene and strength |
| `Objects.Gravity.AddForces` | objects.py:301-303 | every body's y accumulator falls by strength times mass, once per listing of the body. Nothing else changes |
| `Objects.Gravity.PotentialEnergy` | objects.py:305-310 | the loop's total is the sum of mass times strength times y over the scene |
| `Forces.RepeatedDragStep` | forces.py:11-13 | one more listing of a particle adds one more drag contribution |
| `Forces.AddDrag` | forces.py:12-13 | a particle gets -strength v[d] added to component d for every d < dimension. It raises exactly when dimension > 2, after adding to the components that exist |
| `Forces.LinearFrictionForce.constructor` | forces.py:5-8 | the generator keeps the given scene, strength and dimension |
| `Forces.LinearFrictionForce.AddForces` | forces.py:10-13 | without an error, every particle gets its drag once per listing. With more than two dimensions and a non-empty scene it raises, and only the first particle has been changed, on the components that exist |
| `Forces.Along` | forces.py:25 | a contribution at one axis changes that component and leaves the other at 0 |
| `Forces.GravityPotentialUpdate` | forces.py:27-31 | replacing one particle's state changes the potential by exactly the difference of its two heights times mass times strength |
| `Forces.GravityPotentialRaise` | forces.py:27-31 | raising one particle by h along the gravity axis raises the potential by m g h |
| `Forces.Gravity.constructor` | forces.py:17-20 | the generator keeps the given scene, strength and dimension |
| `Forces.Gravity.AddForces` | forces.py:22-25 | every particle's accumulator falls by strength times mass at the indexed component only, once per listing. An index numpy rejects raises before anything changes, unless the scene is empty |
| `Forces.Gravity.PotentialEnergy` | forces.py:27-31 | the total is the sum of mass times strength times the indexed position component over the scene, 0 for an empty scene. It raises on a bad index exactly when the scene is non-empty |
| `Constraints.StackAt` | constraints.py:23-27 | entry 2c + d of a stacked vector is component d of particle c |
| `Constraints.MassAt` | constraints.py:23-28 | both diagonal entries of particle c in M are its mass, and in W they are 1/mass |
| `Constraints.MassMatrixInverse` | constraints.py:30 | M W = I, so W is the inverse mass matrix |
| `Constraints.BuildRow` | constraints.py:55-62 | the loop that builds a row produces the row that is zero outside the constrained particles' column pairs |
| `Constraints.BlockRowSparse` | constraints.py:55-73 | a one-particle row holds its block in columns 2i and 2i+1 and 0 everywhere else |
| `Constraints.PairRowSparse` | constraints.py:103-127 | a two-particle row holds each particle's block in its own column pair and 0 everywhere else |
| `Constraints.FillParticle` | constraints.py:23-28 | one pass of the fill loop writes particle i's position, velocity, force and mass entries and extends the filled prefix by two |
| `Constraints.ParticleEntries` | constraints.py:23-28 | the stacked q, dq, Q and the mass diagonal hold particle i's components at 2i and 2i+1 |
| `Constraints.Snapshot` | constraints.py:13-28 | with two dimensions, q, dq and Q are the scene's stacked positions, velocities and forces, and M is the diagonal of the masses |
| `Constraints.AddEntries` | constraints.py:186-187 | one pass adds the two entries to the particle's accumulator, one component at a time |
| `Constraints.AddListing` | constraints.py:183-187 | pass c adds entries 2c and 2c+1 to the particle listed at c, and every other accumulator keeps its running total |
| `Constraints.AddListings` | constraints.py:183-187 | after the loop, each particle's accumulator has gained entries 2c and 2c+1 for every position c where the scene lists it |
| `Constraints.ShareDistinct` | constraints.py:183-187 | in a scene that lists each particle once, particle k receives exactly entries 2k and 2k+1 |
| `Constraints.SharesLoaded` | constraints.py:183-187 | with distinct listings, the per-listing totals are the states with entries 2c and 2c+1 added to particle c |
| `Constraints.AddStacked` | constraints.py:183-187 | every particle gains entries 2c and 2c+1 for each of its listings c. With each particle listed once, particle c gains exactly its two entries, and nothing else changes |
| `Constraints.ConstraintManager.constructor` | constraints.py:9-36 | q, dq, Q, M and W describe the scene, J and dJ have no rows, and c and dc are empty |
| `Constraints.ConstraintManager.Reset` | constraints.py:9-36 | calling the initialiser again re-establishes the stacked vectors, mass matrices and empty constraint lists for the given scene |
| `Constraints.ConstraintManager.Update` | constraints.py:38-39 | `update` rebuilds the snapshot from the scene's current state and drops every registered constraint |
| `Constraints.ConstraintManager.RailConstraint` | constraints.py:41-79 | a particle outside the scene raises and changes nothing. Otherwise J gains the row [-f'(x), 1] and dJ the row [-f''(x) x', 0] at the particle's columns, and c and dc gain the constraint value and its rate |
| `Constraints.ConstraintManager.DistanceConstraint` | constraints.py:81-130 | a particle outside the scene raises and changes nothing. Otherwise J and dJ each gain one row with the two particles' blocks, and c and dc stay unchanged |
| `Constraints.ConstraintManager.CircularWireConstraint` | constraints.py:132-171 | a particle outside the scene raises and changes nothing. Otherwise J gains [x/u, y/u] and dJ the rate block at the particle's columns |
| `Constraints.ConstraintManager.GetForces` | constraints.py:189-193 | the constraint force Jᵗλ has one entry per coordinate |
| `Constraints.ConstraintManager.UnconstrainedGetsNoForce` | constraints.py:180-193 | a coordinate that no constraint row touches receives a constraint force of 0 |
| `Constraints.ConstraintManager.AccelerationIdentity` | constraints.py:178-180 | when λ solves (J W Jᵗ) λ = -dJ dq - J W Q, then J W (Q + Jᵗλ) = -dJ dq |
| `Constraints.ConstraintManager.AddForces` | constraints.py:173-187 | every particle's accumulator gains entries 2c and 2c+1 of Jᵗλ for each of its listings c. With each particle listed once, particle c gains exactly its two entries, and nothing else changes |
| `Constraints.RailRateIsJacobianTimesVelocity` | constraints.py:55-79 | the rail's J row times dq is the rate of the rail constraint, -f'(x) x' + y' |
| `Constraints.DistanceBlocksOpposite` | constraints.py:103-127 | particle 2's entries in the distance rows of J and dJ are the negation of particle 1's |
| `Constraints.DistanceForcesOpposite` | constraints.py:103-113 | the forces a distance constraint applies to its two particles are equal and opposite |
| `Constraints.DistanceRateNumerators` | constraints.py:115-127 | the expanded numerators of the distance-rate row are (dvx dy² - dvy dx dy) and (dvy dx² - dvx dy dx) |
| `Constraints.DistanceRateIsDerivative` | constraints.py:115-127 | the distance-rate block is the time derivative of (dx/u, dy/u) |
| `Constraints.CircularRateIsDerivative` | constraints.py:159-168 | the circular-wire rate block is the time derivative of (x/u, y/u) |
| `OdeSolvers.WithForces` | ode_solvers.py:19 | one force evaluation grows every accumulator by the law's value and changes nothing else |
| `OdeSolvers.ForceField.AddForces` | ode_solvers.py:19 | the callback changes only the accumulators, as the force law says, and counts one call |
| `OdeSolvers.FirstStep` | ode_solvers.py:26-35 | the first stage collects kx0, kv0 and kx1 and moves every object to orig + kx0/2 and orig_v + kv0/2 |
| `OdeSolvers.SecondStep` | ode_solvers.py:43-51 | the second stage collects kx2 and kv1 and moves every object to orig + kx1/2 and orig_v + kv1/2 |
| `OdeSolvers.ThirdStep` | ode_solvers.py:59-67 | the third stage collects kx3 and kv2 and moves every object to orig + kx2 and orig_v + kv2 |
| `OdeSolvers.FourthStep` | ode_solvers.py:74-76 | the fourth stage collects kv3 and only clears the accumulators |
| `OdeSolvers.FinalStep` | ode_solvers.py:79-83 | every object receives its RK4 combination |
| `OdeSolvers.FirstEvaluation` | ode_solvers.py:19-35 | one force evaluation followed by the first stage |
| `OdeSolvers.SecondEvaluation` | ode_solvers.py:37-51 | one force evaluation followed by the second stage |
| `OdeSolvers.ThirdEvaluation` | ode_solvers.py:53-67 | one force evaluation followed by the third stage |
| `OdeSolvers.FourthEvaluation` | ode_solvers.py:69-76 | one force evaluation followed by the fourth stage |
| `OdeSolvers.Rk4` | ode_solvers.py:1-83 | `rk4` calls `add_forces` exactly four times and leaves every object in the state the RK4 specification computes from the original states and the force law |
| `OdeSolvers.DriftAll` | ode_solvers.py:97-99 | every object takes its first velocity-Verlet half and its half-step velocity is saved |
| `OdeSolvers.CompleteAll` | ode_solvers.py:103-105 | every object completes its step with its own saved velocity |
| `OdeSolvers.VelocityVerlet` | ode_solvers.py:86-105 | `velocity_verlet` calls `add_forces` exactly once, and every object ends in the state the velocity-Verlet specification computes |
| `OdeSolvers.Rk4Bookkeeping` | ode_solvers.py:78-83 | whatever the force law, an RK4 step leaves every accumulator at zero, appends exactly the new position to each trail, and keeps every mass and timestep |
| `OdeSolvers.VelocityVerletUniformForce` | ode_solvers.py:86-105 | under constant forces, a velocity-Verlet step is exact uniformly accelerated motion, and the accumulators again hold the same forces |
| `OdeSolvers.Rk4WeightsUniform` | objects.py:189-193 | the 1:2:2:1 weights applied to the slopes of a constant acceleration give v dt + a dt²/2 and a dt |
| `OdeSolvers.Rk4BodyUniform` | ode_solvers.py:78-83 | a body that finds the same force at all four evaluations ends exactly where uniformly accelerated motion takes it |
| `OdeSolvers.Rk4Loads` | ode_solvers.py:12-76 | under a constant force law, each of the four evaluations finds a body carrying exactly its constant force |
| `OdeSolvers.Rk4UniformForce` | ode_solvers.py:1-83 | under constant forces and from empty accumulators, an `rk4` step is exact uniformly accelerated motion and leaves the accumulators at 0 |
| `ParticleRk4.Rk4First` | ode_solvers/rk4.py:5-11 | `rk4_1` returns kx0 = v dt, kv0 = (F/m) dt and kx1 = (v + kv0/2) dt, and only clears the accumulator |
| `ParticleRk4.Rk4Second` | ode_solvers/rk4.py:14-19 | `rk4_2` returns kx2 = (org_vel + kv1/2) dt and kv1 = (F/m) dt, and only clears the accumulator |
| `ParticleRk4.Rk4Third` | ode_solvers/rk4.py:22-27 | `rk4_3` returns kx3 = (org_vel + kv2) dt and kv2 = (F/m) dt, and only clears the accumulator |
| `ParticleRk4.Rk4Fourth` | ode_solvers/rk4.py:30-34 | `rk4_4` returns kv3 = (F/m) dt and only clears the accumulator |
| `ParticleRk4.ApplyStep` | ode_solvers/rk4.py:37-43 | the RK4 result is the original plus the weighted slopes over 6. The new position is appended to the trail, the accumulator is cleared, and mass and timestep are kept |
| `ParticleRk4.ApplyRk4` | ode_solvers/rk4.py:37-43 | `apply_rk4` leaves the particle in the RK4 result state |
| `ParticleRk4.WithForces` | ode_solvers/rk4.py:59 | one force evaluation grows every accumulator by the law's value and changes nothing else |
| `ParticleRk4.ForceField.AddForces` | ode_solvers/rk4.py:59 | the callback changes only the accumulators, as the force law says, and counts one call |
| `ParticleRk4.FirstSlopes` | ode_solvers/rk4.py:66-70 | the first loop collects every particle's kx0, kx1 and kv0 and clears the accumulators |
| `ParticleRk4.SecondSlopes` | ode_solvers/rk4.py:82-85 | the second loop collects kx2 from the saved velocities and kv1, and clears the accumulators |
| `ParticleRk4.ThirdSlopes` | ode_solvers/rk4.py:97-100 | the third loop collects kx3 from the saved velocities and kv2, and clears the accumulators |
| `ParticleRk4.FourthSlopes` | ode_solvers/rk4.py:111-113 | the fourth loop collects kv3 and clears the accumulators |
| `ParticleRk4.MoveToMidpoints` | ode_solvers/rk4.py:72-74 | every particle is placed at orig + dx/2 with velocity orig_v + dv/2, and nothing else changes |
| `ParticleRk4.MoveToEndpoints` | ode_solvers/rk4.py:102-104 | every particle is placed at orig + dx with velocity orig_v + dv, and nothing else changes |
| `ParticleRk4.ApplyAll` | ode_solvers/rk4.py:115-118 | every particle receives the RK4 result from its own slopes and saved state |
| `ParticleRk4.FirstStage` | ode_solvers/rk4.py:59-74 | one force evaluation, the slopes it yields, and the move to the first midpoints |
| `ParticleRk4.SecondStage` | ode_solvers/rk4.py:76-89 | one force evaluation, the slopes it yields, and the move to the second midpoints |
| `ParticleRk4.ThirdStage` | ode_solvers/rk4.py:91-104 | one force evaluation, the slopes it yields, and the move to the endpoints |
| `ParticleRk4.FourthStage` | ode_solvers/rk4.py:106-113 | the last force evaluation and the slopes it yields |
| `ParticleRk4.RungeKutta4thOrder` | ode_solvers/rk4.py:46-118 | `runge_kutta_4th_order` calls `add_forces` exactly four times and leaves every particle in the state the RK4 specification computes |
| `ParticleRk4.Rk4WeightsUniform` | ode_solvers/rk4.py:40-41 | the 1:2:2:1 weights applied to the slopes of a constant acceleration give v dt + a dt²/2 and a dt |
| `ParticleRk4.Rk4ParticleUniform` | ode_solvers/rk4.py:37-43 | a particle that finds the same force at all four evaluations ends exactly where uniformly accelerated motion takes it |
| `ParticleRk4.Rk4Loads` | ode_solvers/rk4.py:56-113 | under a constant force law, each of the four evaluations finds a particle carrying exactly its constant force |
| `ParticleRk4.Rk4Bookkeeping` | ode_solvers/rk4.py:40-43 | whatever the force law, an RK4 step leaves every accumulator at zero, appends exactly the new position to each trail, and keeps every mass and timestep |
| `ParticleRk4.Rk4UniformForce` | ode_solvers/rk4.py:46-118 | under constant forces and from empty accumulators, an RK4 step is exact uniformly accelerated motion |
| `ParticleRk4.Rk4FreeMotion` | ode_solvers/rk4.py:46-118 | with no force, an RK4 step leaves the velocity unchanged and advances the position by v dt |

## Left out

- The `add_forces` callback is a pure force law. It maps the scene's states and a body's index to the force that body receives. A callback that reads anything else, such as the clock or the mouse, is not modelled.
- `math.sqrt`, `math.atan2`, `math.cos` and `math.sin` are not modelled. A square root is a parameter `u` with `u > 0` and `u * u` equal to the sum of squares. `cos`/`sin` of `atan2(dy, dx)` is `(dx/d, dy/d)`, and `(1, 0)` at `d = 0`.
- The sympy parsing and differentiation in `rail_constraint` is not modelled. The curve is given as `f`, `f'` and `f''`.
- `np.linalg.solve` is not modelled. `λ` is a parameter that satisfies the system (`Solves`), and `get_forces`/`add_forces` are proved for that `λ`.
- `np.linalg.inv` is not modelled. `W` is the diagonal of the reciprocal masses, and `MassMatrixInverse` proves it inverts `M`.
- `Constraints.ConstraintManager.constructor`: requires non-zero masses. The source's `np.linalg.inv` raises on a singular mass matrix, and that error path is not modelled. The same holds for `Reset` and `Update`.
- `Constraints.ConstraintManager.constructor`: requires `dimensions == 2`. Every row and index in the source uses two components per particle. The same holds for `Snapshot`, `Reset` and `Update`.
- The constraint values `c` and `dc` are modelled only for `rail_constraint`, which is the only method that fills them.
- `Constraints.ConstraintManager.DistanceConstraint`: requires the two particles to be at different positions (`u > 0`). At `u = 0` the source divides by zero.
- Integrators and drivers require non-zero masses. For an `Object`, the scalar division by a zero mass raises `ZeroDivisionError`, and that error path is not modelled. For a `Particle`, numpy division by a zero mass gives `inf` or `nan` with a warning (ode_solvers/rk4.py:8, 16, 24, 32), and `real` cannot represent those values.
- `OdeSolvers.Rk4`: requires the objects to be distinct. The drivers in ode_solvers.py look bodies up with `objects.index` (lines 27, 44, 60, 80, 104), which finds only the first listing of a body listed twice. The same holds for `OdeSolvers.VelocityVerlet`.
- `ParticleRk4.RungeKutta4thOrder`: requires the particles to be distinct. Its stage loops use `enumerate` (ode_solvers/rk4.py:66-118), so a particle listed twice is well defined in the source. Its later listing reads an accumulator that the earlier listing has already cleared, and the last listing's position, velocity and RK4 result overwrite the earlier ones. The model's per-particle stage functions do not capture that aliasing.
- `Constraints.ConstraintManager.Update`: the scene is a `seq` value fixed at construction. In the source, `self.scene` refers to the caller's list (constraints.py:10), so `update` also sees particles appended to that list later. The model does not capture that.
- Floating-point rounding, NaN and overflow are not modelled. Every quantity is a Dafny `real`.
- Aliasing between numpy arrays is not modelled. In the source, `particle.position` is stored in the trail and in `original_coordinates` by reference. The model stores copies, which matches the source because every update rebinds the array rather than mutating it.
- The `Particle` class is not part of this model's source files. It is modelled from its uses: position, velocity and force accumulator as 2-element vectors, plus mass, timestep and trail.
- `Object.distance` (objects.py:30-31) is not modelled. No integrator, force or driver uses it.
- Drawing is not modelled: the `draw` methods, `coords_to_pygame` and `Spring_to_mouse`. These work in screen coordinates.
- `ode_solvers/velocity_verlet.py` is not modelled. It loops over an undefined name, and its intended behaviour is the modelled `velocity_verlet` of `ode_solvers.py`.
- The demo, benchmark and screen-recording scripts are not modelled. They are event loops and file I/O.
- `Objects.Object.Energy`: states non-negativity and zero at rest. It does not state that zero energy implies rest, which also needs a positive mass.
