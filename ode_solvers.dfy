module OdeSolvers {
  import opened LinearAlgebra
  import opened Objects

  // ---------------------------------------------------------------------------
  // The force callback

  /**
   * What one `add_forces` call adds to body `i`'s accumulator, as a function of
   * the state of every body at the moment of the call.
   */
  type ForceLaw = (seq<ObjectState>, nat) -> Point

  /** Every body has a mass the integrators can divide by. */
  predicate Massive(states: seq<ObjectState>) {
    forall i :: 0 <= i < |states| ==> states[i].mass != 0.0
  }

  /** The states after one `add_forces` call: each accumulator grows by the law's value, nothing else moves. */
  function WithForces(states: seq<ObjectState>, law: ForceLaw): (r: seq<ObjectState>)
    ensures |r| == |states|
    ensures forall i :: 0 <= i < |states| ==> Cleared(r[i]) == Cleared(states[i])
    ensures forall i :: 0 <= i < |states| ==>
      r[i].forceX - states[i].forceX == law(states, i).0 && r[i].forceY - states[i].forceY == law(states, i).1
    ensures Massive(states) ==> Massive(r)
  {
    seq(|states|, i requires 0 <= i < |states| =>
      states[i].(forceX := states[i].forceX + law(states, i).0, forceY := states[i].forceY + law(states, i).1))
  }

  /**
   * The `add_forces` function the drivers receive. Its effect is given by
   * `law`; `calls` counts how often the drivers evaluate the forces.
   */
  class ForceField {
    const law: ForceLaw
    var calls: nat

    constructor (law: ForceLaw)
      ensures this.law == law && calls == 0
    {
      this.law := law;
      calls := 0;
    }

    method AddForces(objects: seq<Object>)
      requires Distinct(objects)
      modifies objects`forceX, objects`forceY, this`calls
      ensures States(objects) == WithForces(old(States(objects)), law)
      ensures calls == old(calls) + 1
    {
      var snapshot := States(objects);
      var i := 0;
      while i < |objects|
        invariant 0 <= i <= |objects|
        invariant forall j :: 0 <= j < i ==> objects[j].State() == WithForces(snapshot, law)[j]
        invariant forall j :: i <= j < |objects| ==> objects[j].State() == snapshot[j]
        invariant calls == old(calls)
      {
        var body, f := objects[i], law(snapshot, i);
        body.forceX := body.forceX + f.0;
        body.forceY := body.forceY + f.1;
        assert body.State() == WithForces(snapshot, law)[i];
        i := i + 1;
      }
      assert States(objects) == WithForces(snapshot, law);
      calls := calls + 1;
    }
  }

  // ---------------------------------------------------------------------------
  // The fourth-order Runge-Kutta driver, `rk4`

  function Positions(states: seq<ObjectState>): (r: seq<Point>)
    ensures |r| == |states| && forall i :: 0 <= i < |states| ==> r[i] == Position(states[i])
  {
    seq(|states|, i requires 0 <= i < |states| => Position(states[i]))
  }

  function Velocities(states: seq<ObjectState>): (r: seq<Point>)
    ensures |r| == |states| && forall i :: 0 <= i < |states| ==> r[i] == Velocity(states[i])
  {
    seq(|states|, i requires 0 <= i < |states| => Velocity(states[i]))
  }

  function Kicks(states: seq<ObjectState>): (r: seq<Point>)
    requires Massive(states)
    ensures |r| == |states| && forall i :: 0 <= i < |states| ==> r[i] == Kick(states[i])
  {
    seq(|states|, i requires 0 <= i < |states| => Kick(states[i]))
  }

  /** `p + d / 2` per axis. */
  function Midway(p: Point, d: Point): Point {
    (p.0 + d.0 / 2.0, p.1 + d.1 / 2.0)
  }

  /** `p + d` per axis. */
  function Across(p: Point, d: Point): Point {
    (p.0 + d.0, p.1 + d.1)
  }

  /** `s` with its accumulator consumed, placed at position `p` with velocity `v`. */
  function MovedTo(s: ObjectState, p: Point, v: Point): (r: ObjectState)
    ensures Position(r) == p && Velocity(r) == v
    ensures r.forceX == 0.0 && r.forceY == 0.0
    ensures r.mass == s.mass && r.timestep == s.timestep && r.trail == s.trail
  {
    Cleared(s).(x := p.0, y := p.1, xVel := v.0, yVel := v.1)
  }

  /** After the first stage loop: every body at `orig + kx0 / 2`, `orig_v + kv0 / 2`. */
  function FirstStage(forced: seq<ObjectState>, coords: seq<Point>, vels: seq<Point>): (r: seq<ObjectState>)
    requires Massive(forced) && |coords| == |vels| == |forced|
    ensures |r| == |forced| && Massive(r)
  {
    seq(|forced|, i requires 0 <= i < |forced| =>
      MovedTo(forced[i], Midway(coords[i], Drift(forced[i])), Midway(vels[i], Kick(forced[i]))))
  }

  /** After the second stage loop: every body at `orig + kx1 / 2`, `orig_v + kv1 / 2`. */
  function SecondStage(forced: seq<ObjectState>, coords: seq<Point>, vels: seq<Point>, kx1: seq<Point>): (r: seq<ObjectState>)
    requires Massive(forced) && |coords| == |vels| == |kx1| == |forced|
    ensures |r| == |forced| && Massive(r)
  {
    seq(|forced|, i requires 0 <= i < |forced| =>
      MovedTo(forced[i], Midway(coords[i], kx1[i]), Midway(vels[i], Kick(forced[i]))))
  }

  /** After the third stage loop: every body at `orig + kx2`, `orig_v + kv2`. */
  function ThirdStage(forced: seq<ObjectState>, coords: seq<Point>, vels: seq<Point>, kx2: seq<Point>): (r: seq<ObjectState>)
    requires Massive(forced) && |coords| == |vels| == |kx2| == |forced|
    ensures |r| == |forced| && Massive(r)
  {
    seq(|forced|, i requires 0 <= i < |forced| =>
      MovedTo(forced[i], Across(coords[i], kx2[i]), Across(vels[i], Kick(forced[i]))))
  }

  function ClearedAll(states: seq<ObjectState>): (r: seq<ObjectState>)
    ensures |r| == |states| && forall i :: 0 <= i < |states| ==> r[i] == Cleared(states[i])
  {
    seq(|states|, i requires 0 <= i < |states| => Cleared(states[i]))
  }

  /** The final loop: `rk4_final` on every body with its saved state and its eight slopes. */
  function FinalStage(states: seq<ObjectState>, coords: seq<Point>, vels: seq<Point>, k: seq<Slopes>): (r: seq<ObjectState>)
    requires |coords| == |vels| == |k| == |states|
    ensures |r| == |states|
  {
    seq(|states|, i requires 0 <= i < |states| => Rk4FinalStep(states[i], coords[i], vels[i], k[i]))
  }

  /** `kx1` of every body: its velocity half kicked by the first force evaluation, over one timestep. */
  function FirstMidDrifts(forced: seq<ObjectState>): (r: seq<Point>)
    requires Massive(forced)
    ensures |r| == |forced| && forall i :: 0 <= i < |forced| ==> r[i] == HalfKickDrift(Velocity(forced[i]), forced[i])
  {
    seq(|forced|, i requires 0 <= i < |forced| => HalfKickDrift(Velocity(forced[i]), forced[i]))
  }

  /** `kx2` of every body: its saved velocity half kicked by the second force evaluation, over one timestep. */
  function SecondMidDrifts(vels: seq<Point>, forced: seq<ObjectState>): (r: seq<Point>)
    requires Massive(forced) && |vels| == |forced|
    ensures |r| == |forced| && forall i :: 0 <= i < |forced| ==> r[i] == HalfKickDrift(vels[i], forced[i])
  {
    seq(|forced|, i requires 0 <= i < |forced| => HalfKickDrift(vels[i], forced[i]))
  }

  /** The four force evaluations of one `rk4` call, as seen by the bodies. */
  datatype Rk4Forces = Rk4Forces(f1: seq<ObjectState>, f2: seq<ObjectState>, f3: seq<ObjectState>, f4: seq<ObjectState>)

  function Rk4Evaluations(s0: seq<ObjectState>, law: ForceLaw): (r: Rk4Forces)
    requires Massive(s0)
    ensures |r.f1| == |r.f2| == |r.f3| == |r.f4| == |s0|
    ensures Massive(r.f1) && Massive(r.f2) && Massive(r.f3) && Massive(r.f4)
  {
    var coords, vels := Positions(s0), Velocities(s0);
    var f1 := WithForces(s0, law);
    var f2 := WithForces(FirstStage(f1, coords, vels), law);
    var f3 := WithForces(SecondStage(f2, coords, vels, FirstMidDrifts(f1)), law);
    var f4 := WithForces(ThirdStage(f3, coords, vels, SecondMidDrifts(vels, f2)), law);
    Rk4Forces(f1, f2, f3, f4)
  }

  /** The eight slopes of body `i` collected from the four force evaluations. */
  function Rk4Slopes(s0: seq<ObjectState>, e: Rk4Forces, i: nat): Slopes
    requires i < |s0| == |e.f1| == |e.f2| == |e.f3| == |e.f4|
    requires Massive(e.f1) && Massive(e.f2) && Massive(e.f3) && Massive(e.f4)
  {
    Slopes(Drift(e.f1[i]), HalfKickDrift(Velocity(e.f1[i]), e.f1[i]),
           HalfKickDrift(Velocity(s0[i]), e.f2[i]), FullKickDrift(Velocity(s0[i]), e.f3[i]),
           Kick(e.f1[i]), Kick(e.f2[i]), Kick(e.f3[i]), Kick(e.f4[i]))
  }

  /** What one `rk4` call does to the bodies. */
  function Rk4Spec(s0: seq<ObjectState>, law: ForceLaw): (r: seq<ObjectState>)
    requires Massive(s0)
    ensures |r| == |s0|
  {
    var e := Rk4Evaluations(s0, law);
    FinalStage(ClearedAll(e.f4), Positions(s0), Velocities(s0),
               seq(|s0|, i requires 0 <= i < |s0| => Rk4Slopes(s0, e, i)))
  }

  /** The four assignments a stage loop makes to a body: position `p`, velocity `v`, the rest untouched. */
  method Place(obj: Object, p: Point, v: Point)
    modifies obj
    ensures obj.State() == old(obj.State()).(x := p.0, y := p.1, xVel := v.0, yVel := v.1)
  {
    obj.x := p.0;
    obj.y := p.1;
    obj.xVel := v.0;
    obj.yVel := v.1;
  }

  /** The first stage loop of `rk4`: slopes from the first force evaluation, bodies moved to the first midpoint. */
  method FirstStep(objects: seq<Object>, coords: seq<Point>, vels: seq<Point>) returns (kx0: seq<Point>, kx1: seq<Point>, kv0: seq<Point>)
    requires Distinct(objects) && Massive(States(objects)) && |coords| == |vels| == |objects|
    modifies objects
    ensures States(objects) == FirstStage(old(States(objects)), coords, vels)
    ensures |kx0| == |kv0| == |objects| && kx1 == FirstMidDrifts(old(States(objects)))
    ensures forall i :: 0 <= i < |objects| ==> kx0[i] == Drift(old(States(objects))[i]) && kv0[i] == Kick(old(States(objects))[i])
  {
    ghost var forced := States(objects);
    kx0, kx1, kv0 := [], [], [];
    var i := 0;
    while i < |objects|
      invariant 0 <= i <= |objects| && |kx0| == |kx1| == |kv0| == i
      invariant forall j :: 0 <= j < i ==>
        kx0[j] == Drift(forced[j]) && kx1[j] == HalfKickDrift(Velocity(forced[j]), forced[j]) && kv0[j] == Kick(forced[j])
      invariant forall j :: 0 <= j < i ==> objects[j].State() == FirstStage(forced, coords, vels)[j]
      invariant forall j :: i <= j < |objects| ==> objects[j].State() == forced[j]
    {
      var obj := objects[i];
      var kx0x, kv0x, kx1x, kx0y, kv0y, kx1y := obj.Rk4First();
      kx0, kx1, kv0 := kx0 + [(kx0x, kx0y)], kx1 + [(kx1x, kx1y)], kv0 + [(kv0x, kv0y)];
      Place(obj, (coords[i].0 + kx0x / 2.0, coords[i].1 + kx0y / 2.0), (vels[i].0 + kv0x / 2.0, vels[i].1 + kv0y / 2.0));
      assert obj.State() == FirstStage(forced, coords, vels)[i];
      i := i + 1;
    }
    assert States(objects) == FirstStage(forced, coords, vels);
  }

  /** The second stage loop: slopes from the second force evaluation, bodies moved to the second midpoint. */
  method SecondStep(objects: seq<Object>, coords: seq<Point>, vels: seq<Point>, kv0: seq<Point>, kx1: seq<Point>)
    returns (kx2: seq<Point>, kv1: seq<Point>)
    requires Distinct(objects) && Massive(States(objects))
    requires |coords| == |vels| == |kv0| == |kx1| == |objects|
    modifies objects
    ensures States(objects) == SecondStage(old(States(objects)), coords, vels, kx1)
    ensures |kv1| == |objects| && kx2 == SecondMidDrifts(vels, old(States(objects)))
    ensures forall i :: 0 <= i < |objects| ==> kv1[i] == Kick(old(States(objects))[i])
  {
    ghost var forced := States(objects);
    kx2, kv1 := [], [];
    var i := 0;
    while i < |objects|
      invariant 0 <= i <= |objects| && |kx2| == |kv1| == i
      invariant forall j :: 0 <= j < i ==> kx2[j] == HalfKickDrift(vels[j], forced[j]) && kv1[j] == Kick(forced[j])
      invariant forall j :: 0 <= j < i ==> objects[j].State() == SecondStage(forced, coords, vels, kx1)[j]
      invariant forall j :: i <= j < |objects| ==> objects[j].State() == forced[j]
    {
      var obj := objects[i];
      var kx2x, kv1x, kx2y, kv1y := obj.Rk4Second(kv0[i].0, kv0[i].1, vels[i]);
      kx2, kv1 := kx2 + [(kx2x, kx2y)], kv1 + [(kv1x, kv1y)];
      Place(obj, (coords[i].0 + kx1[i].0 / 2.0, coords[i].1 + kx1[i].1 / 2.0), (vels[i].0 + kv1[i].0 / 2.0, vels[i].1 + kv1[i].1 / 2.0));
      assert obj.State() == SecondStage(forced, coords, vels, kx1)[i];
      i := i + 1;
    }
    assert States(objects) == SecondStage(forced, coords, vels, kx1);
  }

  /** The third stage loop: slopes from the third force evaluation, bodies moved to the far end of the step. */
  method ThirdStep(objects: seq<Object>, coords: seq<Point>, vels: seq<Point>, kx2: seq<Point>)
    returns (kx3: seq<Point>, kv2: seq<Point>)
    requires Distinct(objects) && Massive(States(objects))
    requires |coords| == |vels| == |kx2| == |objects|
    modifies objects
    ensures States(objects) == ThirdStage(old(States(objects)), coords, vels, kx2)
    ensures |kx3| == |kv2| == |objects|
    ensures forall i :: 0 <= i < |objects| ==>
      kx3[i] == FullKickDrift(vels[i], old(States(objects))[i]) && kv2[i] == Kick(old(States(objects))[i])
  {
    ghost var forced := States(objects);
    kx3, kv2 := [], [];
    var i := 0;
    while i < |objects|
      invariant 0 <= i <= |objects| && |kx3| == |kv2| == i
      invariant forall j :: 0 <= j < i ==> kx3[j] == FullKickDrift(vels[j], forced[j]) && kv2[j] == Kick(forced[j])
      invariant forall j :: 0 <= j < i ==> objects[j].State() == ThirdStage(forced, coords, vels, kx2)[j]
      invariant forall j :: i <= j < |objects| ==> objects[j].State() == forced[j]
    {
      var obj := objects[i];
      var kx3x, kv2x, kx3y, kv2y := obj.Rk4Third(vels[i]);
      kx3, kv2 := kx3 + [(kx3x, kx3y)], kv2 + [(kv2x, kv2y)];
      Place(obj, (coords[i].0 + kx2[i].0, coords[i].1 + kx2[i].1), (vels[i].0 + kv2[i].0, vels[i].1 + kv2[i].1));
      assert obj.State() == ThirdStage(forced, coords, vels, kx2)[i];
      i := i + 1;
    }
    assert States(objects) == ThirdStage(forced, coords, vels, kx2);
  }

  /** The fourth stage loop: the last velocity slope; the bodies keep their places. */
  method FourthStep(objects: seq<Object>) returns (kv3: seq<Point>)
    requires Distinct(objects) && Massive(States(objects))
    modifies objects
    ensures States(objects) == ClearedAll(old(States(objects)))
    ensures kv3 == Kicks(old(States(objects)))
  {
    ghost var forced := States(objects);
    kv3 := [];
    var i := 0;
    while i < |objects|
      invariant 0 <= i <= |objects| && |kv3| == i
      invariant forall j :: 0 <= j < i ==> kv3[j] == Kick(forced[j])
      invariant forall j :: 0 <= j < i ==> objects[j].State() == Cleared(forced[j])
      invariant forall j :: i <= j < |objects| ==> objects[j].State() == forced[j]
    {
      var kv3x, kv3y := objects[i].Rk4Fourth();
      kv3 := kv3 + [(kv3x, kv3y)];
      i := i + 1;
    }
    assert States(objects) == ClearedAll(forced);
  }

  /** The final loop: `rk4_final` on every body. */
  method FinalStep(objects: seq<Object>, coords: seq<Point>, vels: seq<Point>, k: seq<Slopes>)
    requires Distinct(objects) && |coords| == |vels| == |k| == |objects|
    modifies objects
    ensures States(objects) == FinalStage(old(States(objects)), coords, vels, k)
  {
    ghost var before := States(objects);
    var i := 0;
    while i < |objects|
      invariant 0 <= i <= |objects|
      invariant forall j :: 0 <= j < i ==> objects[j].State() == FinalStage(before, coords, vels, k)[j]
      invariant forall j :: i <= j < |objects| ==> objects[j].State() == before[j]
    {
      objects[i].Rk4Final(coords[i], vels[i], k[i]);
      i := i + 1;
    }
    assert States(objects) == FinalStage(before, coords, vels, k);
  }

  /** The eight slopes of every body, gathered from the per-stage lists. */
  function Collected(kx0: seq<Point>, kx1: seq<Point>, kx2: seq<Point>, kx3: seq<Point>,
                     kv0: seq<Point>, kv1: seq<Point>, kv2: seq<Point>, kv3: seq<Point>): (r: seq<Slopes>)
    requires |kx0| == |kx1| == |kx2| == |kx3| == |kv0| == |kv1| == |kv2| == |kv3|
    ensures |r| == |kx0|
    ensures forall i :: 0 <= i < |r| ==> r[i] == Slopes(kx0[i], kx1[i], kx2[i], kx3[i], kv0[i], kv1[i], kv2[i], kv3[i])
  {
    seq(|kx0|, i requires 0 <= i < |kx0| => Slopes(kx0[i], kx1[i], kx2[i], kx3[i], kv0[i], kv1[i], kv2[i], kv3[i]))
  }

  /** The states the driver passes through between its four force evaluations are the ones `Rk4Evaluations` names. */
  lemma {:induction false} Rk4Chain(s0: seq<ObjectState>, law: ForceLaw, f1: seq<ObjectState>, m1: seq<ObjectState>,
                                    f2: seq<ObjectState>, m2: seq<ObjectState>, f3: seq<ObjectState>, m3: seq<ObjectState>,
                                    f4: seq<ObjectState>)
    requires Massive(s0) && f1 == WithForces(s0, law)
    requires m1 == FirstStage(f1, Positions(s0), Velocities(s0)) && f2 == WithForces(m1, law)
    requires m2 == SecondStage(f2, Positions(s0), Velocities(s0), FirstMidDrifts(f1)) && f3 == WithForces(m2, law)
    requires m3 == ThirdStage(f3, Positions(s0), Velocities(s0), SecondMidDrifts(Velocities(s0), f2)) && f4 == WithForces(m3, law)
    ensures Rk4Evaluations(s0, law) == Rk4Forces(f1, f2, f3, f4)
  {
  }

  /** The slopes the stage loops hand back are the ones the four force evaluations determine. */
  lemma {:induction false} CollectedSlopes(s0: seq<ObjectState>, e: Rk4Forces,
                        kx0: seq<Point>, kx1: seq<Point>, kx2: seq<Point>, kx3: seq<Point>,
                        kv0: seq<Point>, kv1: seq<Point>, kv2: seq<Point>, kv3: seq<Point>)
    requires |s0| == |e.f1| == |e.f2| == |e.f3| == |e.f4|
    requires Massive(e.f1) && Massive(e.f2) && Massive(e.f3) && Massive(e.f4)
    requires |kx0| == |kx3| == |kv0| == |kv1| == |kv2| == |s0|
    requires forall i :: 0 <= i < |s0| ==> kx0[i] == Drift(e.f1[i]) && kv0[i] == Kick(e.f1[i])
    requires kx1 == FirstMidDrifts(e.f1) && kx2 == SecondMidDrifts(Velocities(s0), e.f2)
    requires forall i :: 0 <= i < |s0| ==> kv1[i] == Kick(e.f2[i])
    requires forall i :: 0 <= i < |s0| ==> kx3[i] == FullKickDrift(Velocities(s0)[i], e.f3[i]) && kv2[i] == Kick(e.f3[i])
    requires kv3 == Kicks(e.f4)
    ensures Collected(kx0, kx1, kx2, kx3, kv0, kv1, kv2, kv3) == seq(|s0|, i requires 0 <= i < |s0| => Rk4Slopes(s0, e, i))
  {
  }

  /** The first force evaluation of `rk4` followed by its first stage loop. */
  method FirstEvaluation(objects: seq<Object>, field: ForceField, coords: seq<Point>, vels: seq<Point>)
    returns (kx0: seq<Point>, kx1: seq<Point>, kv0: seq<Point>, ghost f1: seq<ObjectState>)
    requires Distinct(objects) && Massive(States(objects)) && |coords| == |vels| == |objects|
    modifies objects, field`calls
    ensures f1 == WithForces(old(States(objects)), field.law) && field.calls == old(field.calls) + 1
    ensures States(objects) == FirstStage(f1, coords, vels)
    ensures |kx0| == |kv0| == |objects| && kx1 == FirstMidDrifts(f1)
    ensures forall i :: 0 <= i < |objects| ==> kx0[i] == Drift(f1[i]) && kv0[i] == Kick(f1[i])
  {
    field.AddForces(objects);
    f1 := States(objects);
    kx0, kx1, kv0 := FirstStep(objects, coords, vels);
  }

  /** The second force evaluation followed by the second stage loop. */
  method SecondEvaluation(objects: seq<Object>, field: ForceField, coords: seq<Point>, vels: seq<Point>, kv0: seq<Point>, kx1: seq<Point>)
    returns (kx2: seq<Point>, kv1: seq<Point>, ghost f2: seq<ObjectState>)
    requires Distinct(objects) && Massive(States(objects))
    requires |coords| == |vels| == |kv0| == |kx1| == |objects|
    modifies objects, field`calls
    ensures f2 == WithForces(old(States(objects)), field.law) && field.calls == old(field.calls) + 1
    ensures States(objects) == SecondStage(f2, coords, vels, kx1)
    ensures |kv1| == |objects| && kx2 == SecondMidDrifts(vels, f2)
    ensures forall i :: 0 <= i < |objects| ==> kv1[i] == Kick(f2[i])
  {
    field.AddForces(objects);
    f2 := States(objects);
    kx2, kv1 := SecondStep(objects, coords, vels, kv0, kx1);
  }

  /** The third force evaluation followed by the third stage loop. */
  method ThirdEvaluation(objects: seq<Object>, field: ForceField, coords: seq<Point>, vels: seq<Point>, kx2: seq<Point>)
    returns (kx3: seq<Point>, kv2: seq<Point>, ghost f3: seq<ObjectState>)
    requires Distinct(objects) && Massive(States(objects))
    requires |coords| == |vels| == |kx2| == |objects|
    modifies objects, field`calls
    ensures f3 == WithForces(old(States(objects)), field.law) && field.calls == old(field.calls) + 1
    ensures States(objects) == ThirdStage(f3, coords, vels, kx2)
    ensures |kx3| == |kv2| == |objects|
    ensures forall i :: 0 <= i < |objects| ==> kx3[i] == FullKickDrift(vels[i], f3[i]) && kv2[i] == Kick(f3[i])
  {
    field.AddForces(objects);
    f3 := States(objects);
    kx3, kv2 := ThirdStep(objects, coords, vels, kx2);
  }

  /** The fourth force evaluation followed by the fourth stage loop. */
  method FourthEvaluation(objects: seq<Object>, field: ForceField) returns (kv3: seq<Point>, ghost f4: seq<ObjectState>)
    requires Distinct(objects) && Massive(States(objects))
    modifies objects, field`calls
    ensures f4 == WithForces(old(States(objects)), field.law) && field.calls == old(field.calls) + 1
    ensures States(objects) == ClearedAll(f4) && kv3 == Kicks(f4)
  {
    field.AddForces(objects);
    f4 := States(objects);
    kv3 := FourthStep(objects);
  }

  /**
   * `rk4`: four force evaluations and the classical weighted average of the
   * slopes, for every body at once.
   */
  method Rk4(objects: seq<Object>, field: ForceField)
    requires Distinct(objects) && Massive(States(objects))
    modifies objects, field`calls
    ensures States(objects) == Rk4Spec(old(States(objects)), field.law)
    ensures field.calls == old(field.calls) + 4
  {
    ghost var s0 := States(objects);
    var originalCoordinates, originalVelocities := Positions(States(objects)), Velocities(States(objects));
    var kx0, kx1, kv0, f1 := FirstEvaluation(objects, field, originalCoordinates, originalVelocities);
    ghost var m1 := States(objects);
    var kx2, kv1, f2 := SecondEvaluation(objects, field, originalCoordinates, originalVelocities, kv0, kx1);
    ghost var m2 := States(objects);
    var kx3, kv2, f3 := ThirdEvaluation(objects, field, originalCoordinates, originalVelocities, kx2);
    ghost var m3 := States(objects);
    var kv3, f4 := FourthEvaluation(objects, field);
    var k := Collected(kx0, kx1, kx2, kx3, kv0, kv1, kv2, kv3);
    Rk4Chain(s0, field.law, f1, m1, f2, m2, f3, m3, f4);
    CollectedSlopes(s0, Rk4Forces(f1, f2, f3, f4), kx0, kx1, kx2, kx3, kv0, kv1, kv2, kv3);
    FinalStep(objects, originalCoordinates, originalVelocities, k);
  }

  // ---------------------------------------------------------------------------
  // The velocity Verlet driver, `velocity_verlet`

  /** Every body after `velocity_verlet_1`: moved a full step, accumulator consumed. */
  function FirstHalves(s0: seq<ObjectState>): (r: seq<ObjectState>)
    requires Massive(s0)
    ensures |r| == |s0| && Massive(r)
    ensures forall i :: 0 <= i < |s0| ==> r[i] == VelocityVerletFirst(s0[i])
  {
    seq(|s0|, i requires 0 <= i < |s0| => VelocityVerletFirst(s0[i]))
  }

  /** What one `velocity_verlet` call does to the bodies. */
  function VelocityVerletSpec(s0: seq<ObjectState>, law: ForceLaw): (r: seq<ObjectState>)
    requires Massive(s0)
    ensures |r| == |s0|
  {
    var forced := WithForces(FirstHalves(s0), law);
    seq(|s0|, i requires 0 <= i < |s0| => VelocityVerletSecond(forced[i], HalfStepVelocity(s0[i])))
  }

  /** The first loop of `velocity_verlet`: every body drifts and hands back its half-step velocity. */
  method DriftAll(objects: seq<Object>) returns (vel: seq<Point>)
    requires Distinct(objects) && Massive(States(objects))
    modifies objects
    ensures States(objects) == FirstHalves(old(States(objects)))
    ensures |vel| == |objects|
    ensures forall i :: 0 <= i < |objects| ==> vel[i] == HalfStepVelocity(old(States(objects))[i])
  {
    ghost var s0 := States(objects);
    vel := [];
    var i := 0;
    while i < |objects|
      invariant 0 <= i <= |objects| && |vel| == i
      invariant forall j :: 0 <= j < i ==> vel[j] == HalfStepVelocity(s0[j])
      invariant forall j :: 0 <= j < i ==> objects[j].State() == VelocityVerletFirst(s0[j])
      invariant forall j :: i <= j < |objects| ==> objects[j].State() == s0[j]
    {
      var v := objects[i].VelocityVerlet1();
      vel := vel + [v];
      i := i + 1;
    }
    assert States(objects) == FirstHalves(s0);
  }

  /** The second loop of `velocity_verlet`: every velocity is completed with the new force. */
  method CompleteAll(objects: seq<Object>, vel: seq<Point>)
    requires Distinct(objects) && Massive(States(objects)) && |vel| == |objects|
    modifies objects
    ensures |States(objects)| == |objects|
    ensures forall i :: 0 <= i < |objects| ==> objects[i].State() == VelocityVerletSecond(old(States(objects))[i], vel[i])
  {
    ghost var forced := States(objects);
    var i := 0;
    while i < |objects|
      invariant 0 <= i <= |objects|
      invariant forall j :: 0 <= j < i ==> objects[j].State() == VelocityVerletSecond(forced[j], vel[j])
      invariant forall j :: i <= j < |objects| ==> objects[j].State() == forced[j]
    {
      objects[i].VelocityVerlet2(vel[i]);
      i := i + 1;
    }
  }

  /**
   * `velocity_verlet`: every body drifts and returns its half-step velocity,
   * the forces are evaluated once, and every velocity is completed.
   */
  method VelocityVerlet(objects: seq<Object>, field: ForceField)
    requires Distinct(objects) && Massive(States(objects))
    modifies objects, field`calls
    ensures States(objects) == VelocityVerletSpec(old(States(objects)), field.law)
    ensures field.calls == old(field.calls) + 1
  {
    ghost var s0 := States(objects);
    var vel := DriftAll(objects);
    field.AddForces(objects);
    CompleteAll(objects, vel);
    assert States(objects) == VelocityVerletSpec(s0, field.law);
  }

  // ---------------------------------------------------------------------------
  // Exactness under constant forces

  /** The law always gives body `i` the same force `g[i]`, wherever the bodies are. */
  ghost predicate ConstantLaw(law: ForceLaw, g: seq<Point>) {
    forall t: seq<ObjectState>, i: nat :: i < |g| ==> law(t, i) == g[i]
  }

  /**
   * A velocity Verlet step that starts with every accumulator holding the
   * body's constant force is exact: each body follows uniformly accelerated
   * motion, and the accumulator again holds the same force for the next step.
   */
  lemma {:induction false} VelocityVerletUniformForce(s0: seq<ObjectState>, law: ForceLaw, g: seq<Point>)
    requires Massive(s0) && |g| == |s0| && ConstantLaw(law, g)
    requires forall i :: 0 <= i < |s0| ==> s0[i].forceX == g[i].0 && s0[i].forceY == g[i].1
    ensures forall i :: 0 <= i < |s0| ==>
      var r := VelocityVerletSpec(s0, law)[i];
      r.x == UniformPosition(s0[i].x, s0[i].xVel, Acceleration(s0[i]).0, s0[i].timestep) &&
      r.y == UniformPosition(s0[i].y, s0[i].yVel, Acceleration(s0[i]).1, s0[i].timestep) &&
      r.xVel == UniformVelocity(s0[i].xVel, Acceleration(s0[i]).0, s0[i].timestep) &&
      r.yVel == UniformVelocity(s0[i].yVel, Acceleration(s0[i]).1, s0[i].timestep) &&
      r.forceX == g[i].0 && r.forceY == g[i].1
  {
    forall i | 0 <= i < |s0|
      ensures VelocityVerletSpec(s0, law)[i] == VelocityVerletBoth(s0[i])
    {
      var forced := WithForces(FirstHalves(s0), law);
      assert law(FirstHalves(s0), i) == g[i];
      assert forced[i] == VelocityVerletFirst(s0[i]).(forceX := s0[i].forceX, forceY := s0[i].forceY);
    }
    forall i | 0 <= i < |s0|
      ensures VelocityVerletBoth(s0[i]).x == UniformPosition(s0[i].x, s0[i].xVel, Acceleration(s0[i]).0, s0[i].timestep)
      ensures VelocityVerletBoth(s0[i]).y == UniformPosition(s0[i].y, s0[i].yVel, Acceleration(s0[i]).1, s0[i].timestep)
      ensures VelocityVerletBoth(s0[i]).xVel == UniformVelocity(s0[i].xVel, Acceleration(s0[i]).0, s0[i].timestep)
      ensures VelocityVerletBoth(s0[i]).yVel == UniformVelocity(s0[i].yVel, Acceleration(s0[i]).1, s0[i].timestep)
    {
      VelocityVerletUniformPosition(s0[i]);
      VelocityVerletUniformVelocity(s0[i]);
    }
  }

  /**
   * Whatever the force law, one `rk4` call leaves every accumulator at zero,
   * appends exactly the new position to every trail, and keeps every mass and
   * timestep.
   */
  lemma {:induction false} Rk4Bookkeeping(s0: seq<ObjectState>, law: ForceLaw)
    requires Massive(s0)
    ensures forall i :: 0 <= i < |s0| ==>
      var r := Rk4Spec(s0, law)[i];
      r.forceX == 0.0 && r.forceY == 0.0 && r.trail == s0[i].trail + [(r.x, r.y)] &&
      r.mass == s0[i].mass && r.timestep == s0[i].timestep
  {
    var e := Rk4Evaluations(s0, law);
    forall i | 0 <= i < |s0|
      ensures Rk4Spec(s0, law)[i] == Rk4FinalStep(Cleared(e.f4[i]), Positions(s0)[i], Velocities(s0)[i], Rk4Slopes(s0, e, i))
    {
    }
  }

  /** Acceleration `g / m` that the constant force `g` gives a body of mass `m`. */
  function Accelerated(g: Point, mass: real): Point
    requires mass != 0.0
  {
    (g.0 / mass, g.1 / mass)
  }

  /**
   * The RK4 weights applied to the slopes of a constant acceleration: with
   * `k = a dt`, `(kx0 + 2 kx1 + 2 kx2 + kx3) / 6` is `v dt + a dt^2 / 2`.
   */
  lemma Rk4WeightsUniform(p: real, v: real, a: real, dt: real)
    ensures p + (1.0 / 6.0) * (v * dt + 2.0 * ((v + 0.5 * (a * dt)) * dt) + 2.0 * ((v + 0.5 * (a * dt)) * dt) + (v + a * dt) * dt)
         == UniformPosition(p, v, a, dt)
    ensures v + (1.0 / 6.0) * (a * dt + 2.0 * (a * dt) + 2.0 * (a * dt) + a * dt) == UniformVelocity(v, a, dt)
  {
    assert (v + 0.5 * (a * dt)) * dt == v * dt + 0.5 * (a * dt * dt);
    assert (v + a * dt) * dt == v * dt + a * dt * dt;
  }

  /** A body carrying the constant force `g` gets the velocity slope `(g / m) dt`. */
  lemma {:induction false} KickOfLoad(f: ObjectState, g: Point)
    requires f.mass != 0.0 && f.forceX == g.0 && f.forceY == g.1
    ensures Kick(f).0 == Accelerated(g, f.mass).0 * f.timestep
    ensures Kick(f).1 == Accelerated(g, f.mass).1 * f.timestep
  {
    assert Acceleration(f).0 == Accelerated(g, f.mass).0;
  }

  /** One body's RK4 result when all four evaluations found it carrying the constant force `g`. */
  lemma {:induction false} Rk4BodyUniform(o: ObjectState, g: Point, f1: ObjectState, f2: ObjectState, f3: ObjectState, f4: ObjectState)
    requires o.mass != 0.0
    requires f1.mass == f2.mass == f3.mass == f4.mass == o.mass
    requires f1.timestep == f2.timestep == f3.timestep == f4.timestep == o.timestep
    requires f1.forceX == f2.forceX == f3.forceX == f4.forceX == g.0
    requires f1.forceY == f2.forceY == f3.forceY == f4.forceY == g.1
    requires Velocity(f1) == Velocity(o)
    ensures var r := Rk4FinalStep(Cleared(f4), Position(o), Velocity(o),
                                  Slopes(Drift(f1), HalfKickDrift(Velocity(f1), f1), HalfKickDrift(Velocity(o), f2),
                                         FullKickDrift(Velocity(o), f3), Kick(f1), Kick(f2), Kick(f3), Kick(f4)));
            var a := Accelerated(g, o.mass);
            r.x == UniformPosition(o.x, o.xVel, a.0, o.timestep) && r.y == UniformPosition(o.y, o.yVel, a.1, o.timestep) &&
            r.xVel == UniformVelocity(o.xVel, a.0, o.timestep) && r.yVel == UniformVelocity(o.yVel, a.1, o.timestep)
  {
    KickOfLoad(f1, g);
    KickOfLoad(f2, g);
    KickOfLoad(f3, g);
    KickOfLoad(f4, g);
    Rk4WeightsUniform(o.x, o.xVel, Accelerated(g, o.mass).0, o.timestep);
    Rk4WeightsUniform(o.y, o.yVel, Accelerated(g, o.mass).1, o.timestep);
  }

  /** Under a constant law, each of the four evaluations finds body `i` carrying exactly `g_i`. */
  lemma {:induction false} Rk4Loads(s0: seq<ObjectState>, law: ForceLaw, g: seq<Point>, i: nat)
    requires Massive(s0) && |g| == |s0| && ConstantLaw(law, g) && i < |s0|
    requires s0[i].forceX == 0.0 && s0[i].forceY == 0.0
    ensures var e := Rk4Evaluations(s0, law);
      e.f1[i].mass == e.f2[i].mass == e.f3[i].mass == e.f4[i].mass == s0[i].mass &&
      e.f1[i].timestep == e.f2[i].timestep == e.f3[i].timestep == e.f4[i].timestep == s0[i].timestep &&
      e.f1[i].forceX == e.f2[i].forceX == e.f3[i].forceX == e.f4[i].forceX == g[i].0 &&
      e.f1[i].forceY == e.f2[i].forceY == e.f3[i].forceY == e.f4[i].forceY == g[i].1 &&
      Velocity(e.f1[i]) == Velocity(s0[i])
  {
    var coords, vels := Positions(s0), Velocities(s0);
    var f1 := WithForces(s0, law);
    var s1 := FirstStage(f1, coords, vels);
    var f2 := WithForces(s1, law);
    var s2 := SecondStage(f2, coords, vels, FirstMidDrifts(f1));
    var f3 := WithForces(s2, law);
    var s3 := ThirdStage(f3, coords, vels, SecondMidDrifts(vels, f2));
    var f4 := WithForces(s3, law);
    assert Rk4Evaluations(s0, law) == Rk4Forces(f1, f2, f3, f4);
    assert law(s0, i) == g[i] && law(s1, i) == g[i] && law(s2, i) == g[i] && law(s3, i) == g[i];
    assert Cleared(f1[i]) == Cleared(s0[i]);
    assert Cleared(f2[i]) == Cleared(s1[i]);
    assert Cleared(f3[i]) == Cleared(s2[i]);
    assert Cleared(f4[i]) == Cleared(s3[i]);
  }

  /**
   * An RK4 step from empty accumulators under constant forces is exact: each
   * body follows uniformly accelerated motion with acceleration `g_i / m_i`,
   * and its accumulator is left empty.
   */
  lemma {:induction false} Rk4UniformForce(s0: seq<ObjectState>, law: ForceLaw, g: seq<Point>)
    requires Massive(s0) && |g| == |s0| && ConstantLaw(law, g)
    requires forall i :: 0 <= i < |s0| ==> s0[i].forceX == 0.0 && s0[i].forceY == 0.0
    ensures forall i :: 0 <= i < |s0| ==>
      var r := Rk4Spec(s0, law)[i];
      var a := Accelerated(g[i], s0[i].mass);
      r.x == UniformPosition(s0[i].x, s0[i].xVel, a.0, s0[i].timestep) &&
      r.y == UniformPosition(s0[i].y, s0[i].yVel, a.1, s0[i].timestep) &&
      r.xVel == UniformVelocity(s0[i].xVel, a.0, s0[i].timestep) &&
      r.yVel == UniformVelocity(s0[i].yVel, a.1, s0[i].timestep) &&
      r.forceX == 0.0 && r.forceY == 0.0
  {
    var e := Rk4Evaluations(s0, law);
    var coords, vels := Positions(s0), Velocities(s0);
    var k := seq(|s0|, i requires 0 <= i < |s0| => Rk4Slopes(s0, e, i));
    assert Rk4Spec(s0, law) == FinalStage(ClearedAll(e.f4), coords, vels, k);
    forall i | 0 <= i < |s0|
      ensures Rk4Spec(s0, law)[i].x == UniformPosition(s0[i].x, s0[i].xVel, Accelerated(g[i], s0[i].mass).0, s0[i].timestep)
      ensures Rk4Spec(s0, law)[i].y == UniformPosition(s0[i].y, s0[i].yVel, Accelerated(g[i], s0[i].mass).1, s0[i].timestep)
      ensures Rk4Spec(s0, law)[i].xVel == UniformVelocity(s0[i].xVel, Accelerated(g[i], s0[i].mass).0, s0[i].timestep)
      ensures Rk4Spec(s0, law)[i].yVel == UniformVelocity(s0[i].yVel, Accelerated(g[i], s0[i].mass).1, s0[i].timestep)
    {
      Rk4Loads(s0, law, g, i);
      Rk4BodyUniform(s0[i], g[i], e.f1[i], e.f2[i], e.f3[i], e.f4[i]);
      assert Rk4Spec(s0, law)[i] == Rk4FinalStep(Cleared(e.f4[i]), Position(s0[i]), Velocity(s0[i]), Rk4Slopes(s0, e, i));
    }
  }
}
