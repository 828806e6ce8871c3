/**
 * The flocking agent: its parameter record, the forces it recorded at its
 * last decision, and the force generators and the decision procedure that
 * turn one tick's percepts into two intentions. Each generator is proved
 * to return the force the matching function of `Steering` describes.
 */
module Flocking {
  import opened Wrappers
  import opened Numerics
  import opened Forces
  import opened Percepts
  import opened FlockerSettings
  import opened Steering

  datatype ActionType = Turn | ChangeSpeed

  /** One planned action and its amount (an angle to turn by, a speed change). */
  datatype Intention = Intention(action: ActionType, amount: real)

  class Flocker {
    /** The decision parameters. */
    var flocking: FlockerAttributes
    /** The forces of the behaviours enabled at the last decision; null before any. */
    var safety: WeightedForce?
    var collision: WeightedForce?
    var alignment: WeightedForce?
    var centering: WeightedForce?
    var light: WeightedForce?
    /** Declared for drawing, but no decision ever assigns it. */
    var total: WeightedForce?
    /** The intentions of the last decision. */
    var todo: seq<Intention>
    /** The agent's top forward speed (form.maxSpeedForward). */
    var maxSpeedForward: real
    /** The agent's current forward speed (status.forwardV). */
    var forwardV: real

    /**
     * A flocker whose parameters are read from the agent's XML attributes,
     * with the flocker defaults record (the static defaultFlockerAttributes,
     * which starts out as `DefaultParams` and which XML files may reset) for
     * the unspecified ones; its force snapshots are still null. (The speeds
     * come from the base-class records.)
     */
    constructor (atts: AttributeSet, defaults: FlockerAttributes, m: Trig, maxSpeed: real, speed: real)
      requires WellFormed(atts)
      ensures fresh(flocking) && flocking.Value() == Merge(atts, defaults.Value(), m).value
      ensures safety == null && collision == null && alignment == null
      ensures centering == null && light == null && total == null
      ensures maxSpeedForward == maxSpeed && forwardV == speed
    {
      var f := new FlockerAttributes(defaults.Value());
      var outcome := f.Set(atts, defaults, m);
      flocking := f;
      safety := null;
      collision := null;
      alignment := null;
      centering := null;
      light := null;
      total := null;
      maxSpeedForward := maxSpeed;
      forwardV := speed;
    }

    /**
     * maintainClearance: for every admitted obstacle or predator, in order,
     * multiplies the running weight by clearance/distance and adds a force
     * of that weight toward the cone edge away from it.
     */
    method MaintainClearance(ps: seq<Percept>, m: Trig) returns (mf: WeightedForce)
      requires ClearDistancesPositive(flocking.Value().tuning, ps)
      ensures fresh(mf) && mf.Value() == ClearanceForce(flocking.Value().tuning, m, ps)
    {
      var t := flocking.Value().tuning;
      mf := new WeightedForce.Zero();
      var angle := 0.0;
      var distScaledWt := t.obstacleWeight;
      for i := 0 to |ps|
        invariant fresh(mf)
        invariant distScaledWt == ClearanceWeight(t, ps[..i])
        invariant mf.Value() == ClearanceForce(t, m, ps[..i])
      {
        var p := ps[i];
        assert ps[..i + 1][..i] == ps[..i] && ps[..i + 1][i] == p;
        if IsTargetClear(t, p) {
          if p.angle <= 0.0 {
            angle := t.cone;
          } else {
            angle := -t.cone;
          }
          distScaledWt := distScaledWt * (t.clearance / p.distance);
          var clearForce := new WeightedForce(m, distScaledWt, angle);
          mf.AddIn(clearForce);
        }
      }
      assert ps[..|ps|] == ps;
    }

    /**
     * separateFromNeighbors: for every boid nearer than the separation
     * distance, adds a push directly away from it of weight
     * separationWeight * separationDistance/distance.
     */
    method SeparateFromNeighbors(ps: seq<Percept>, m: Trig) returns (sf: WeightedForce)
      requires SepDistancesPositive(flocking.Value().tuning, ps)
      ensures fresh(sf) && sf.Value() == SeparationForce(flocking.Value().tuning, m, ps)
    {
      var t := flocking.Value().tuning;
      sf := new WeightedForce.Zero();
      var angle := 0.0;
      var distScaledWt := t.separationWeight;
      assert ps[..0] == [];
      for i := 0 to |ps|
        invariant fresh(sf)
        invariant distScaledWt == t.separationWeight
        invariant sf.Value() == SeparationForce(t, m, ps[..i])
      {
        var p := ps[i];
        assert ps[..i + 1] == ps[..i] + [p];
        SeparationForceSnoc(t, m, ps[..i], p);
        if IsTargetBoidSep(t, p) {
          angle := -p.angle;
          distScaledWt := distScaledWt * (t.separationDistance / p.distance);
          var sepForce := new WeightedForce(m, distScaledWt, angle);
          sf.AddIn(sepForce);
          distScaledWt := t.separationWeight;
        }
      }
      assert ps[..|ps|] == ps;
    }

    /**
     * alignWithNeighbors: adds a force of alignment weight along the
     * heading of every neighbour, then divides by their number when there
     * is at least one.
     */
    method AlignWithNeighbors(ps: seq<Percept>, m: Trig) returns (af: WeightedForce)
      ensures fresh(af) && af.Value() == AlignmentForce(flocking.Value().tuning, m, ps)
    {
      var t := flocking.Value().tuning;
      af := new WeightedForce.Zero();
      var angle := 0.0;
      var distScaledWt := t.alignmentWeight;
      var neighborCount := 0;
      for i := 0 to |ps|
        invariant fresh(af)
        invariant neighborCount == |AlignmentHeadings(t, ps[..i])|
        invariant af.Value() == Sum(PolarAll(m, t.alignmentWeight, AlignmentHeadings(t, ps[..i])))
      {
        var p := ps[i];
        assert ps[..i + 1][..i] == ps[..i] && ps[..i + 1][i] == p;
        if IsTargetBoidAlign(t, p) {
          neighborCount := neighborCount + 1;
          angle := p.orientation;
          var alignForce := new WeightedForce(m, distScaledWt, angle);
          af.AddIn(alignForce);
          SumPolarAllSnoc(m, t.alignmentWeight, AlignmentHeadings(t, ps[..i]), p.orientation);
        }
      }
      assert ps[..|ps|] == ps;
      if neighborCount >= 1 {
        af.Reweight(1.0 / (neighborCount as real));
      }
    }

    /**
     * centerOnNeighbors: adds a force of centering weight toward every
     * neighbour, then divides by their number when there is at least one.
     */
    method CenterOnNeighbors(ps: seq<Percept>, m: Trig) returns (cf: WeightedForce)
      ensures fresh(cf) && cf.Value() == CenteringForce(flocking.Value().tuning, m, ps)
    {
      var t := flocking.Value().tuning;
      cf := new WeightedForce.Zero();
      var distScaledWt := t.centeringWeight;
      var neighborCount := 0;
      for i := 0 to |ps|
        invariant fresh(cf)
        invariant neighborCount == |CenteringBearings(t, ps[..i])|
        invariant cf.Value() == Sum(PolarAll(m, t.centeringWeight, CenteringBearings(t, ps[..i])))
      {
        var p := ps[i];
        assert ps[..i + 1][..i] == ps[..i] && ps[..i + 1][i] == p;
        if IsTargetBoidCenter(t, p) {
          neighborCount := neighborCount + 1;
          var centerForce := new WeightedForce(m, t.centeringWeight, p.angle);
          cf.AddIn(centerForce);
          SumPolarAllSnoc(m, t.centeringWeight, CenteringBearings(t, ps[..i]), p.angle);
        }
      }
      assert ps[..|ps|] == ps;
      if neighborCount >= 1 {
        cf.Reweight(1.0 / (neighborCount as real));
      }
    }

    /**
     * bestTarget(ps, m): scans the percepts once, keeping the first
     * admitted light and replacing it only by one of strictly smaller cost.
     */
    method BestTargetBy(ps: seq<Percept>, cost: Percept -> real) returns (best: Option<Percept>)
      ensures best == NearestBy(flocking.Value().tuning, cost, ps)
    {
      var t := flocking.Value().tuning;
      best := None;
      var bestValue := 0.0;
      for i := 0 to |ps|
        invariant best == NearestBy(t, cost, ps[..i])
        invariant best.Some? ==> bestValue == cost(best.value)
      {
        var p := ps[i];
        assert ps[..i + 1] == ps[..i] + [p];
        NearestBySnoc(t, cost, ps[..i], p);
        if IsTargetLight(t, p) {
          if best.Some? {
            var quality := cost(p);
            if quality < bestValue {
              best := Some(p);
              bestValue := quality;
            }
          } else {
            best := Some(p);
            bestValue := cost(p);
          }
        }
      }
      assert ps[..|ps|] == ps;
    }

    /** bestTarget(ps): the nearest admitted light, ranked by targetCost. */
    method BestTarget(ps: seq<Percept>) returns (best: Option<Percept>)
      ensures best == NearestBy(flocking.Value().tuning, TargetCost, ps)
    {
      best := BestTargetBy(ps, TargetCost);
    }

    /**
     * followLight: the zero force when no light is admitted, else a force
     * toward the nearest one of weight followWeight * detection/distance.
     */
    method FollowLight(ps: seq<Percept>, m: Trig) returns (ff: WeightedForce)
      requires LightDistancesPositive(flocking.Value().tuning, ps)
      ensures fresh(ff) && ff.Value() == LightForce(flocking.Value().tuning, m, ps)
    {
      var t := flocking.Value().tuning;
      ff := new WeightedForce.Zero();
      var angle := 0.0;
      var distScaledWt := t.followWeight;
      var closestLight := BestTarget(ps);
      if closestLight.Some? {
        angle := closestLight.value.angle;
      } else {
        return;
      }
      ghost var light := closestLight.value;
      assert light.distance > 0.0 by {
        LightForceOfNearest(t, m, ps, light);
      }
      distScaledWt := distScaledWt * (t.detectionDistance / closestLight.value.distance);
      var lightForce := new WeightedForce(m, distScaledWt, angle);
      ff.AddIn(lightForce);
      assert ff.Value() == LightForce(t, m, ps) by {
        LightForceOfNearest(t, m, ps, light);
        AddZero(lightForce.Value());
      }
    }

    /**
     * affinityForGreen: for every percept whose green channel is 254,
     * whatever its category or distance, adds a pull toward it of weight
     * 5 * obstacleWeight * detection/distance.
     */
    method AffinityForGreen(ps: seq<Percept>, m: Trig) returns (az: WeightedForce)
      requires GreenDistancesPositive(ps)
      ensures fresh(az) && az.Value() == GreenForce(flocking.Value().tuning, m, ps)
    {
      var t := flocking.Value().tuning;
      az := new WeightedForce.Zero();
      assert ps[..0] == [];
      for i := 0 to |ps|
        invariant fresh(az)
        invariant az.Value() == GreenForce(t, m, ps[..i])
      {
        var p := ps[i];
        assert ps[..i + 1] == ps[..i] + [p];
        GreenForceSnoc(t, m, ps[..i], p);
        if p.color.green == TargetGreen {
          var greenForce := new WeightedForce(m, 5.0 * t.obstacleWeight * (t.detectionDistance / p.distance), p.angle * 1.0);
          az.AddIn(greenForce);
        }
      }
      assert ps[..|ps|] == ps;
    }

    /**
     * One block of `deliberate`: with obstacle avoidance on, runs `maintainClearance` and
     * records its force in `safety`; with it off, the zero force and `safety` is left as it was.
     */
    method SafetyBlock(ps: seq<Percept>, m: Trig) returns (safetyForce: WeightedForce)
      requires flocking.Value().switches.avoidsObstacles ==> ClearDistancesPositive(flocking.Value().tuning, ps)
      modifies this`safety
      ensures fresh(safetyForce)
      ensures safetyForce.Value() == if flocking.Value().switches.avoidsObstacles then ClearanceForce(flocking.Value().tuning, m, ps) else ZeroVec
      ensures if flocking.Value().switches.avoidsObstacles then safety == safetyForce else safety == old(safety)
    {
      if flocking.avoidsObstacles {
        safetyForce := MaintainClearance(ps, m);
        safety := safetyForce;
      } else {
        safetyForce := new WeightedForce.Zero();
      }
    }

    /**
     * One block of `deliberate`: with collision avoidance on, runs `separateFromNeighbors` and
     * records its force in `collision`; with it off, the zero force and `collision` is left as it was.
     */
    method CollisionBlock(ps: seq<Percept>, m: Trig) returns (collisionForce: WeightedForce)
      requires flocking.Value().switches.avoidsCollisions ==> SepDistancesPositive(flocking.Value().tuning, ps)
      modifies this`collision
      ensures fresh(collisionForce)
      ensures collisionForce.Value() == if flocking.Value().switches.avoidsCollisions then SeparationForce(flocking.Value().tuning, m, ps) else ZeroVec
      ensures if flocking.Value().switches.avoidsCollisions then collision == collisionForce else collision == old(collision)
    {
      if flocking.avoidsCollisions {
        collisionForce := SeparateFromNeighbors(ps, m);
        collision := collisionForce;
      } else {
        collisionForce := new WeightedForce.Zero();
      }
    }

    /**
     * One block of `deliberate`: with alignment on, runs `alignWithNeighbors` and
     * records its force in `alignment`; with it off, the zero force and `alignment` is left as it was.
     */
    method AlignmentBlock(ps: seq<Percept>, m: Trig) returns (alignmentForce: WeightedForce)
      modifies this`alignment
      ensures fresh(alignmentForce)
      ensures alignmentForce.Value() == if flocking.Value().switches.alignsWithNeighbors then AlignmentForce(flocking.Value().tuning, m, ps) else ZeroVec
      ensures if flocking.Value().switches.alignsWithNeighbors then alignment == alignmentForce else alignment == old(alignment)
    {
      if flocking.alignsWithNeighbors {
        alignmentForce := AlignWithNeighbors(ps, m);
        alignment := alignmentForce;
      } else {
        alignmentForce := new WeightedForce.Zero();
      }
    }

    /**
     * One block of `deliberate`: with centering on, runs `centerOnNeighbors` and
     * records its force in `centering`; with it off, the zero force and `centering` is left as it was.
     */
    method CenteringBlock(ps: seq<Percept>, m: Trig) returns (centeringForce: WeightedForce)
      modifies this`centering
      ensures fresh(centeringForce)
      ensures centeringForce.Value() == if flocking.Value().switches.doesCentering then CenteringForce(flocking.Value().tuning, m, ps) else ZeroVec
      ensures if flocking.Value().switches.doesCentering then centering == centeringForce else centering == old(centering)
    {
      if flocking.doesCentering {
        centeringForce := CenterOnNeighbors(ps, m);
        centering := centeringForce;
      } else {
        centeringForce := new WeightedForce.Zero();
      }
    }

    /**
     * One block of `deliberate`: with light following on, runs `followLight` and
     * records its force in `light`; with it off, the zero force and `light` is left as it was.
     */
    method LightBlock(ps: seq<Percept>, m: Trig) returns (lightForce: WeightedForce)
      requires flocking.Value().switches.followsLight ==> LightDistancesPositive(flocking.Value().tuning, ps)
      modifies this`light
      ensures fresh(lightForce)
      ensures lightForce.Value() == if flocking.Value().switches.followsLight then LightForce(flocking.Value().tuning, m, ps) else ZeroVec
      ensures if flocking.Value().switches.followsLight then light == lightForce else light == old(light)
    {
      if flocking.followsLight {
        lightForce := FollowLight(ps, m);
        light := lightForce;
      } else {
        lightForce := new WeightedForce.Zero();
      }
    }

    /**
     * The summation closing `deliberate`: a new zero force with the seven
     * forces added in, in the order given.
     */
    method Combine(inertia: WeightedForce, safetyForce: WeightedForce, collisionForce: WeightedForce,
                   alignmentForce: WeightedForce, centeringForce: WeightedForce, lightForce: WeightedForce,
                   affForce: WeightedForce) returns (f: WeightedForce)
      ensures fresh(f)
      ensures f.Value() == Add(Add(Add(Add(Add(Add(Add(ZeroVec, inertia.Value()), safetyForce.Value()),
        collisionForce.Value()), alignmentForce.Value()), centeringForce.Value()), lightForce.Value()), affForce.Value())
    {
      f := new WeightedForce.Zero();
      f.AddIn(inertia);
      f.AddIn(safetyForce);
      f.AddIn(collisionForce);
      f.AddIn(alignmentForce);
      f.AddIn(centeringForce);
      f.AddIn(lightForce);
      f.AddIn(affForce);
    }

    /**
     * The five switchable behaviours of deliberate, in the source's order:
     * each enabled one computes its force and records it in its snapshot
     * field; a disabled one contributes the zero force.
     */
    method Behaviours(ps: seq<Percept>, m: Trig)
      returns (safetyForce: WeightedForce, collisionForce: WeightedForce, alignmentForce: WeightedForce,
               centeringForce: WeightedForce, lightForce: WeightedForce)
      requires ForcesDefined(flocking.Value().switches, flocking.Value().tuning, ps)
      modifies this`safety, this`collision, this`alignment, this`centering, this`light
      ensures var sw, t := flocking.Value().switches, flocking.Value().tuning;
        && fresh(safetyForce) && fresh(collisionForce) && fresh(alignmentForce) && fresh(centeringForce) && fresh(lightForce)
        && safetyForce.Value() == (if sw.avoidsObstacles then ClearanceForce(t, m, ps) else ZeroVec)
        && collisionForce.Value() == (if sw.avoidsCollisions then SeparationForce(t, m, ps) else ZeroVec)
        && alignmentForce.Value() == (if sw.alignsWithNeighbors then AlignmentForce(t, m, ps) else ZeroVec)
        && centeringForce.Value() == (if sw.doesCentering then CenteringForce(t, m, ps) else ZeroVec)
        && lightForce.Value() == (if sw.followsLight then LightForce(t, m, ps) else ZeroVec)
        && (if sw.avoidsObstacles then safety == safetyForce else safety == old(safety))
        && (if sw.avoidsCollisions then collision == collisionForce else collision == old(collision))
        && (if sw.alignsWithNeighbors then alignment == alignmentForce else alignment == old(alignment))
        && (if sw.doesCentering then centering == centeringForce else centering == old(centering))
        && (if sw.followsLight then light == lightForce else light == old(light))
    {
      safetyForce := SafetyBlock(ps, m);
      collisionForce := CollisionBlock(ps, m);
      alignmentForce := AlignmentBlock(ps, m);
      centeringForce := CenteringBlock(ps, m);
      lightForce := LightBlock(ps, m);
    }

    /**
     * deliberate: runs every enabled behaviour and records its force,
     * adds inertia, the enabled forces (zero for a disabled one) and the
     * colour affinity, and plans a turn toward the sum and a change of
     * speed to the top forward speed.
     */
    method Deliberate(ps: seq<Percept>, m: Trig)
      requires ForcesDefined(flocking.Value().switches, flocking.Value().tuning, ps)
      modifies this
      ensures flocking == old(flocking) && total == old(total)
      ensures maxSpeedForward == old(maxSpeedForward) && forwardV == old(forwardV)
      ensures var sw, t := flocking.Value().switches, flocking.Value().tuning;
        && (sw.avoidsObstacles ==> safety != null && fresh(safety) && safety.Value() == ClearanceForce(t, m, ps))
        && (!sw.avoidsObstacles ==> safety == old(safety))
        && (sw.avoidsCollisions ==> collision != null && fresh(collision) && collision.Value() == SeparationForce(t, m, ps))
        && (!sw.avoidsCollisions ==> collision == old(collision))
        && (sw.alignsWithNeighbors ==> alignment != null && fresh(alignment) && alignment.Value() == AlignmentForce(t, m, ps))
        && (!sw.alignsWithNeighbors ==> alignment == old(alignment))
        && (sw.doesCentering ==> centering != null && fresh(centering) && centering.Value() == CenteringForce(t, m, ps))
        && (!sw.doesCentering ==> centering == old(centering))
        && (sw.followsLight ==> light != null && fresh(light) && light.Value() == LightForce(t, m, ps))
        && (!sw.followsLight ==> light == old(light))
      ensures todo == [
        Intention(Turn, Direction(m, Resultant(flocking.Value().switches, flocking.Value().tuning, m, ps))),
        Intention(ChangeSpeed, maxSpeedForward - forwardV)]
    {
      ghost var sw, t := flocking.Value().switches, flocking.Value().tuning;
      var inertia := new WeightedForce(m, 1.0, 0.0);

      var safetyForce, collisionForce, alignmentForce, centeringForce, lightForce := Behaviours(ps, m);

      // The source guards this call with a constant `true`.
      var affForce := AffinityForGreen(ps, m);

      var f := Combine(inertia, safetyForce, collisionForce, alignmentForce, centeringForce, lightForce, affForce);

      todo := [Intention(Turn, f.Angle(m)), Intention(ChangeSpeed, maxSpeedForward - forwardV)];
    }
  }
}
