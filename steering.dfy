/**
 * What each of the flocker's behaviours computes from one tick's percepts,
 * as pure functions of the tuning parameters and the percept list, and
 * the resultant force `deliberate` steers by. Every force function here
 * is defined over a percept list by its last element, in the order the
 * flocker's loops visit the list; the imperative generators are proved
 * against these functions.
 */
module Steering {
  import opened Wrappers
  import opened Numerics
  import opened Forces
  import opened Percepts
  import opened FlockerSettings

  /** The green channel value `affinityForGreen` is drawn to. */
  const TargetGreen := 254

  // ---------------------------------------------------------------------
  // Admission predicates

  /**
   * isTargetClear: an obstacle or predator nearer than the detection
   * distance whose bearing lies in the closed cone [-cone, cone].
   */
  function IsTargetClear(t: Tuning, p: Percept): (b: bool)
    ensures b <==> && (p.category == Obstacle || p.category == Predator)
                   && p.distance < t.detectionDistance
                   && -t.cone <= p.angle <= t.cone
  {
    if p.category == Obstacle || p.category == Predator then
      if p.distance < t.detectionDistance then
        if p.angle >= 0.0 then p.angle <= t.cone
        else p.angle >= -t.cone
      else false
    else false
  }

  /** isTargetBoidSep: a boid strictly nearer than the separation distance. */
  function IsTargetBoidSep(t: Tuning, p: Percept): (b: bool)
    ensures b <==> p.category == Boid && p.distance < t.separationDistance
  {
    if p.category == Boid then
      if p.distance < t.separationDistance then true else false
    else false
  }

  /**
   * isTargetBoidAlign: a boid strictly between the separation and the
   * detection distances; no such boid is one separation reacts to.
   */
  function IsTargetBoidAlign(t: Tuning, p: Percept): (b: bool)
    ensures b ==> p.category == Boid && t.separationDistance < p.distance < t.detectionDistance
    ensures b ==> !IsTargetBoidSep(t, p)
  {
    if p.category == Boid then
      p.distance < t.detectionDistance && p.distance > t.separationDistance
    else false
  }

  /** isTargetBoidCenter: the same neighbour band as alignment. */
  function IsTargetBoidCenter(t: Tuning, p: Percept): (b: bool)
    ensures b <==> IsTargetBoidAlign(t, p)
  {
    if p.category == Boid then
      p.distance < t.detectionDistance && p.distance > t.separationDistance
    else false
  }

  /**
   * isTargetLight: a light nearer than the detection distance; such a percept
   * is never one that clearance or the boid behaviours react to.
   */
  function IsTargetLight(t: Tuning, p: Percept): (b: bool)
    ensures b <==> p.category == Light && p.distance < t.detectionDistance
    ensures b ==> !IsTargetClear(t, p) && !IsTargetBoidSep(t, p) && !IsTargetBoidAlign(t, p)
  {
    p.category == Light && p.distance < t.detectionDistance
  }

  /** isTarget: what the agent is interested in is exactly what light following admits. */
  function IsTarget(t: Tuning, p: Percept): (b: bool)
    ensures b <==> IsTargetLight(t, p)
  {
    p.category == Light && p.distance < t.detectionDistance
  }

  /** How the agent reacts to an agent it comes close to. */
  datatype InteractiveBehavior = Attack | Coexist

  /** behaviorOnApproach: lights are eaten, everything else is left alone. */
  function BehaviorOnApproach(neighbor: Category): (r: InteractiveBehavior)
    ensures r == Attack <==> neighbor == Light
    ensures r == Coexist <==> neighbor != Light
  {
    if neighbor == Light then Attack else Coexist
  }

  /** The colour `affinityForGreen` reacts to, whatever the category. */
  predicate IsGreen(p: Percept) {
    p.color.green == TargetGreen
  }

  /** targetCost: lights are ranked by distance. */
  function TargetCost(p: Percept): real {
    p.distance
  }

  /**
   * The boid bands: a boid is in the separation band iff nearer than the
   * separation distance, in the neighbour band iff strictly between the
   * two distances; the bands are disjoint, and a boid at exactly the
   * separation distance is in neither.
   */
  lemma {:induction false} BoidBands(t: Tuning, p: Percept)
    requires p.category == Boid
    ensures IsTargetBoidSep(t, p) <==> p.distance < t.separationDistance
    ensures IsTargetBoidAlign(t, p) <==> t.separationDistance < p.distance < t.detectionDistance
    ensures !(IsTargetBoidSep(t, p) && IsTargetBoidAlign(t, p))
    ensures p.distance == t.separationDistance ==> !IsTargetBoidSep(t, p) && !IsTargetBoidAlign(t, p)
  {
  }

  // ---------------------------------------------------------------------
  // Clearance

  /** Every percept clearance reacts to is at a positive distance (a divisor). */
  predicate ClearDistancesPositive(t: Tuning, ps: seq<Percept>) {
    forall i :: 0 <= i < |ps| && IsTargetClear(t, ps[i]) ==> ps[i].distance > 0.0
  }

  /** The cone edge on the side away from the percept: +cone for a bearing <= 0, else -cone. */
  function ConeAngle(t: Tuning, p: Percept): real {
    if p.angle <= 0.0 then t.cone else -t.cone
  }

  /**
   * The running weight after `maintainClearance` has visited `ps`: it starts
   * at the obstacle weight and is multiplied by clearance/distance at every
   * admitted percept, and never reset.
   */
  function ClearanceWeight(t: Tuning, ps: seq<Percept>): real
    decreases |ps|
  {
    if |ps| == 0 then t.obstacleWeight
    else
      var p := ps[|ps| - 1];
      var w := ClearanceWeight(t, ps[..|ps| - 1]);
      if IsTargetClear(t, p) then w * Quotient(t.clearance, p.distance) else w
  }

  /** The force `maintainClearance` returns for `ps`. */
  function ClearanceForce(t: Tuning, m: Trig, ps: seq<Percept>): Vec
    decreases |ps|
  {
    if |ps| == 0 then ZeroVec
    else
      var p := ps[|ps| - 1];
      var f := ClearanceForce(t, m, ps[..|ps| - 1]);
      if IsTargetClear(t, p) then Add(f, Polar(m, ClearanceWeight(t, ps), ConeAngle(t, p))) else f
  }

  /** The admitted percepts, in order. */
  function ClearAdmitted(t: Tuning, ps: seq<Percept>): (r: seq<Percept>)
    ensures |r| <= |ps|
    ensures forall i :: 0 <= i < |r| ==> IsTargetClear(t, r[i])
    decreases |ps|
  {
    if |ps| == 0 then []
    else
      var p := ps[|ps| - 1];
      var r := ClearAdmitted(t, ps[..|ps| - 1]);
      if IsTargetClear(t, p) then r + [p] else r
  }

  /**
   * The obstacle weight multiplied, in order, by the ratio clearance/distance
   * of every percept in `qs`.
   */
  function CompoundedWeight(t: Tuning, qs: seq<Percept>): real
    decreases |qs|
  {
    if |qs| == 0 then t.obstacleWeight
    else CompoundedWeight(t, qs[..|qs| - 1]) * Quotient(t.clearance, qs[|qs| - 1].distance)
  }

  /**
   * The reference for clearance: the term of the k-th admitted percept has
   * weight obstacleWeight times the product of clearance/distance over the
   * first k+1 admitted percepts, at its cone edge (CompoundedTermAt).
   */
  function CompoundedTerms(t: Tuning, m: Trig, qs: seq<Percept>): (r: seq<Vec>)
    ensures |r| == |qs|
    decreases |qs|
  {
    if |qs| == 0 then []
    else
      CompoundedTerms(t, m, qs[..|qs| - 1]) +
        [Polar(m, CompoundedWeight(t, qs), ConeAngle(t, qs[|qs| - 1]))]
  }

  lemma {:induction false} CompoundedTermAt(t: Tuning, m: Trig, qs: seq<Percept>, k: int)
    requires 0 <= k < |qs|
    ensures CompoundedTerms(t, m, qs)[k] == Polar(m, CompoundedWeight(t, qs[..k + 1]), ConeAngle(t, qs[k]))
    decreases |qs|
  {
    var n := |qs|;
    var init := qs[..n - 1];
    var last := Polar(m, CompoundedWeight(t, qs), ConeAngle(t, qs[n - 1]));
    assert CompoundedTerms(t, m, qs) == CompoundedTerms(t, m, init) + [last];
    if k == n - 1 {
      assert qs[..k + 1] == qs;
    } else {
      CompoundedTermAt(t, m, init, k);
      assert init[..k + 1] == qs[..k + 1];
      assert init[k] == qs[k];
    }
  }

  /** Admitting one more percept multiplies the compounded weight by its ratio. */
  lemma {:induction false} CompoundedWeightSnoc(t: Tuning, qs: seq<Percept>, q: Percept)
    ensures CompoundedWeight(t, qs + [q]) == CompoundedWeight(t, qs) * Quotient(t.clearance, q.distance)
  {
    assert (qs + [q])[..|qs|] == qs;
  }

  /** One admitted step of ClearanceWeightCompounds. */
  lemma {:induction false} ClearanceWeightAdmittedStep(t: Tuning, ps: seq<Percept>)
    requires |ps| > 0 && IsTargetClear(t, ps[|ps| - 1])
    requires ClearanceWeight(t, ps[..|ps| - 1]) == CompoundedWeight(t, ClearAdmitted(t, ps[..|ps| - 1]))
    ensures ClearanceWeight(t, ps) == CompoundedWeight(t, ClearAdmitted(t, ps))
  {
    var init := ps[..|ps| - 1];
    var p := ps[|ps| - 1];
    var qs := ClearAdmitted(t, init);
    assert ClearAdmitted(t, ps) == qs + [p];
    assert ClearanceWeight(t, ps) == ClearanceWeight(t, init) * Quotient(t.clearance, p.distance);
    CompoundedWeightSnoc(t, qs, p);
  }

  /** The running clearance weight is the obstacle weight times every admitted ratio so far. */
  lemma {:induction false} ClearanceWeightCompounds(t: Tuning, ps: seq<Percept>)
    ensures ClearanceWeight(t, ps) == CompoundedWeight(t, ClearAdmitted(t, ps))
    decreases |ps|
  {
    if |ps| == 0 {
      assert ClearAdmitted(t, ps) == [];
    } else {
      ClearanceWeightCompounds(t, ps[..|ps| - 1]);
      if IsTargetClear(t, ps[|ps| - 1]) {
        ClearanceWeightAdmittedStep(t, ps);
      }
    }
  }

  /** One admitted step of ClearanceIsCompoundedSum. */
  lemma {:induction false} ClearanceAdmittedStep(t: Tuning, m: Trig, ps: seq<Percept>)
    requires |ps| > 0 && IsTargetClear(t, ps[|ps| - 1])
    requires ClearanceForce(t, m, ps[..|ps| - 1]) == Sum(CompoundedTerms(t, m, ClearAdmitted(t, ps[..|ps| - 1])))
    ensures ClearanceForce(t, m, ps) == Sum(CompoundedTerms(t, m, ClearAdmitted(t, ps)))
  {
    var p := ps[|ps| - 1];
    var qs := ClearAdmitted(t, ps[..|ps| - 1]);
    var qs' := qs + [p];
    assert ClearAdmitted(t, ps) == qs';
    ClearanceWeightCompounds(t, ps);
    var last := Polar(m, CompoundedWeight(t, qs'), ConeAngle(t, p));
    assert ClearanceForce(t, m, ps) == Add(ClearanceForce(t, m, ps[..|ps| - 1]), last);
    assert qs'[..|qs'| - 1] == qs && qs'[|qs'| - 1] == p;
    var terms := CompoundedTerms(t, m, qs');
    assert terms == CompoundedTerms(t, m, qs) + [last];
    assert terms[..|terms| - 1] == CompoundedTerms(t, m, qs);
    assert Sum(terms) == Add(Sum(CompoundedTerms(t, m, qs)), last);
  }

  /**
   * `maintainClearance` returns the sum of the compounded terms of the
   * admitted percepts: the k-th admitted percept's weight is the obstacle
   * weight times the product of clearance/distance over the first k+1.
   */
  lemma {:induction false} ClearanceIsCompoundedSum(t: Tuning, m: Trig, ps: seq<Percept>)
    ensures ClearanceForce(t, m, ps) == Sum(CompoundedTerms(t, m, ClearAdmitted(t, ps)))
    decreases |ps|
  {
    if |ps| == 0 {
      assert ClearAdmitted(t, ps) == [];
    } else {
      ClearanceIsCompoundedSum(t, m, ps[..|ps| - 1]);
      if IsTargetClear(t, ps[|ps| - 1]) {
        ClearanceAdmittedStep(t, m, ps);
      }
    }
  }

  /**
   * Two admitted obstacles: the second one's weight carries the first
   * one's ratio as well, so the force depends on the order they are sensed in.
   */
  lemma {:induction false} ClearanceTwoObstacles(t: Tuning, m: Trig, p: Percept, q: Percept)
    requires IsTargetClear(t, p) && IsTargetClear(t, q)
    requires p.distance > 0.0 && q.distance > 0.0
    ensures ClearanceForce(t, m, [p, q]) ==
      Add(Polar(m, t.obstacleWeight * (t.clearance / p.distance), ConeAngle(t, p)),
          Polar(m, t.obstacleWeight * (t.clearance / p.distance) * (t.clearance / q.distance), ConeAngle(t, q)))
  {
    assert [p, q][..1] == [p];
    assert [p][..0] == [];
    var w1 := t.obstacleWeight * (t.clearance / p.distance);
    assert ClearanceWeight(t, [p]) == w1;
    assert ClearanceWeight(t, [p, q]) == w1 * (t.clearance / q.distance);
    AddZero(Polar(m, w1, ConeAngle(t, p)));
    assert ClearanceForce(t, m, [p]) == Polar(m, w1, ConeAngle(t, p));
  }

  /** The ratio clearance/distance tells distances apart when the clearance is not zero. */
  lemma {:induction false} RatiosDiffer(c: real, d: real, e: real)
    requires c != 0.0 && d > 0.0 && e > 0.0 && d != e
    ensures c / d != c / e
  {
    assert (c / d) * d == c && (c / e) * e == c;
    assert (c / d) * (d - e) != 0.0 by {
      assert c / d != 0.0;
      assert d - e != 0.0;
    }
  }

  /**
   * Because the weight compounds, the order in which two obstacles on the
   * same side are sensed changes the clearance force, whenever their
   * distances differ (and the weights, the clearance and the cosine of the
   * cone edge are not zero).
   */
  lemma {:induction false} ClearanceOrderMatters(t: Tuning, m: Trig, p: Percept, q: Percept)
    requires IsTargetClear(t, p) && IsTargetClear(t, q)
    requires p.distance > 0.0 && q.distance > 0.0 && p.distance != q.distance
    requires ConeAngle(t, p) == ConeAngle(t, q)
    requires t.obstacleWeight != 0.0 && t.clearance != 0.0 && m.cos(ConeAngle(t, p)) != 0.0
    ensures ClearanceForce(t, m, [p, q]) != ClearanceForce(t, m, [q, p])
  {
    var w := t.obstacleWeight;
    var rp := t.clearance / p.distance;
    var rq := t.clearance / q.distance;
    var c := m.cos(ConeAngle(t, p));
    ClearancePairFx(t, m, p, q);
    ClearancePairFx(t, m, q, p);
    RatiosDiffer(t.clearance, p.distance, q.distance);
    OrderedTermsDiffer(w, c, rp, rq);
  }

  /**
   * The forward component of the clearance force of two obstacles on the
   * same side: the first contributes w·r_p·cos, the second w·r_p·r_q·cos.
   */
  lemma {:induction false} ClearancePairFx(t: Tuning, m: Trig, p: Percept, q: Percept)
    requires IsTargetClear(t, p) && IsTargetClear(t, q)
    requires p.distance > 0.0 && q.distance > 0.0
    requires ConeAngle(t, p) == ConeAngle(t, q)
    ensures ClearanceForce(t, m, [p, q]).fx ==
      CompoundedFx(t.obstacleWeight, t.clearance / p.distance, t.clearance / q.distance, m.cos(ConeAngle(t, p)))
  {
    ClearanceTwoObstaclesFx(t, m, p, q);
    SharedAngleFx(m, t.obstacleWeight * (t.clearance / p.distance),
                  t.obstacleWeight * (t.clearance / p.distance) * (t.clearance / q.distance),
                  ConeAngle(t, p), ConeAngle(t, q));
  }

  /** w·x·c + w·x·y·c: the two compounded terms of a same-side pair. */
  function CompoundedFx(w: real, x: real, y: real, c: real): real {
    w * x * c + w * x * y * c
  }

  /** Two polar forces along the same angle add up along that angle. */
  lemma {:induction false} SharedAngleFx(m: Trig, x: real, y: real, a: real, b: real)
    requires a == b
    ensures Polar(m, x, a).fx + Polar(m, y, b).fx == x * m.cos(a) + y * m.cos(a)
  { }

  /** The forward component of the two-obstacle clearance force. */
  lemma {:induction false} ClearanceTwoObstaclesFx(t: Tuning, m: Trig, p: Percept, q: Percept)
    requires IsTargetClear(t, p) && IsTargetClear(t, q)
    requires p.distance > 0.0 && q.distance > 0.0
    ensures ClearanceForce(t, m, [p, q]).fx ==
      Polar(m, t.obstacleWeight * (t.clearance / p.distance), ConeAngle(t, p)).fx
      + Polar(m, t.obstacleWeight * (t.clearance / p.distance) * (t.clearance / q.distance), ConeAngle(t, q)).fx
  {
    ClearanceTwoObstacles(t, m, p, q);
    AddFx(Polar(m, t.obstacleWeight * (t.clearance / p.distance), ConeAngle(t, p)),
          Polar(m, t.obstacleWeight * (t.clearance / p.distance) * (t.clearance / q.distance), ConeAngle(t, q)));
  }

  /** w·x·c + w·x·y·c and w·y·c + w·y·x·c differ by w·c·(x − y). */
  lemma {:induction false} OrderedTermsDiffer(w: real, c: real, x: real, y: real)
    requires w != 0.0 && c != 0.0 && x != y
    ensures CompoundedFx(w, x, y, c) != CompoundedFx(w, y, x, c)
  {
    assert (w * x * c + w * x * y * c) - (w * y * c + w * y * x * c) == (w * c) * (x - y);
    assert w * c != 0.0;
  }

  // ---------------------------------------------------------------------
  // Separation

  /** Every boid separation reacts to is at a positive distance (a divisor). */
  predicate SepDistancesPositive(t: Tuning, ps: seq<Percept>) {
    forall i :: 0 <= i < |ps| && IsTargetBoidSep(t, ps[i]) ==> ps[i].distance > 0.0
  }

  /** One neighbour's push: separationWeight * separationDistance/distance, directly away. */
  function SeparationTerm(t: Tuning, m: Trig, p: Percept): Vec {
    Polar(m, t.separationWeight * Quotient(t.separationDistance, p.distance), -p.angle)
  }

  /** The pushes of the admitted boids, in order. */
  function SeparationTerms(t: Tuning, m: Trig, ps: seq<Percept>): seq<Vec>
    decreases |ps|
  {
    if |ps| == 0 then []
    else
      var p := ps[|ps| - 1];
      var r := SeparationTerms(t, m, ps[..|ps| - 1]);
      if IsTargetBoidSep(t, p) then r + [SeparationTerm(t, m, p)] else r
  }

  /** The force `separateFromNeighbors` returns for `ps`. */
  function SeparationForce(t: Tuning, m: Trig, ps: seq<Percept>): Vec {
    Sum(SeparationTerms(t, m, ps))
  }

  lemma {:induction false} SeparationTermsAppend(t: Tuning, m: Trig, a: seq<Percept>, b: seq<Percept>)
    ensures SeparationTerms(t, m, a + b) == SeparationTerms(t, m, a) + SeparationTerms(t, m, b)
    decreases |b|
  {
    if |b| == 0 {
      assert a + b == a;
    } else {
      var b' := b[..|b| - 1];
      assert (a + b)[..|a + b| - 1] == a + b';
      assert (a + b)[|a + b| - 1] == b[|b| - 1];
      SeparationTermsAppend(t, m, a, b');
    }
  }

  lemma {:induction false} SeparationTermsSingle(t: Tuning, m: Trig, p: Percept)
    ensures SeparationTerms(t, m, [p]) == if IsTargetBoidSep(t, p) then [SeparationTerm(t, m, p)] else []
  {
    assert [p][..0] == [];
  }

  /** Separating from two lists in turn adds the two forces. */
  lemma {:induction false} SeparationForceAppend(t: Tuning, m: Trig, a: seq<Percept>, b: seq<Percept>)
    ensures SeparationForce(t, m, a + b) == Add(SeparationForce(t, m, a), SeparationForce(t, m, b))
  {
    SeparationTermsAppend(t, m, a, b);
    SumAppend(SeparationTerms(t, m, a), SeparationTerms(t, m, b));
  }

  /** Taking one percept out of the list and sensing it last gives the same separation force. */
  lemma {:induction false} SeparationRemove(t: Tuning, m: Trig, front: seq<Percept>, x: Percept, back: seq<Percept>)
    ensures SeparationForce(t, m, front + [x] + back) ==
      Add(SeparationForce(t, m, front + back), SeparationForce(t, m, [x]))
  {
    SeparationForceAppend(t, m, front + [x], back);
    SeparationForceAppend(t, m, front, [x]);
    SeparationForceAppend(t, m, front, back);
  }

  /** The step of `separateFromNeighbors`' loop: an admitted boid adds its push, any other percept nothing. */
  lemma {:induction false} SeparationForceSnoc(t: Tuning, m: Trig, ps: seq<Percept>, p: Percept)
    ensures SeparationForce(t, m, ps + [p]) ==
      if IsTargetBoidSep(t, p) then Add(SeparationForce(t, m, ps), SeparationTerm(t, m, p))
      else SeparationForce(t, m, ps)
  {
    assert (ps + [p])[..|ps|] == ps;
    var r := SeparationTerms(t, m, ps);
    if IsTargetBoidSep(t, p) {
      assert (r + [SeparationTerm(t, m, p)])[..|r|] == r;
    }
  }

  /** Separation is order-independent: any rearrangement of the percepts gives the same force. */
  lemma {:induction false} SeparationOrderIrrelevant(t: Tuning, m: Trig, ps: seq<Percept>, qs: seq<Percept>)
    requires multiset(ps) == multiset(qs)
    ensures SeparationForce(t, m, ps) == SeparationForce(t, m, qs)
    decreases |ps|
  {
    if |ps| == 0 {
      assert |qs| == |multiset(qs)| == 0;
      assert qs == [];
    } else {
      var x := ps[|ps| - 1];
      var ps' := ps[..|ps| - 1];
      assert ps == ps' + [x];
      assert x in multiset(qs);
      var j :| 0 <= j < |qs| && qs[j] == x;
      var front := qs[..j];
      var back := qs[j + 1..];
      assert qs == front + [x] + back;
      assert multiset(front + back) == multiset(qs) - multiset{x};
      SeparationOrderIrrelevant(t, m, ps', front + back);
      SeparationForceAppend(t, m, ps', [x]);
      SeparationRemove(t, m, front, x, back);
    }
  }

  // ---------------------------------------------------------------------
  // Alignment and centering

  /** The headings of the boids alignment reacts to, in order. */
  function AlignmentHeadings(t: Tuning, ps: seq<Percept>): seq<real>
    decreases |ps|
  {
    if |ps| == 0 then []
    else
      var p := ps[|ps| - 1];
      var r := AlignmentHeadings(t, ps[..|ps| - 1]);
      if IsTargetBoidAlign(t, p) then r + [p.orientation] else r
  }

  /** The bearings of the boids centering reacts to, in order. */
  function CenteringBearings(t: Tuning, ps: seq<Percept>): seq<real>
    decreases |ps|
  {
    if |ps| == 0 then []
    else
      var p := ps[|ps| - 1];
      var r := CenteringBearings(t, ps[..|ps| - 1]);
      if IsTargetBoidCenter(t, p) then r + [p.angle] else r
  }

  /** The force `alignWithNeighbors` returns: the alignment-weighted headings, averaged. */
  function AlignmentForce(t: Tuning, m: Trig, ps: seq<Percept>): Vec {
    Mean(PolarAll(m, t.alignmentWeight, AlignmentHeadings(t, ps)))
  }

  /** The force `centerOnNeighbors` returns: the centering-weighted bearings, averaged. */
  function CenteringForce(t: Tuning, m: Trig, ps: seq<Percept>): Vec {
    Mean(PolarAll(m, t.centeringWeight, CenteringBearings(t, ps)))
  }

  /** No heading is collected exactly when no percept is an alignment neighbour. */
  lemma {:induction false} NoAlignmentNeighbours(t: Tuning, ps: seq<Percept>)
    ensures |AlignmentHeadings(t, ps)| == 0 <==> forall i :: 0 <= i < |ps| ==> !IsTargetBoidAlign(t, ps[i])
    decreases |ps|
  {
    if |ps| > 0 {
      var init := ps[..|ps| - 1];
      NoAlignmentNeighbours(t, init);
      assert forall i :: 0 <= i < |init| ==> init[i] == ps[i];
    }
  }

  /** Alignment and centering average over the same neighbours, so over the same count. */
  lemma {:induction false} SameNeighbourCount(t: Tuning, ps: seq<Percept>)
    ensures |AlignmentHeadings(t, ps)| == |CenteringBearings(t, ps)|
    decreases |ps|
  {
    if |ps| > 0 {
      SameNeighbourCount(t, ps[..|ps| - 1]);
    }
  }

  /**
   * With no neighbour alignment is the zero force; with n >= 1 it is the
   * plain sum of the neighbours' headings, each weighted alignmentWeight/n.
   */
  lemma {:induction false} AlignmentIsAverage(t: Tuning, m: Trig, ps: seq<Percept>)
    ensures var hs := AlignmentHeadings(t, ps);
      && (|hs| == 0 ==> AlignmentForce(t, m, ps) == ZeroVec)
      && (|hs| >= 1 ==> AlignmentForce(t, m, ps) == Sum(PolarAll(m, t.alignmentWeight / (|hs| as real), hs)))
  {
    MeanOfEqualWeights(m, t.alignmentWeight, AlignmentHeadings(t, ps));
  }

  /**
   * With no neighbour centering is the zero force; with n >= 1 it is the
   * plain sum of the bearings to the neighbours, each weighted centeringWeight/n.
   */
  lemma {:induction false} CenteringIsAverage(t: Tuning, m: Trig, ps: seq<Percept>)
    ensures var bs := CenteringBearings(t, ps);
      && (|bs| == 0 ==> CenteringForce(t, m, ps) == ZeroVec)
      && (|bs| >= 1 ==> CenteringForce(t, m, ps) == Sum(PolarAll(m, t.centeringWeight / (|bs| as real), bs)))
  {
    MeanOfEqualWeights(m, t.centeringWeight, CenteringBearings(t, ps));
  }

  // ---------------------------------------------------------------------
  // Light following

  /**
   * Index k holds the earliest admitted light of least cost: it is
   * admitted, no admitted light costs less, and every admitted light
   * before it costs strictly more.
   */
  predicate IsFirstNearest(t: Tuning, cost: Percept -> real, ps: seq<Percept>, k: int) {
    && 0 <= k < |ps|
    && IsTargetLight(t, ps[k])
    && (forall i :: 0 <= i < |ps| && IsTargetLight(t, ps[i]) ==> cost(ps[k]) <= cost(ps[i]))
    && (forall i :: 0 <= i < k && IsTargetLight(t, ps[i]) ==> cost(ps[k]) < cost(ps[i]))
  }

  /** The index `bestTarget` settles on: none when no light is admitted, else the first nearest. */
  function BestIndex(t: Tuning, cost: Percept -> real, ps: seq<Percept>): (r: Option<nat>)
    ensures r.None? <==> forall i :: 0 <= i < |ps| ==> !IsTargetLight(t, ps[i])
    ensures r.Some? ==> IsFirstNearest(t, cost, ps, r.value)
    decreases |ps|
  {
    if |ps| == 0 then None
    else
      var n := |ps| - 1;
      var p := ps[n];
      var init := ps[..n];
      assert forall i :: 0 <= i < n ==> init[i] == ps[i];
      var b := BestIndex(t, cost, init);
      if !IsTargetLight(t, p) then b
      else match b
        case None => Some(n)
        case Some(k) => if cost(p) < cost(ps[k]) then Some(n) else Some(k)
  }

  /** At most one index is the first nearest. */
  lemma {:induction false} FirstNearestUnique(t: Tuning, cost: Percept -> real, ps: seq<Percept>, j: int, k: int)
    requires IsFirstNearest(t, cost, ps, j)
    requires IsFirstNearest(t, cost, ps, k)
    ensures j == k
  {
  }

  /** The percept `bestTarget` returns (None for Java's null). */
  function NearestBy(t: Tuning, cost: Percept -> real, ps: seq<Percept>): (r: Option<Percept>)
    ensures r.None? <==> forall i :: 0 <= i < |ps| ==> !IsTargetLight(t, ps[i])
    ensures r.Some? ==> r.value in ps && IsTargetLight(t, r.value)
    ensures r.Some? ==> forall i :: 0 <= i < |ps| && IsTargetLight(t, ps[i]) ==> cost(r.value) <= cost(ps[i])
  {
    match BestIndex(t, cost, ps)
    case None => None
    case Some(k) => Some(ps[k])
  }

  /**
   * What `bestTarget` returns is the percept at the first nearest index:
   * on a tie in cost, the earliest admitted light wins.
   */
  lemma {:induction false} NearestByIsFirstNearest(t: Tuning, cost: Percept -> real, ps: seq<Percept>, k: int)
    requires IsFirstNearest(t, cost, ps, k)
    ensures NearestBy(t, cost, ps) == Some(ps[k])
  {
    var j := BestIndex(t, cost, ps).value;
    FirstNearestUnique(t, cost, ps, j, k);
  }

  /**
   * The step of `bestTarget`'s loop: a percept that is not an admitted
   * light changes nothing; an admitted one is taken when nothing is held
   * yet or when it costs strictly less than the one held.
   */
  lemma {:induction false} NearestBySnoc(t: Tuning, cost: Percept -> real, ps: seq<Percept>, p: Percept)
    ensures NearestBy(t, cost, ps + [p]) ==
      if !IsTargetLight(t, p) then NearestBy(t, cost, ps)
      else match NearestBy(t, cost, ps)
        case None => Some(p)
        case Some(q) => if cost(p) < cost(q) then Some(p) else Some(q)
  {
    var qs := ps + [p];
    assert qs[..|ps|] == ps;
    assert qs[|ps|] == p;
    var b := BestIndex(t, cost, ps);
    if b.Some? {
      assert qs[b.value] == ps[b.value];
    }
  }

  /** The light `followLight` picks, if any, is at a positive distance (its one divisor). */
  predicate LightDistancesPositive(t: Tuning, ps: seq<Percept>) {
    NearestBy(t, TargetCost, ps).Some? ==> NearestBy(t, TargetCost, ps).value.distance > 0.0
  }

  /** The force `followLight` returns: toward the nearest light, weighted followWeight * detection/distance. */
  function LightForce(t: Tuning, m: Trig, ps: seq<Percept>): Vec {
    match NearestBy(t, TargetCost, ps)
    case None => ZeroVec
    case Some(p) => Polar(m, t.followWeight * Quotient(t.detectionDistance, p.distance), p.angle)
  }

  /** The light force when `bestTarget` chose `p`: a divisor-exact pull toward it. */
  lemma {:induction false} LightForceOfNearest(t: Tuning, m: Trig, ps: seq<Percept>, p: Percept)
    requires LightDistancesPositive(t, ps)
    requires NearestBy(t, TargetCost, ps) == Some(p)
    ensures p.distance > 0.0
    ensures LightForce(t, m, ps) == Polar(m, t.followWeight * (t.detectionDistance / p.distance), p.angle)
  {
    var k :| 0 <= k < |ps| && ps[k] == p;
    assert IsTargetLight(t, ps[k]);
  }

  /**
   * The light force is zero when no light is admitted, and otherwise the
   * pull toward the earliest nearest admitted light, whichever index that is.
   */
  lemma {:induction false} LightForceCases(t: Tuning, m: Trig, ps: seq<Percept>, k: int)
    requires LightDistancesPositive(t, ps)
    ensures (forall i :: 0 <= i < |ps| ==> !IsTargetLight(t, ps[i])) ==> LightForce(t, m, ps) == ZeroVec
    ensures IsFirstNearest(t, TargetCost, ps, k) ==>
      LightForce(t, m, ps) == Polar(m, t.followWeight * (t.detectionDistance / ps[k].distance), ps[k].angle)
  {
    if IsFirstNearest(t, TargetCost, ps, k) {
      var b := BestIndex(t, TargetCost, ps);
      FirstNearestUnique(t, TargetCost, ps, b.value, k);
    }
  }

  // ---------------------------------------------------------------------
  // Colour affinity

  /** Every green percept is at a positive distance (a divisor). */
  predicate GreenDistancesPositive(ps: seq<Percept>) {
    forall i :: 0 <= i < |ps| && IsGreen(ps[i]) ==> ps[i].distance > 0.0
  }

  /** One green percept's pull: 5 * obstacleWeight * detection/distance, toward its bearing. */
  function GreenTerm(t: Tuning, m: Trig, p: Percept): Vec {
    Polar(m, 5.0 * t.obstacleWeight * Quotient(t.detectionDistance, p.distance), p.angle * 1.0)
  }

  /** The pulls of the green percepts, in order. */
  function GreenTerms(t: Tuning, m: Trig, ps: seq<Percept>): seq<Vec>
    decreases |ps|
  {
    if |ps| == 0 then []
    else
      var p := ps[|ps| - 1];
      var r := GreenTerms(t, m, ps[..|ps| - 1]);
      if IsGreen(p) then r + [GreenTerm(t, m, p)] else r
  }

  /** The force `affinityForGreen` returns for `ps`. */
  function GreenForce(t: Tuning, m: Trig, ps: seq<Percept>): Vec {
    Sum(GreenTerms(t, m, ps))
  }

  /** The step of `affinityForGreen`'s loop: a green percept adds its pull, any other nothing. */
  lemma {:induction false} GreenForceSnoc(t: Tuning, m: Trig, ps: seq<Percept>, p: Percept)
    ensures GreenForce(t, m, ps + [p]) ==
      if IsGreen(p) then Add(GreenForce(t, m, ps), GreenTerm(t, m, p)) else GreenForce(t, m, ps)
  {
    assert (ps + [p])[..|ps|] == ps;
    var r := GreenTerms(t, m, ps);
    if IsGreen(p) {
      assert (r + [GreenTerm(t, m, p)])[..|r|] == r;
    }
  }

  lemma {:induction false} GreenTermIgnoresCategory(t: Tuning, m: Trig, p: Percept, q: Percept)
    requires q == p.(category := q.category)
    ensures GreenTerm(t, m, p) == GreenTerm(t, m, q)
  {
    assert q.distance == p.distance && q.angle == p.angle;
  }

  lemma {:induction false} GreenTermsIgnoreCategory(t: Tuning, m: Trig, ps: seq<Percept>, qs: seq<Percept>)
    requires |ps| == |qs|
    requires forall i :: 0 <= i < |ps| ==> qs[i] == ps[i].(category := qs[i].category)
    ensures GreenTerms(t, m, ps) == GreenTerms(t, m, qs)
    decreases |ps|
  {
    if |ps| > 0 {
      var n := |ps| - 1;
      assert forall i :: 0 <= i < n ==> ps[..n][i] == ps[i] && qs[..n][i] == qs[i];
      GreenTermsIgnoreCategory(t, m, ps[..n], qs[..n]);
      GreenTermIgnoresCategory(t, m, ps[n], qs[n]);
      assert IsGreen(ps[n]) == IsGreen(qs[n]);
    }
  }

  /** Colour affinity looks only at colour: relabelling the categories of the percepts changes nothing. */
  lemma {:induction false} GreenIgnoresCategory(t: Tuning, m: Trig, ps: seq<Percept>, qs: seq<Percept>)
    requires |ps| == |qs|
    requires forall i :: 0 <= i < |ps| ==> qs[i] == ps[i].(category := qs[i].category)
    ensures GreenForce(t, m, ps) == GreenForce(t, m, qs)
  {
    GreenTermsIgnoreCategory(t, m, ps, qs);
  }

  // ---------------------------------------------------------------------
  // The resultant

  /** The constant forward push every decision starts from: weight 1 straight ahead. */
  function Inertia(m: Trig): Vec {
    Polar(m, 1.0, 0.0)
  }

  /** The divisors of every generator that runs under `sw` are positive. */
  predicate ForcesDefined(sw: Switches, t: Tuning, ps: seq<Percept>) {
    && (sw.avoidsObstacles ==> ClearDistancesPositive(t, ps))
    && (sw.avoidsCollisions ==> SepDistancesPositive(t, ps))
    && (sw.followsLight ==> LightDistancesPositive(t, ps))
    && GreenDistancesPositive(ps)
  }

  /**
   * The force `deliberate` turns toward: the zero force with inertia, then
   * each enabled behaviour's force (the zero force for a disabled one) and
   * the colour affinity added in, in that order.
   */
  function Resultant(sw: Switches, t: Tuning, m: Trig, ps: seq<Percept>): Vec {
    var safety := if sw.avoidsObstacles then ClearanceForce(t, m, ps) else ZeroVec;
    var collision := if sw.avoidsCollisions then SeparationForce(t, m, ps) else ZeroVec;
    var alignment := if sw.alignsWithNeighbors then AlignmentForce(t, m, ps) else ZeroVec;
    var centering := if sw.doesCentering then CenteringForce(t, m, ps) else ZeroVec;
    var light := if sw.followsLight then LightForce(t, m, ps) else ZeroVec;
    var affinity := GreenForce(t, m, ps);
    Add(Add(Add(Add(Add(Add(Add(ZeroVec, Inertia(m)), safety), collision), alignment), centering), light), affinity)
  }

  /** The five behaviours a flag switches. */
  datatype Behavior = Clearance | Separation | Alignment | Centering | LightFollowing

  function Enabled(sw: Switches, b: Behavior): bool {
    match b
    case Clearance => sw.avoidsObstacles
    case Separation => sw.avoidsCollisions
    case Alignment => sw.alignsWithNeighbors
    case Centering => sw.doesCentering
    case LightFollowing => sw.followsLight
  }

  /** `sw` with the flag of `b` set to `v`, every other flag as it was. */
  function WithFlag(sw: Switches, b: Behavior, v: bool): (r: Switches)
    ensures Enabled(r, b) == v
    ensures forall c :: c != b ==> Enabled(r, c) == Enabled(sw, c)
  {
    match b
    case Clearance => sw.(avoidsObstacles := v)
    case Separation => sw.(avoidsCollisions := v)
    case Alignment => sw.(alignsWithNeighbors := v)
    case Centering => sw.(doesCentering := v)
    case LightFollowing => sw.(followsLight := v)
  }

  /** The standalone output of the generator of `b`. */
  function BehaviorForce(b: Behavior, t: Tuning, m: Trig, ps: seq<Percept>): Vec {
    match b
    case Clearance => ClearanceForce(t, m, ps)
    case Separation => SeparationForce(t, m, ps)
    case Alignment => AlignmentForce(t, m, ps)
    case Centering => CenteringForce(t, m, ps)
    case LightFollowing => LightForce(t, m, ps)
  }

  /** What behaviour `b` adds to the resultant under `sw`: its force, or the zero force when off. */
  function Contribution(sw: Switches, b: Behavior, t: Tuning, m: Trig, ps: seq<Percept>): Vec {
    if Enabled(sw, b) then BehaviorForce(b, t, m, ps) else ZeroVec
  }

  /** The seven forces `deliberate` adds in, in order. */
  function Contributions(sw: Switches, t: Tuning, m: Trig, ps: seq<Percept>): (r: seq<Vec>)
    ensures |r| == 7
  {
    [Inertia(m), Contribution(sw, Clearance, t, m, ps), Contribution(sw, Separation, t, m, ps),
     Contribution(sw, Alignment, t, m, ps), Contribution(sw, Centering, t, m, ps),
     Contribution(sw, LightFollowing, t, m, ps), GreenForce(t, m, ps)]
  }

  /** The place of behaviour `b` among the contributions. */
  function Slot(b: Behavior): (k: nat)
    ensures 1 <= k <= 5
  {
    match b
    case Clearance => 1
    case Separation => 2
    case Alignment => 3
    case Centering => 4
    case LightFollowing => 5
  }

  /** The resultant is the accumulation of the contributions in order. */
  lemma {:induction false} ResultantIsSum(sw: Switches, t: Tuning, m: Trig, ps: seq<Percept>)
    ensures Resultant(sw, t, m, ps) == Sum(Contributions(sw, t, m, ps))
  {
    var vs := Contributions(sw, t, m, ps);
    assert Sum(vs[..0]) == ZeroVec;
    assert Sum(vs[..1]) == Add(ZeroVec, vs[0]) by { assert vs[..1][..0] == vs[..0]; }
    assert Sum(vs[..2]) == Add(Sum(vs[..1]), vs[1]) by { assert vs[..2][..1] == vs[..1]; }
    assert Sum(vs[..3]) == Add(Sum(vs[..2]), vs[2]) by { assert vs[..3][..2] == vs[..2]; }
    assert Sum(vs[..4]) == Add(Sum(vs[..3]), vs[3]) by { assert vs[..4][..3] == vs[..3]; }
    assert Sum(vs[..5]) == Add(Sum(vs[..4]), vs[4]) by { assert vs[..5][..4] == vs[..4]; }
    assert Sum(vs[..6]) == Add(Sum(vs[..5]), vs[5]) by { assert vs[..6][..5] == vs[..5]; }
    assert Sum(vs) == Add(Sum(vs[..6]), vs[6]) by { assert vs[..6] == vs[..|vs| - 1]; }
  }

  /** Setting the flag of `b` to `v` turns its contribution on or off and leaves the others. */
  lemma {:induction false} ContributionSwitched(sw: Switches, b: Behavior, v: bool, c: Behavior, t: Tuning, m: Trig, ps: seq<Percept>)
    ensures Contribution(WithFlag(sw, b, v), c, t, m, ps) ==
      if c == b then (if v then BehaviorForce(b, t, m, ps) else ZeroVec) else Contribution(sw, c, t, m, ps)
  {
  }

  /** Switching `b` on or off changes its own contribution and no other. */
  lemma {:induction false} ContributionsDiffer(sw: Switches, b: Behavior, t: Tuning, m: Trig, ps: seq<Percept>)
    ensures var on, off, j := Contributions(WithFlag(sw, b, true), t, m, ps), Contributions(WithFlag(sw, b, false), t, m, ps), Slot(b);
      && on[j] == BehaviorForce(b, t, m, ps) && off[j] == ZeroVec
      && forall i :: 0 <= i < 7 && i != j ==> on[i] == off[i]
  {
    var on := Contributions(WithFlag(sw, b, true), t, m, ps);
    var off := Contributions(WithFlag(sw, b, false), t, m, ps);
    var j := Slot(b);
    assert on[0] == off[0] && on[6] == off[6];
    match b
    case Clearance =>
      assert on[2] == off[2] && on[3] == off[3] && on[4] == off[4] && on[5] == off[5];
    case Separation =>
      assert on[1] == off[1] && on[3] == off[3] && on[4] == off[4] && on[5] == off[5];
    case Alignment =>
      assert on[1] == off[1] && on[2] == off[2] && on[4] == off[4] && on[5] == off[5];
    case Centering =>
      assert on[1] == off[1] && on[2] == off[2] && on[3] == off[3] && on[5] == off[5];
    case LightFollowing =>
      assert on[1] == off[1] && on[2] == off[2] && on[3] == off[3] && on[4] == off[4];
  }

  /**
   * Switching one behaviour off removes exactly its standalone force from
   * the resultant and leaves every other contribution as it was.
   */
  lemma {:induction false} DisablingRemovesContribution(sw: Switches, b: Behavior, t: Tuning, m: Trig, ps: seq<Percept>)
    ensures Resultant(WithFlag(sw, b, true), t, m, ps) ==
      Add(Resultant(WithFlag(sw, b, false), t, m, ps), BehaviorForce(b, t, m, ps))
  {
    var on := Contributions(WithFlag(sw, b, true), t, m, ps);
    var off := Contributions(WithFlag(sw, b, false), t, m, ps);
    var j := Slot(b);
    ContributionsDiffer(sw, b, t, m, ps);
    ResultantIsSum(WithFlag(sw, b, true), t, m, ps);
    ResultantIsSum(WithFlag(sw, b, false), t, m, ps);
    SumSwapOne(on, off, j, BehaviorForce(b, t, m, ps));
  }

  /** With nothing sensed every behaviour is the zero force, so the resultant is inertia alone. */
  lemma {:induction false} NoPerceptsMeansInertia(sw: Switches, t: Tuning, m: Trig)
    ensures ForcesDefined(sw, t, [])
    ensures Resultant(sw, t, m, []) == Inertia(m)
  {
    assert PolarAll(m, t.alignmentWeight, []) == [];
    assert PolarAll(m, t.centeringWeight, []) == [];
  }

  lemma {:induction false} QuotientOfHalf(a: real)
    requires a > 0.0
    ensures Quotient(a, a / 2.0) == 2.0
  {
  }

  /**
   * A single light at half the detection distance, every flag but light
   * following off and no green: inertia plus a pull of twice the follow
   * weight toward the light.
   */
  lemma {:induction false} SingleLightScenario(sw: Switches, t: Tuning, m: Trig, p: Percept)
    requires !sw.avoidsObstacles && !sw.avoidsCollisions && !sw.alignsWithNeighbors && !sw.doesCentering
    requires sw.followsLight
    requires p.category == Light && t.detectionDistance > 0.0 && p.distance == t.detectionDistance / 2.0
    requires !IsGreen(p)
    ensures ForcesDefined(sw, t, [p])
    ensures Resultant(sw, t, m, [p]) == Add(Inertia(m), Polar(m, 2.0 * t.followWeight, p.angle))
  {
    var ps := [p];
    assert ps[..0] == [];
    assert BestIndex(t, TargetCost, ps) == Some(0);
    QuotientOfHalf(t.detectionDistance);
    assert LightForce(t, m, ps) == Polar(m, 2.0 * t.followWeight, p.angle);
    assert GreenTerms(t, m, ps) == [];
    AddZero(Inertia(m));
  }

  /**
   * A single boid nearer than the separation distance: separation pushes
   * directly away with weight separationWeight * separationDistance/distance,
   * and alignment and centering contribute nothing.
   */
  lemma {:induction false} SingleCloseBoidScenario(t: Tuning, m: Trig, p: Percept)
    requires p.category == Boid && 0.0 < p.distance < t.separationDistance
    ensures SepDistancesPositive(t, [p])
    ensures SeparationForce(t, m, [p]) == Polar(m, t.separationWeight * (t.separationDistance / p.distance), -p.angle)
    ensures AlignmentForce(t, m, [p]) == ZeroVec && CenteringForce(t, m, [p]) == ZeroVec
  {
    var ps := [p];
    SeparationTermsSingle(t, m, p);
    var v := SeparationTerm(t, m, p);
    assert [v][..0] == [];
    assert Sum([v]) == Add(ZeroVec, v);
    AddZero(v);
    assert ps[..0] == [];
    assert AlignmentHeadings(t, ps) == [];
    assert CenteringBearings(t, ps) == [];
    assert PolarAll(m, t.alignmentWeight, []) == [];
    assert PolarAll(m, t.centeringWeight, []) == [];
  }
}
