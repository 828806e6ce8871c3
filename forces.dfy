/**
 * Forces in an agent's own frame (fx along the heading, fy across it):
 * the value type `Vec` with the arithmetic the flocker performs on it, and
 * the mutable `WeightedForce` accumulator built on it.
 */
module Forces {
  import opened Numerics

  datatype Vec = Vec(fx: real, fy: real)

  /** The force of the default constructor. */
  const ZeroVec := Vec(0.0, 0.0)

  /** Component-wise sum; adding the zero force leaves a force as it is. */
  function Add(a: Vec, b: Vec): Vec {
    if b == ZeroVec then a else Vec(a.fx + b.fx, a.fy + b.fy)
  }

  function Scale(k: real, v: Vec): Vec {
    Vec(k * v.fx, k * v.fy)
  }

  /** A force of the given weight pointing at `angle` from the heading. */
  function Polar(m: Trig, weight: real, angle: real): Vec {
    Vec(weight * m.cos(angle), weight * m.sin(angle))
  }

  /** The sum of the squared components. */
  function SquaredLength(v: Vec): real {
    v.fx * v.fx + v.fy * v.fy
  }

  /** The strength of a force (getWeight). */
  function Magnitude(m: Trig, v: Vec): real {
    m.sqrt(SquaredLength(v))
  }

  /** The direction of a force relative to the heading (getAngle). */
  function Direction(m: Trig, v: Vec): real {
    m.displacementOnCircle(0.0, m.atan2(v.fy, v.fx), 2.0 * m.pi)
  }

  /** The force an accumulator holds after starting at zero and adding in `vs` in order. */
  function Sum(vs: seq<Vec>): Vec
    decreases |vs|
  {
    if |vs| == 0 then ZeroVec else Add(Sum(vs[..|vs| - 1]), vs[|vs| - 1])
  }

  /** One force of weight `w` per angle, in order. */
  function PolarAll(m: Trig, w: real, angles: seq<real>): (r: seq<Vec>)
    ensures |r| == |angles|
    decreases |angles|
  {
    if |angles| == 0 then []
    else PolarAll(m, w, angles[..|angles| - 1]) + [Polar(m, w, angles[|angles| - 1])]
  }

  /** Sum re-weighted by 1/n when there are n >= 1 forces; zero when there are none. */
  function Mean(vs: seq<Vec>): Vec {
    if |vs| >= 1 then Scale(1.0 / (|vs| as real), Sum(vs)) else Sum(vs)
  }

  lemma {:induction false} AddZero(v: Vec)
    ensures Add(v, ZeroVec) == v && Add(ZeroVec, v) == v
  {
  }

  /** Adding in adds the forward components (and likewise the lateral ones). */
  lemma {:induction false} AddFx(a: Vec, b: Vec)
    ensures Add(a, b).fx == a.fx + b.fx && Add(a, b).fy == a.fy + b.fy
  {
  }

  lemma {:induction false} AddCommutes(a: Vec, b: Vec)
    ensures Add(a, b) == Add(b, a)
  {
  }

  lemma {:induction false} AddAssociates(a: Vec, b: Vec, c: Vec)
    ensures Add(Add(a, b), c) == Add(a, Add(b, c))
  {
  }

  /** Summing a concatenation is adding the two partial sums. */
  lemma {:induction false} SumAppend(a: seq<Vec>, b: seq<Vec>)
    ensures Sum(a + b) == Add(Sum(a), Sum(b))
    decreases |b|
  {
    if |b| == 0 {
      assert a + b == a;
    } else {
      var b' := b[..|b| - 1];
      assert (a + b)[..|a + b| - 1] == a + b';
      assert (a + b)[|a + b| - 1] == b[|b| - 1];
      SumAppend(a, b');
    }
  }

  /** Taking one force out of an accumulation and adding it in last gives the same sum. */
  lemma {:induction false} SumRemove(t: seq<Vec>, j: nat)
    requires j < |t|
    ensures Sum(t) == Add(Sum(t[..j] + t[j + 1..]), t[j])
  {
    var x := t[j];
    assert t == (t[..j] + [x]) + t[j + 1..];
    SumAppend(t[..j] + [x], t[j + 1..]);
    SumAppend(t[..j], [x]);
    SumAppend(t[..j], t[j + 1..]);
    assert Sum([x]) == x by {
      assert [x][..0] == [];
    }
  }

  /**
   * Two accumulations that differ only at place j, where one adds in `f`
   * and the other the zero force, differ by exactly `f`.
   */
  lemma {:induction false} SumSwapOne(on: seq<Vec>, off: seq<Vec>, j: nat, f: Vec)
    requires |on| == |off| && j < |on|
    requires on[j] == f && off[j] == ZeroVec
    requires forall i :: 0 <= i < |on| && i != j ==> on[i] == off[i]
    ensures Sum(on) == Add(Sum(off), f)
  {
    assert on[..j] + on[j + 1..] == off[..j] + off[j + 1..];
    SumRemove(on, j);
    SumRemove(off, j);
    AddZero(Sum(off[..j] + off[j + 1..]));
  }

  /** Adding in the same forces in any order gives the same resultant. */
  lemma {:induction false} SumPermutation(s: seq<Vec>, t: seq<Vec>)
    requires multiset(s) == multiset(t)
    ensures Sum(s) == Sum(t)
    decreases |s|
  {
    if |s| == 0 {
      assert |t| == |multiset(t)| == 0;
    } else {
      var x := s[|s| - 1];
      var s' := s[..|s| - 1];
      assert s == s' + [x];
      assert x in multiset(t);
      var j :| 0 <= j < |t| && t[j] == x;
      var t' := t[..j] + t[j + 1..];
      assert t == t[..j] + [x] + t[j + 1..];
      assert multiset(t') == multiset(t) - multiset{x};
      SumPermutation(s', t');
      SumRemove(t, j);
    }
  }

  /** Scaling both components of a polar force scales its weight. */
  lemma {:induction false} PolarScale(m: Trig, k: real, w: real, a: real)
    ensures Scale(k, Polar(m, w, a)) == Polar(m, k * w, a)
  {
    assert k * (w * m.cos(a)) == (k * w) * m.cos(a);
    assert k * (w * m.sin(a)) == (k * w) * m.sin(a);
  }

  /** Re-weighting distributes over adding in. */
  lemma {:induction false} ScaleAdd(k: real, a: Vec, b: Vec)
    ensures Scale(k, Add(a, b)) == Add(Scale(k, a), Scale(k, b))
  {
  }

  /** Re-weighting a sum of equal-weight forces re-weights each of them. */
  lemma {:induction false} ScalePolarSum(m: Trig, k: real, w: real, angles: seq<real>)
    ensures Scale(k, Sum(PolarAll(m, w, angles))) == Sum(PolarAll(m, k * w, angles))
    decreases |angles|
  {
    if |angles| > 0 {
      var n := |angles|;
      var init := angles[..n - 1];
      var a := angles[n - 1];
      ScalePolarSum(m, k, w, init);
      SumPolarAllSnoc(m, w, init, a);
      SumPolarAllSnoc(m, k * w, init, a);
      assert init + [a] == angles;
      ScaleAdd(k, Sum(PolarAll(m, w, init)), Polar(m, w, a));
      PolarScale(m, k, w, a);
    } else {
      assert Scale(k, ZeroVec) == ZeroVec;
    }
  }

  /** Adding in one more equal-weight force: the sum grows by that force. */
  lemma {:induction false} SumPolarAllSnoc(m: Trig, w: real, angles: seq<real>, a: real)
    ensures Sum(PolarAll(m, w, angles + [a])) == Add(Sum(PolarAll(m, w, angles)), Polar(m, w, a))
  {
    assert (angles + [a])[..|angles|] == angles;
    var r := PolarAll(m, w, angles);
    assert PolarAll(m, w, angles + [a]) == r + [Polar(m, w, a)];
    assert (r + [Polar(m, w, a)])[..|r|] == r;
  }

  /** Scaling a unit-length pair by w gives a pair whose squares sum to w^2. */
  lemma {:induction false} ScaledSquares(w: real, c: real, s: real)
    requires c * c + s * s == 1.0
    ensures (w * c) * (w * c) + (w * s) * (w * s) == w * w
  {
    calc {
      (w * c) * (w * c) + (w * s) * (w * s);
      w * w * (c * c + s * s);
      w * w;
    }
  }

  /**
   * Where cos^2 + sin^2 = 1 at `a` and sqrt is exact on w^2, a force built
   * from (weight, angle) has strength |weight|.
   */
  lemma {:induction false} PolarMagnitude(m: Trig, w: real, a: real)
    requires m.cos(a) * m.cos(a) + m.sin(a) * m.sin(a) == 1.0
    requires m.sqrt(w * w) == if w >= 0.0 then w else -w
    ensures Magnitude(m, Polar(m, w, a)) == if w >= 0.0 then w else -w
  {
    assert SquaredLength(Polar(m, w, a)) == w * w by {
      ScaledSquares(w, m.cos(a), m.sin(a));
    }
  }

  /**
   * getAngle of a polar force with a positive weight is its angle, when
   * atan2 recovers the angle and displacementOnCircle leaves it unchanged.
   */
  lemma {:induction false} PolarDirection(m: Trig, w: real, a: real)
    requires w > 0.0
    requires m.atan2(w * m.sin(a), w * m.cos(a)) == a
    requires m.displacementOnCircle(0.0, a, 2.0 * m.pi) == a
    ensures Direction(m, Polar(m, w, a)) == a
  {
    var v := Polar(m, w, a);
    assert v.fy == w * m.sin(a) && v.fx == w * m.cos(a);
  }

  lemma {:induction false} ReciprocalTimes(w: real, n: real)
    requires n > 0.0
    ensures 1.0 / n * w == w / n
  {
  }

  /**
   * With n >= 1 contributors of equal weight w, the mean is the plain sum of
   * the same directions each weighted w/n; with none it is the zero force.
   */
  lemma {:induction false} MeanOfEqualWeights(m: Trig, w: real, angles: seq<real>)
    ensures |angles| == 0 ==> Mean(PolarAll(m, w, angles)) == ZeroVec
    ensures |angles| >= 1 ==>
      Mean(PolarAll(m, w, angles)) == Sum(PolarAll(m, w / (|angles| as real), angles))
  {
    if |angles| >= 1 {
      var vs := PolarAll(m, w, angles);
      var k := 1.0 / (|angles| as real);
      assert Mean(vs) == Scale(k, Sum(vs));
      ScalePolarSum(m, k, w, angles);
      ReciprocalTimes(w, |angles| as real);
      assert k * w == w / (|angles| as real);
    }
  }

  /**
   * The mutable force: `addIn` and `reweight` are its only mutators, and
   * `Value` is the force it currently holds.
   */
  class WeightedForce {
    var fx: real
    var fy: real

    /** The zero force. */
    constructor Zero()
      ensures Value() == ZeroVec
    {
      fx := 0.0;
      fy := 0.0;
    }

    /** The force of weight `weight` at `angle` from the heading. */
    constructor (m: Trig, weight: real, angle: real)
      ensures Value() == Polar(m, weight, angle)
    {
      fx := weight * m.cos(angle);
      fy := weight * m.sin(angle);
    }

    function Value(): Vec
      reads this
    {
      Vec(fx, fy)
    }

    function Weight(m: Trig): real
      reads this
    {
      Magnitude(m, Value())
    }

    function Angle(m: Trig): real
      reads this
    {
      Direction(m, Value())
    }

    /** Adds `f` in, component by component (also when `f` is this force). */
    method AddIn(f: WeightedForce)
      modifies this
      ensures Value() == Add(old(Value()), old(f.Value()))
    {
      fx := fx + f.fx;
      fy := fy + f.fy;
    }

    /** Multiplies both components by `factor`. */
    method Reweight(factor: real)
      modifies this
      ensures Value() == Scale(factor, old(Value()))
    {
      fx := fx * factor;
      fy := fy * factor;
    }
  }
}
