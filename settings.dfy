/**
 * A flocker's behaviour parameters (FlockerAttributes): five enable flags,
 * four distance/angle thresholds and five weights, the XML attribute names
 * that set them, and the "override, else default" merge that `set` and
 * `update` perform.
 */
module FlockerSettings {
  import opened Wrappers
  import opened Numerics

  /** Which behaviours are enabled. */
  datatype Switches = Switches(
    avoidsObstacles: bool,
    avoidsCollisions: bool,
    alignsWithNeighbors: bool,
    doesCentering: bool,
    followsLight: bool)

  /** The thresholds and weights the force generators read. */
  datatype Tuning = Tuning(
    clearance: real,
    cone: real,
    obstacleWeight: real,
    separationDistance: real,
    separationWeight: real,
    detectionDistance: real,
    alignmentWeight: real,
    centeringWeight: real,
    followWeight: real)

  datatype Params = Params(switches: Switches, tuning: Tuning)

  /** The parameters `set` reads, one per XML attribute. */
  datatype ParamName =
    | AvoidsObstaclesParam | AvoidsCollisionsParam | AlignsWithNeighborsParam
    | DoesCenteringParam | FollowsLightParam
    | ClearanceDistanceParam | ClearanceAngleParam | SeparationDistanceParam | DetectionDistanceParam
    | ObstacleWeightParam | SepWeightParam | AlignWeightParam | CtrWeightParam | LightWeightParam
  {
    /** Whether `set` reads this attribute as a flag (otherwise as a number). */
    predicate IsFlag() {
      AvoidsObstaclesParam? || AvoidsCollisionsParam? || AlignsWithNeighborsParam?
      || DoesCenteringParam? || FollowsLightParam?
    }

    /** The position at which `set` reads this attribute. */
    function Rank(): (k: nat)
      ensures k < 14
    {
      match this
      case AvoidsObstaclesParam => 0
      case AvoidsCollisionsParam => 1
      case AlignsWithNeighborsParam => 2
      case DoesCenteringParam => 3
      case FollowsLightParam => 4
      case ClearanceDistanceParam => 5
      case ClearanceAngleParam => 6
      case SeparationDistanceParam => 7
      case DetectionDistanceParam => 8
      case ObstacleWeightParam => 9
      case SepWeightParam => 10
      case AlignWeightParam => 11
      case CtrWeightParam => 12
      case LightWeightParam => 13
    }

    /** The attribute's name in the XML element. */
    function XmlName(): string {
      match this
      case AvoidsObstaclesParam => "clear"
      case AvoidsCollisionsParam => "evade"
      case AlignsWithNeighborsParam => "align"
      case DoesCenteringParam => "center"
      case FollowsLightParam => "follow"
      case ClearanceDistanceParam => "clearance"
      case ClearanceAngleParam => "cone"
      case SeparationDistanceParam => "separation"
      case DetectionDistanceParam => "detection"
      case ObstacleWeightParam => "ow"
      case SepWeightParam => "sw"
      case AlignWeightParam => "aw"
      case CtrWeightParam => "cw"
      case LightWeightParam => "lw"
    }
  }

  /** Distinct parameters are read from distinct XML attributes. */
  lemma {:induction false} XmlNamesDistinct(a: ParamName, b: ParamName)
    ensures a.XmlName() == b.XmlName() <==> a == b
  {
  }

  /** An attribute value as the XML reader delivers it: a boolean or a number. */
  datatype AttrValue = BoolAttr(flag: bool) | RealAttr(number: real)

  /**
   * The attributes of one XML element that `set` reads, by parameter; a
   * parameter that is absent was not specified.
   */
  type AttributeSet = map<ParamName, AttrValue>

  /** The flocker defaults; the clearance cone is 60 degrees. */
  function DefaultParams(m: Trig): Params {
    Params(
      Switches(true, true, true, true, true),
      Tuning(140.0, 60.0 * m.degreesToRadians, 2.0, 50.0, 2.0, 250.0, 5.0, 10.0, 5.0))
  }

  predicate FlagOk(atts: AttributeSet, name: ParamName) {
    name in atts ==> atts[name].BoolAttr?
  }

  predicate NumberOk(atts: AttributeSet, name: ParamName) {
    name in atts ==> atts[name].RealAttr?
  }

  /** `v` is the supplied flag if `name` is present, and `default` otherwise. */
  predicate FlagPicked(atts: AttributeSet, name: ParamName, default: bool, v: bool) {
    if name in atts then atts[name] == BoolAttr(v) else v == default
  }

  /** `v` is the supplied number if `name` is present, and `default` otherwise. */
  predicate NumberPicked(atts: AttributeSet, name: ParamName, default: real, v: real) {
    if name in atts then atts[name] == RealAttr(v) else v == default
  }

  /** The flag supplied for `name`, or `default` when none is. */
  function SuppliedFlag(atts: AttributeSet, name: ParamName, default: bool): bool {
    if name in atts && atts[name].BoolAttr? then atts[name].flag else default
  }

  /** The number supplied for `name`, or `default` when none is. */
  function SuppliedNumber(atts: AttributeSet, name: ParamName, default: real): real {
    if name in atts && atts[name].RealAttr? then atts[name].number else default
  }

  /** A boolean parameter: the supplied flag, or `default` when absent; a number is malformed. */
  function GetBoolParam(atts: AttributeSet, name: ParamName, default: bool): (r: Result<bool, ParamName>)
    ensures r.Success? <==> FlagOk(atts, name)
    ensures r.Success? ==> FlagPicked(atts, name, default, r.value)
    ensures r.Success? ==> r.value == SuppliedFlag(atts, name, default)
    ensures r.Failure? ==> r.error == name && name in atts
  {
    if name !in atts then Success(default)
    else match atts[name]
      case BoolAttr(b) => Success(b)
      case RealAttr(_) => Failure(name)
  }

  /** A numeric parameter: the supplied number, or `default` when absent; a flag is malformed. */
  function GetDoubleParam(atts: AttributeSet, name: ParamName, default: real): (r: Result<real, ParamName>)
    ensures r.Success? <==> NumberOk(atts, name)
    ensures r.Success? ==> NumberPicked(atts, name, default, r.value)
    ensures r.Success? ==> r.value == SuppliedNumber(atts, name, default)
    ensures r.Failure? ==> r.error == name && name in atts
  {
    if name !in atts then Success(default)
    else match atts[name]
      case RealAttr(x) => Success(x)
      case BoolAttr(_) => Failure(name)
  }

  /** A cone in radians, in degrees. */
  function ToDegrees(m: Trig, radians: real): real {
    radians * m.radiansToDegrees
  }

  /** A cone given in degrees, in radians and clamped to the circle. */
  function ConeRadians(m: Trig, degrees: real): real {
    m.clampToCircle(degrees * m.degreesToRadians, 2.0 * m.pi)
  }

  /** With inverse conversion constants, the default cone reads back as 60 degrees. */
  lemma {:induction false} DefaultConeDegrees(m: Trig)
    requires m.radiansToDegrees * m.degreesToRadians == 1.0
    ensures ToDegrees(m, DefaultParams(m).tuning.cone) == 60.0
  {
    assert 60.0 * m.degreesToRadians * m.radiansToDegrees == 60.0 * (m.radiansToDegrees * m.degreesToRadians);
  }

  /** Every flag attribute `set` reads is a flag. */
  predicate SwitchesWellFormed(atts: AttributeSet) {
    && FlagOk(atts, AvoidsObstaclesParam)
    && FlagOk(atts, AvoidsCollisionsParam)
    && FlagOk(atts, AlignsWithNeighborsParam)
    && FlagOk(atts, DoesCenteringParam)
    && FlagOk(atts, FollowsLightParam)
  }

  /** Every threshold attribute `set` reads is a number. */
  predicate ThresholdsWellFormed(atts: AttributeSet) {
    && NumberOk(atts, ClearanceDistanceParam)
    && NumberOk(atts, ClearanceAngleParam)
    && NumberOk(atts, SeparationDistanceParam)
    && NumberOk(atts, DetectionDistanceParam)
  }

  /** Every weight attribute `set` reads is a number. */
  predicate WeightsWellFormed(atts: AttributeSet) {
    && NumberOk(atts, ObstacleWeightParam)
    && NumberOk(atts, SepWeightParam)
    && NumberOk(atts, AlignWeightParam)
    && NumberOk(atts, CtrWeightParam)
    && NumberOk(atts, LightWeightParam)
  }

  predicate TuningWellFormed(atts: AttributeSet) {
    ThresholdsWellFormed(atts) && WeightsWellFormed(atts)
  }

  predicate WellFormed(atts: AttributeSet) {
    SwitchesWellFormed(atts) && TuningWellFormed(atts)
  }

  /** `name` is an attribute `set` reads, supplied with a value of the wrong kind. */
  predicate Malformed(atts: AttributeSet, name: ParamName) {
    if name.IsFlag() then !FlagOk(atts, name) else !NumberOk(atts, name)
  }

  /** Every attribute `set` reads at a position in [lo, hi) (see `ParamName.Rank`) is well formed. */
  predicate WellFormedBetween(atts: AttributeSet, lo: nat, hi: nat) {
    && (lo <= 0 < hi ==> FlagOk(atts, AvoidsObstaclesParam))
    && (lo <= 1 < hi ==> FlagOk(atts, AvoidsCollisionsParam))
    && (lo <= 2 < hi ==> FlagOk(atts, AlignsWithNeighborsParam))
    && (lo <= 3 < hi ==> FlagOk(atts, DoesCenteringParam))
    && (lo <= 4 < hi ==> FlagOk(atts, FollowsLightParam))
    && (lo <= 5 < hi ==> NumberOk(atts, ClearanceDistanceParam))
    && (lo <= 6 < hi ==> NumberOk(atts, ClearanceAngleParam))
    && (lo <= 7 < hi ==> NumberOk(atts, SeparationDistanceParam))
    && (lo <= 8 < hi ==> NumberOk(atts, DetectionDistanceParam))
    && (lo <= 9 < hi ==> NumberOk(atts, ObstacleWeightParam))
    && (lo <= 10 < hi ==> NumberOk(atts, SepWeightParam))
    && (lo <= 11 < hi ==> NumberOk(atts, AlignWeightParam))
    && (lo <= 12 < hi ==> NumberOk(atts, CtrWeightParam))
    && (lo <= 13 < hi ==> NumberOk(atts, LightWeightParam))
  }

  /** `name` is the first malformed attribute `set` reads from position `lo` on. */
  predicate FirstMalformedFrom(atts: AttributeSet, lo: nat, name: ParamName) {
    Malformed(atts, name) && lo <= name.Rank() && WellFormedBetween(atts, lo, name.Rank())
  }

  /**
   * The first attribute `set` reads at position `lo` or later that is
   * malformed, if there is one.
   */
  function FirstMalformed(atts: AttributeSet, lo: nat): (r: Option<ParamName>)
    ensures r.None? <==> WellFormedBetween(atts, lo, 14)
    ensures r.Some? ==> FirstMalformedFrom(atts, lo, r.value)
  {
    if lo <= 0 && Malformed(atts, AvoidsObstaclesParam) then Some(AvoidsObstaclesParam)
    else if lo <= 1 && Malformed(atts, AvoidsCollisionsParam) then Some(AvoidsCollisionsParam)
    else if lo <= 2 && Malformed(atts, AlignsWithNeighborsParam) then Some(AlignsWithNeighborsParam)
    else if lo <= 3 && Malformed(atts, DoesCenteringParam) then Some(DoesCenteringParam)
    else if lo <= 4 && Malformed(atts, FollowsLightParam) then Some(FollowsLightParam)
    else if lo <= 5 && Malformed(atts, ClearanceDistanceParam) then Some(ClearanceDistanceParam)
    else if lo <= 6 && Malformed(atts, ClearanceAngleParam) then Some(ClearanceAngleParam)
    else if lo <= 7 && Malformed(atts, SeparationDistanceParam) then Some(SeparationDistanceParam)
    else if lo <= 8 && Malformed(atts, DetectionDistanceParam) then Some(DetectionDistanceParam)
    else if lo <= 9 && Malformed(atts, ObstacleWeightParam) then Some(ObstacleWeightParam)
    else if lo <= 10 && Malformed(atts, SepWeightParam) then Some(SepWeightParam)
    else if lo <= 11 && Malformed(atts, AlignWeightParam) then Some(AlignWeightParam)
    else if lo <= 12 && Malformed(atts, CtrWeightParam) then Some(CtrWeightParam)
    else if lo <= 13 && Malformed(atts, LightWeightParam) then Some(LightWeightParam)
    else None
  }

  /**
   * The position at which `set`, reading from position `lo` on, stops: that
   * of the first malformed attribute, or 14 when there is none.
   */
  function StopRank(atts: AttributeSet, lo: nat): (k: nat)
    ensures k <= 14
    ensures k < 14 <==> !WellFormedBetween(atts, lo, 14)
  {
    match FirstMalformed(atts, lo)
    case None => 14
    case Some(name) => name.Rank()
  }

  /** Skipping well-formed attributes does not change which attribute is the first malformed one. */
  lemma {:induction false} FirstMalformedSkip(atts: AttributeSet, lo: nat, mid: nat)
    requires lo <= mid <= 14
    requires WellFormedBetween(atts, lo, mid)
    ensures FirstMalformed(atts, lo) == FirstMalformed(atts, mid)
  {
  }

  /** Where a run of `set` that ended with `outcome` stopped reading. */
  function StopAt(outcome: Outcome<ParamName>): nat {
    if outcome.Pass? then 14 else outcome.error.Rank()
  }

  /**
   * The flags after `set` has run its flag assignments at positions [lo,
   * hi), stopping at position `stop`: the flag at position k has been
   * assigned (the supplied flag or the default) when lo <= k < hi and k <
   * stop, and otherwise keeps its value in `prev`.
   */
  function AssignedSwitches(atts: AttributeSet, d: Switches, prev: Switches, lo: nat, hi: nat, stop: nat): Switches {
    Switches(
      if lo <= 0 < hi && 0 < stop
      then SuppliedFlag(atts, AvoidsObstaclesParam, d.avoidsObstacles) else prev.avoidsObstacles,
      if lo <= 1 < hi && 1 < stop
      then SuppliedFlag(atts, AvoidsCollisionsParam, d.avoidsCollisions) else prev.avoidsCollisions,
      if lo <= 2 < hi && 2 < stop
      then SuppliedFlag(atts, AlignsWithNeighborsParam, d.alignsWithNeighbors) else prev.alignsWithNeighbors,
      if lo <= 3 < hi && 3 < stop
      then SuppliedFlag(atts, DoesCenteringParam, d.doesCentering) else prev.doesCentering,
      if lo <= 4 < hi && 4 < stop
      then SuppliedFlag(atts, FollowsLightParam, d.followsLight) else prev.followsLight)
  }

  /**
   * The thresholds and weights after `set` has run its number assignments at
   * positions [lo, hi), stopping at position `stop`, with the same rule; the
   * cone is read in degrees and stored as clamped radians.
   */
  function AssignedTuning(atts: AttributeSet, d: Tuning, m: Trig, prev: Tuning, lo: nat, hi: nat, stop: nat): Tuning {
    Tuning(
      if lo <= 5 < hi && 5 < stop
      then SuppliedNumber(atts, ClearanceDistanceParam, d.clearance) else prev.clearance,
      if lo <= 6 < hi && 6 < stop
      then ConeRadians(m, SuppliedNumber(atts, ClearanceAngleParam, ToDegrees(m, d.cone))) else prev.cone,
      if lo <= 9 < hi && 9 < stop
      then SuppliedNumber(atts, ObstacleWeightParam, d.obstacleWeight) else prev.obstacleWeight,
      if lo <= 7 < hi && 7 < stop
      then SuppliedNumber(atts, SeparationDistanceParam, d.separationDistance) else prev.separationDistance,
      if lo <= 10 < hi && 10 < stop
      then SuppliedNumber(atts, SepWeightParam, d.separationWeight) else prev.separationWeight,
      if lo <= 8 < hi && 8 < stop
      then SuppliedNumber(atts, DetectionDistanceParam, d.detectionDistance) else prev.detectionDistance,
      if lo <= 11 < hi && 11 < stop
      then SuppliedNumber(atts, AlignWeightParam, d.alignmentWeight) else prev.alignmentWeight,
      if lo <= 12 < hi && 12 < stop
      then SuppliedNumber(atts, CtrWeightParam, d.centeringWeight) else prev.centeringWeight,
      if lo <= 13 < hi && 13 < stop
      then SuppliedNumber(atts, LightWeightParam, d.followWeight) else prev.followWeight)
  }

  /**
   * The record after `set` has run from `prev`: every field `set` reads
   * before the first malformed attribute holds its merged value, and every
   * other field keeps its value in `prev`.
   */
  function Assigned(atts: AttributeSet, d: Params, m: Trig, prev: Params): Params {
    Params(AssignedSwitches(atts, d.switches, prev.switches, 0, 5, StopRank(atts, 0)),
           AssignedTuning(atts, d.tuning, m, prev.tuning, 0, 14, StopRank(atts, 0)))
  }

  /**
   * `set` runs its five flag assignments and then, unless one of them
   * failed, its nine number assignments. Whatever the two stages leave is
   * the record `Assigned` describes; the outcome is a pass exactly when the
   * merge succeeds, and then the record is the merged one.
   */
  lemma {:induction false} SetStages(atts: AttributeSet, d: Params, m: Trig, prev: Params, p: Params,
                                     first: Outcome<ParamName>, second: Outcome<ParamName>)
    requires first.Pass? <==> SwitchesWellFormed(atts)
    requires first.Fail? ==> FirstMalformed(atts, 0) == Some(first.error)
    requires p.switches == AssignedSwitches(atts, d.switches, prev.switches, 0, 5, StopAt(first))
    requires first.Fail? ==> p.tuning == prev.tuning && second == first
    requires first.Pass? ==> (second.Pass? <==> TuningWellFormed(atts))
    requires first.Pass? && second.Fail? ==> FirstMalformed(atts, 5) == Some(second.error)
    requires first.Pass? ==> p.tuning == AssignedTuning(atts, d.tuning, m, prev.tuning, 5, 14, StopAt(second))
    ensures second.Pass? <==> Merge(atts, d, m).Success?
    ensures second.Pass? ==> p == Merge(atts, d, m).value
    ensures second.Fail? ==> FirstMalformed(atts, 0) == Some(second.error)
    ensures p == Assigned(atts, d, m, prev)
  {
    if first.Fail? {
      assert p.switches == Assigned(atts, d, m, prev).switches;
    } else {
      FirstMalformedSkip(atts, 0, 5);
      assert p == Assigned(atts, d, m, prev);
      if second.Pass? {
        AssignedAllIsMerge(atts, d, m, prev);
      }
    }
  }

  /** Each flag of `s` is the supplied attribute if present and the flag of `d` otherwise. */
  predicate SwitchesOverride(atts: AttributeSet, d: Switches, s: Switches) {
    && FlagPicked(atts, AvoidsObstaclesParam, d.avoidsObstacles, s.avoidsObstacles)
    && FlagPicked(atts, AvoidsCollisionsParam, d.avoidsCollisions, s.avoidsCollisions)
    && FlagPicked(atts, AlignsWithNeighborsParam, d.alignsWithNeighbors, s.alignsWithNeighbors)
    && FlagPicked(atts, DoesCenteringParam, d.doesCentering, s.doesCentering)
    && FlagPicked(atts, FollowsLightParam, d.followsLight, s.followsLight)
  }

  /**
   * Each threshold of `t` is the supplied attribute if present and the
   * threshold of `d` otherwise, except that the cone is supplied in degrees
   * (defaulting to `d`'s cone converted to degrees) and stored in radians,
   * clamped to the circle.
   */
  predicate ThresholdsOverride(atts: AttributeSet, d: Tuning, m: Trig, t: Tuning) {
    && NumberPicked(atts, ClearanceDistanceParam, d.clearance, t.clearance)
    && t.cone == ConeRadians(m, SuppliedNumber(atts, ClearanceAngleParam, ToDegrees(m, d.cone)))
    && NumberPicked(atts, SeparationDistanceParam, d.separationDistance, t.separationDistance)
    && NumberPicked(atts, DetectionDistanceParam, d.detectionDistance, t.detectionDistance)
  }

  /** Each weight of `t` is the supplied attribute if present and the weight of `d` otherwise. */
  predicate WeightsOverride(atts: AttributeSet, d: Tuning, t: Tuning) {
    && NumberPicked(atts, ObstacleWeightParam, d.obstacleWeight, t.obstacleWeight)
    && NumberPicked(atts, SepWeightParam, d.separationWeight, t.separationWeight)
    && NumberPicked(atts, AlignWeightParam, d.alignmentWeight, t.alignmentWeight)
    && NumberPicked(atts, CtrWeightParam, d.centeringWeight, t.centeringWeight)
    && NumberPicked(atts, LightWeightParam, d.followWeight, t.followWeight)
  }

  predicate TuningOverride(atts: AttributeSet, d: Tuning, m: Trig, t: Tuning) {
    ThresholdsOverride(atts, d, m, t) && WeightsOverride(atts, d, t)
  }

  /** The obstacle and collision flags, the first two `set` reads; the other flags are `d`'s. */
  function MergeAvoidance(atts: AttributeSet, d: Switches): (r: Result<Switches, ParamName>)
    ensures r.Success? <==> WellFormedBetween(atts, 0, 2)
    ensures r.Success? ==> r.value == AssignedSwitches(atts, d, d, 0, 2, 14)
    ensures r.Failure? ==> FirstMalformed(atts, 0) == Some(r.error)
  {
    var avoidsObstacles :- GetBoolParam(atts, AvoidsObstaclesParam, d.avoidsObstacles);
    var avoidsCollisions :- GetBoolParam(atts, AvoidsCollisionsParam, d.avoidsCollisions);
    Success(d.(avoidsObstacles := avoidsObstacles, avoidsCollisions := avoidsCollisions))
  }

  /** The alignment, centering and light flags, the next three `set` reads; the others are `d`'s. */
  function MergeFlocking(atts: AttributeSet, d: Switches): (r: Result<Switches, ParamName>)
    ensures r.Success? <==> WellFormedBetween(atts, 2, 5)
    ensures r.Success? ==> r.value == AssignedSwitches(atts, d, d, 2, 5, 14)
    ensures r.Failure? ==> FirstMalformed(atts, 2) == Some(r.error)
  {
    var alignsWithNeighbors :- GetBoolParam(atts, AlignsWithNeighborsParam, d.alignsWithNeighbors);
    var doesCentering :- GetBoolParam(atts, DoesCenteringParam, d.doesCentering);
    var followsLight :- GetBoolParam(atts, FollowsLightParam, d.followsLight);
    Success(d.(alignsWithNeighbors := alignsWithNeighbors, doesCentering := doesCentering,
               followsLight := followsLight))
  }

  /** The flags `set` stores, read in its order; the first malformed one is the error. */
  function MergeSwitches(atts: AttributeSet, d: Switches): (r: Result<Switches, ParamName>)
    ensures r.Success? <==> SwitchesWellFormed(atts)
    ensures r.Success? ==> SwitchesOverride(atts, d, r.value)
    ensures r.Failure? ==> FirstMalformed(atts, 0) == Some(r.error)
  {
    var avoidance :- MergeAvoidance(atts, d);
    FirstMalformedSkip(atts, 0, 2);
    MergeFlocking(atts, avoidance)
  }

  /** The four thresholds, the numbers `set` reads first; the weights are `d`'s. */
  function MergeThresholds(atts: AttributeSet, d: Tuning, m: Trig): (r: Result<Tuning, ParamName>)
    ensures r.Success? <==> ThresholdsWellFormed(atts)
    ensures r.Success? ==> r.value == AssignedTuning(atts, d, m, d, 5, 9, 14)
    ensures r.Failure? ==> FirstMalformed(atts, 5) == Some(r.error)
  {
    var clearance :- GetDoubleParam(atts, ClearanceDistanceParam, d.clearance);
    var degrees :- GetDoubleParam(atts, ClearanceAngleParam, ToDegrees(m, d.cone));
    var cone := ConeRadians(m, degrees);
    var separationDistance :- GetDoubleParam(atts, SeparationDistanceParam, d.separationDistance);
    var detectionDistance :- GetDoubleParam(atts, DetectionDistanceParam, d.detectionDistance);
    Success(d.(clearance := clearance, cone := cone, separationDistance := separationDistance,
               detectionDistance := detectionDistance))
  }

  /** The five weights, the numbers `set` reads last; the thresholds are `d`'s. */
  function MergeWeights(atts: AttributeSet, d: Tuning, m: Trig): (r: Result<Tuning, ParamName>)
    ensures r.Success? <==> WeightsWellFormed(atts)
    ensures r.Success? ==> r.value == AssignedTuning(atts, d, m, d, 9, 14, 14)
    ensures r.Failure? ==> FirstMalformed(atts, 9) == Some(r.error)
  {
    var obstacleWeight :- GetDoubleParam(atts, ObstacleWeightParam, d.obstacleWeight);
    var separationWeight :- GetDoubleParam(atts, SepWeightParam, d.separationWeight);
    var alignmentWeight :- GetDoubleParam(atts, AlignWeightParam, d.alignmentWeight);
    var centeringWeight :- GetDoubleParam(atts, CtrWeightParam, d.centeringWeight);
    var followWeight :- GetDoubleParam(atts, LightWeightParam, d.followWeight);
    Success(d.(obstacleWeight := obstacleWeight, separationWeight := separationWeight,
               alignmentWeight := alignmentWeight, centeringWeight := centeringWeight,
               followWeight := followWeight))
  }

  /** The thresholds and weights `set` stores, read in its order; the first malformed one is the error. */
  function MergeTuning(atts: AttributeSet, d: Tuning, m: Trig): (r: Result<Tuning, ParamName>)
    ensures r.Success? <==> TuningWellFormed(atts)
    ensures r.Success? ==> TuningOverride(atts, d, m, r.value)
    ensures r.Failure? ==> FirstMalformed(atts, 5) == Some(r.error)
  {
    var thresholds :- MergeThresholds(atts, d, m);
    FirstMalformedSkip(atts, 5, 9);
    MergeWeights(atts, thresholds, m)
  }

  /**
   * The parameters `set(atts, defaults)` stores: every field is the supplied
   * attribute if present and the default otherwise; the first malformed
   * attribute, in the order `set` reads them, is the error.
   */
  function Merge(atts: AttributeSet, d: Params, m: Trig): (r: Result<Params, ParamName>)
    ensures r.Success? <==> WellFormed(atts)
    ensures r.Success? ==> SwitchesOverride(atts, d.switches, r.value.switches)
    ensures r.Success? ==> TuningOverride(atts, d.tuning, m, r.value.tuning)
    ensures r.Failure? ==> FirstMalformed(atts, 0) == Some(r.error)
  {
    var switches :- MergeSwitches(atts, d.switches);
    FirstMalformedSkip(atts, 0, 5);
    var tuning :- MergeTuning(atts, d.tuning, m);
    Success(Params(switches, tuning))
  }

  /**
   * When every attribute is well formed, running `set` from any
   * starting record stores exactly the merged parameters.
   */
  lemma {:induction false} AssignedAllIsMerge(atts: AttributeSet, d: Params, m: Trig, prev: Params)
    requires WellFormed(atts)
    ensures Merge(atts, d, m) == Success(Assigned(atts, d, m, prev))
  {
    MergeDetermined(atts, d, m, Assigned(atts, d, m, prev));
  }

  /** The overrides pin the merged parameters down: they are the only ones satisfying them. */
  lemma {:induction false} MergeDetermined(atts: AttributeSet, d: Params, m: Trig, p: Params)
    requires WellFormed(atts)
    requires SwitchesOverride(atts, d.switches, p.switches)
    requires TuningOverride(atts, d.tuning, m, p.tuning)
    ensures Merge(atts, d, m) == Success(p)
  {
  }

  /**
   * The degree/radian constants are inverse and clamping leaves an angle
   * already on [0, 2*pi) alone.
   */
  ghost predicate ConeConversionExact(m: Trig) {
    && m.radiansToDegrees * m.degreesToRadians == 1.0
    && forall x: real {:trigger m.clampToCircle(x, 2.0 * m.pi)} ::
         0.0 <= x < 2.0 * m.pi ==> m.clampToCircle(x, 2.0 * m.pi) == x
  }

  /** With exact conversion, a cone already on the circle survives the trip to degrees and back. */
  lemma {:induction false} ConeRoundTrip(m: Trig, c: real)
    requires ConeConversionExact(m)
    requires 0.0 <= c < 2.0 * m.pi
    ensures ConeRadians(m, ToDegrees(m, c)) == c
  {
    assert c * m.radiansToDegrees * m.degreesToRadians == c * (m.radiansToDegrees * m.degreesToRadians);
  }

  /**
   * `update` merges with the receiver's own parameters as the defaults, so
   * with exact cone conversion every field whose attribute is absent keeps
   * its value: merging with no attributes at all gives back the parameters.
   */
  lemma {:induction false} UpdateKeepsAbsent(atts: AttributeSet, d: Params, m: Trig)
    requires ConeConversionExact(m)
    requires 0.0 <= d.tuning.cone < 2.0 * m.pi
    requires WellFormed(atts)
    ensures Merge(atts, d, m).Success?
    ensures var p := Merge(atts, d, m).value;
      && (AvoidsObstaclesParam !in atts ==> p.switches.avoidsObstacles == d.switches.avoidsObstacles)
      && (AvoidsCollisionsParam !in atts ==> p.switches.avoidsCollisions == d.switches.avoidsCollisions)
      && (AlignsWithNeighborsParam !in atts ==> p.switches.alignsWithNeighbors == d.switches.alignsWithNeighbors)
      && (DoesCenteringParam !in atts ==> p.switches.doesCentering == d.switches.doesCentering)
      && (FollowsLightParam !in atts ==> p.switches.followsLight == d.switches.followsLight)
      && (ClearanceDistanceParam !in atts ==> p.tuning.clearance == d.tuning.clearance)
      && (ClearanceAngleParam !in atts ==> p.tuning.cone == d.tuning.cone)
      && (SeparationDistanceParam !in atts ==> p.tuning.separationDistance == d.tuning.separationDistance)
      && (DetectionDistanceParam !in atts ==> p.tuning.detectionDistance == d.tuning.detectionDistance)
      && (ObstacleWeightParam !in atts ==> p.tuning.obstacleWeight == d.tuning.obstacleWeight)
      && (SepWeightParam !in atts ==> p.tuning.separationWeight == d.tuning.separationWeight)
      && (AlignWeightParam !in atts ==> p.tuning.alignmentWeight == d.tuning.alignmentWeight)
      && (CtrWeightParam !in atts ==> p.tuning.centeringWeight == d.tuning.centeringWeight)
      && (LightWeightParam !in atts ==> p.tuning.followWeight == d.tuning.followWeight)
    ensures atts == map[] ==> Merge(atts, d, m).value == d
  {
    ConeRoundTrip(m, d.tuning.cone);
  }

  /**
   * Updating twice with the same attributes is the same as updating once,
   * when the cone conversion is exact and clamping lands on [0, 2*pi).
   */
  lemma {:induction false} UpdateIdempotent(atts: AttributeSet, d: Params, m: Trig)
    requires ConeConversionExact(m)
    requires forall degrees: real {:trigger ConeRadians(m, degrees)} ::
      0.0 <= ConeRadians(m, degrees) < 2.0 * m.pi
    requires WellFormed(atts)
    ensures Merge(atts, d, m).Success?
    ensures Merge(atts, Merge(atts, d, m).value, m) == Merge(atts, d, m)
  {
    var p := Merge(atts, d, m).value;
    var degrees := SuppliedNumber(atts, ClearanceAngleParam, ToDegrees(m, d.tuning.cone));
    assert p.tuning.cone == ConeRadians(m, degrees);
    ConeRoundTrip(m, p.tuning.cone);
    MergeDetermined(atts, p, m, p);
  }

  /** The mutable parameter record of one flocker. */
  class FlockerAttributes {
    var avoidsObstacles: bool
    var clearance: real
    var cone: real
    var obstacleWeight: real
    var avoidsCollisions: bool
    var separationDistance: real
    var separationWeight: real
    var detectionDistance: real
    var alignsWithNeighbors: bool
    var alignmentWeight: real
    var doesCentering: bool
    var centeringWeight: real
    var followsLight: bool
    var followWeight: real

    /** The record holding exactly `p`. */
    constructor (p: Params)
      ensures Value() == p
    {
      avoidsObstacles := p.switches.avoidsObstacles;
      avoidsCollisions := p.switches.avoidsCollisions;
      alignsWithNeighbors := p.switches.alignsWithNeighbors;
      doesCentering := p.switches.doesCentering;
      followsLight := p.switches.followsLight;
      clearance := p.tuning.clearance;
      cone := p.tuning.cone;
      separationDistance := p.tuning.separationDistance;
      detectionDistance := p.tuning.detectionDistance;
      obstacleWeight := p.tuning.obstacleWeight;
      separationWeight := p.tuning.separationWeight;
      alignmentWeight := p.tuning.alignmentWeight;
      centeringWeight := p.tuning.centeringWeight;
      followWeight := p.tuning.followWeight;
    }

    function Value(): Params
      reads this
    {
      Params(
        Switches(avoidsObstacles, avoidsCollisions, alignsWithNeighbors, doesCentering, followsLight),
        Tuning(clearance, cone, obstacleWeight, separationDistance, separationWeight,
               detectionDistance, alignmentWeight, centeringWeight, followWeight))
    }

    /**
     * Overwrites every field with the supplied attribute, or with the field
     * of `defaults` when it is absent (`defaults` may be this record). On a
     * malformed attribute it stops with that attribute's name as the error.
     */
    method Set(atts: AttributeSet, defaults: FlockerAttributes, m: Trig) returns (outcome: Outcome<ParamName>)
      modifies this
      ensures outcome.Pass? <==> Merge(atts, old(defaults.Value()), m).Success?
      ensures outcome.Pass? ==> Value() == Merge(atts, old(defaults.Value()), m).value
      ensures outcome.Fail? ==> FirstMalformed(atts, 0) == Some(outcome.error)
      ensures Value() == Assigned(atts, old(defaults.Value()), m, old(Value()))
    {
      // Each field of `defaults` is read before the same field of this record
      // is written, so reading them all first is the same even when they alias.
      var d := defaults.Value();
      ghost var prev := Value();
      var first := SetSwitches(atts, d.switches);
      outcome := first;
      if first.Pass? {
        outcome := SetTuning(atts, d.tuning, m);
      }
      SetStages(atts, d, m, prev, Value(), first, outcome);
    }

    /** The nine numeric assignments of `set`; the flags are left alone. */
    method SetTuning(atts: AttributeSet, defaults: Tuning, m: Trig) returns (outcome: Outcome<ParamName>)
      modifies this`clearance, this`cone, this`separationDistance, this`detectionDistance,
        this`obstacleWeight, this`separationWeight, this`alignmentWeight, this`centeringWeight,
        this`followWeight
      ensures outcome.Pass? <==> TuningWellFormed(atts)
      ensures outcome.Pass? ==> TuningOverride(atts, defaults, m, Value().tuning)
      ensures outcome.Fail? ==> FirstMalformed(atts, 5) == Some(outcome.error)
      ensures Value().tuning == AssignedTuning(atts, defaults, m, old(Value().tuning), 5, 14, StopAt(outcome))
    {
      outcome := SetThresholds(atts, defaults, m);
      if outcome.Fail? { return; }
      outcome := SetWeights(atts, defaults, m);
    }

    /** The five flag assignments of `set`; the numbers are left alone. */
    method SetSwitches(atts: AttributeSet, defaults: Switches) returns (outcome: Outcome<ParamName>)
      modifies this`avoidsObstacles, this`avoidsCollisions, this`alignsWithNeighbors,
        this`doesCentering, this`followsLight
      ensures outcome.Pass? <==> SwitchesWellFormed(atts)
      ensures outcome.Pass? ==> SwitchesOverride(atts, defaults, Value().switches)
      ensures outcome.Fail? ==> FirstMalformed(atts, 0) == Some(outcome.error)
      ensures Value().switches == AssignedSwitches(atts, defaults, old(Value().switches), 0, 5, StopAt(outcome))
    {
      outcome := SetAvoidanceSwitches(atts, defaults);
      if outcome.Fail? { return; }
      FirstMalformedSkip(atts, 0, 2);
      outcome := SetFlockingSwitches(atts, defaults);
    }

    /** The obstacle and collision flags, the first two assignments of `set`. */
    method SetAvoidanceSwitches(atts: AttributeSet, defaults: Switches) returns (outcome: Outcome<ParamName>)
      modifies this`avoidsObstacles, this`avoidsCollisions
      ensures outcome.Pass? <==> WellFormedBetween(atts, 0, 2)
      ensures outcome.Fail? ==> FirstMalformed(atts, 0) == Some(outcome.error)
      ensures Value().switches == AssignedSwitches(atts, defaults, old(Value().switches), 0, 2, StopAt(outcome))
    {
      var b: Result<bool, ParamName>;
      b := GetBoolParam(atts, AvoidsObstaclesParam, defaults.avoidsObstacles);
      if b.Failure? { return Fail(AvoidsObstaclesParam); }
      avoidsObstacles := b.value;
      b := GetBoolParam(atts, AvoidsCollisionsParam, defaults.avoidsCollisions);
      if b.Failure? { return Fail(AvoidsCollisionsParam); }
      avoidsCollisions := b.value;
      outcome := Pass;
    }

    /** The alignment, centering and light flags, the next three assignments of `set`. */
    method SetFlockingSwitches(atts: AttributeSet, defaults: Switches) returns (outcome: Outcome<ParamName>)
      modifies this`alignsWithNeighbors, this`doesCentering, this`followsLight
      ensures outcome.Pass? <==> WellFormedBetween(atts, 2, 5)
      ensures outcome.Fail? ==> FirstMalformed(atts, 2) == Some(outcome.error)
      ensures Value().switches == AssignedSwitches(atts, defaults, old(Value().switches), 2, 5, StopAt(outcome))
    {
      var b: Result<bool, ParamName>;
      b := GetBoolParam(atts, AlignsWithNeighborsParam, defaults.alignsWithNeighbors);
      if b.Failure? { return Fail(AlignsWithNeighborsParam); }
      alignsWithNeighbors := b.value;
      b := GetBoolParam(atts, DoesCenteringParam, defaults.doesCentering);
      if b.Failure? { return Fail(DoesCenteringParam); }
      doesCentering := b.value;
      b := GetBoolParam(atts, FollowsLightParam, defaults.followsLight);
      if b.Failure? { return Fail(FollowsLightParam); }
      followsLight := b.value;
      outcome := Pass;
    }

    /** The four threshold assignments of `set`; nothing else is touched. */
    method SetThresholds(atts: AttributeSet, defaults: Tuning, m: Trig) returns (outcome: Outcome<ParamName>)
      modifies this`clearance, this`cone, this`separationDistance, this`detectionDistance
      ensures outcome.Pass? <==> ThresholdsWellFormed(atts)
      ensures outcome.Pass? ==> ThresholdsOverride(atts, defaults, m, Value().tuning)
      ensures outcome.Fail? ==> FirstMalformed(atts, 5) == Some(outcome.error)
      ensures Value().tuning == AssignedTuning(atts, defaults, m, old(Value().tuning), 5, 9, StopAt(outcome))
    {
      var x: Result<real, ParamName>;
      x := GetDoubleParam(atts, ClearanceDistanceParam, defaults.clearance);
      if x.Failure? { return Fail(ClearanceDistanceParam); }
      clearance := x.value;
      x := GetDoubleParam(atts, ClearanceAngleParam, ToDegrees(m, defaults.cone));
      if x.Failure? { return Fail(ClearanceAngleParam); }
      var degrees := x.value;
      cone := ConeRadians(m, degrees);
      x := GetDoubleParam(atts, SeparationDistanceParam, defaults.separationDistance);
      if x.Failure? { return Fail(SeparationDistanceParam); }
      separationDistance := x.value;
      x := GetDoubleParam(atts, DetectionDistanceParam, defaults.detectionDistance);
      if x.Failure? { return Fail(DetectionDistanceParam); }
      detectionDistance := x.value;
      outcome := Pass;
    }

    /**
     * The five weight assignments of `set`; nothing else is touched (`m`
     * only names the cone conversion in the contract, as no weight uses it).
     */
    method SetWeights(atts: AttributeSet, defaults: Tuning, m: Trig) returns (outcome: Outcome<ParamName>)
      modifies this`obstacleWeight, this`separationWeight, this`alignmentWeight, this`centeringWeight,
        this`followWeight
      ensures outcome.Pass? <==> WeightsWellFormed(atts)
      ensures outcome.Pass? ==> WeightsOverride(atts, defaults, Value().tuning)
      ensures outcome.Fail? ==> FirstMalformed(atts, 9) == Some(outcome.error)
      ensures Value().tuning == AssignedTuning(atts, defaults, m, old(Value().tuning), 9, 14, StopAt(outcome))
    {
      var x: Result<real, ParamName>;
      x := GetDoubleParam(atts, ObstacleWeightParam, defaults.obstacleWeight);
      if x.Failure? { return Fail(ObstacleWeightParam); }
      obstacleWeight := x.value;
      x := GetDoubleParam(atts, SepWeightParam, defaults.separationWeight);
      if x.Failure? { return Fail(SepWeightParam); }
      separationWeight := x.value;
      x := GetDoubleParam(atts, AlignWeightParam, defaults.alignmentWeight);
      if x.Failure? { return Fail(AlignWeightParam); }
      alignmentWeight := x.value;
      x := GetDoubleParam(atts, CtrWeightParam, defaults.centeringWeight);
      if x.Failure? { return Fail(CtrWeightParam); }
      centeringWeight := x.value;
      x := GetDoubleParam(atts, LightWeightParam, defaults.followWeight);
      if x.Failure? { return Fail(LightWeightParam); }
      followWeight := x.value;
      outcome := Pass;
    }

    /** `set` with this record itself as the defaults. */
    method Update(atts: AttributeSet, m: Trig) returns (outcome: Outcome<ParamName>)
      modifies this
      ensures outcome.Pass? <==> Merge(atts, old(Value()), m).Success?
      ensures outcome.Pass? ==> Value() == Merge(atts, old(Value()), m).value
      ensures outcome.Fail? ==> FirstMalformed(atts, 0) == Some(outcome.error)
      ensures Value() == Assigned(atts, old(Value()), m, old(Value()))
    {
      outcome := Set(atts, this, m);
    }
  }
}
