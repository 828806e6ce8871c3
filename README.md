# Flocker steering model

A Dafny model of the decision engine of the flocking agent `Flocker`. Once per
tick the agent receives a list of percepts, which are the objects it senses.
Each percept has a category, a distance, a bearing, the sensed agent's
orientation and a colour. The agent runs up to five steering behaviours:

- obstacle and predator clearance;
- separation from close boids;
- alignment with neighbours;
- centering on neighbours;
- following the nearest light.

It also always applies an attraction to green. It adds these forces to a
constant forward "inertia" and plans two intentions: a turn toward the
resulting force, and a change of speed to its top forward speed. Each
enabled behaviour's force is also kept in a snapshot field, for drawing.

The modules follow the structure of `Skeleton/Flocker.java`:

- `Wrappers`: `Option`, `Result` and `Outcome`.
- `Numerics`: `Trig`, the record that carries the floating-point library and
  the `World` angle helpers as uninterpreted functions. It also holds
  `Quotient`, division by a percept distance.
- `Percepts`: the percept value (`Percept.java` is not part of this model;
  its accessors become datatype fields).
- `Forces`:
  - the value `Vec` and the arithmetic on it: add, scale, polar
    construction, and the ordered sum `Sum`;
  - the mutable class `WeightedForce`. Its methods `AddIn` and `Reweight`
    are proved to change its value exactly as `Add` and `Scale` do.
- `FlockerSettings`:
  - the parameters, split into five `Switches` and nine `Tuning` numbers;
  - the attribute names `set` reads;
  - the "supplied attribute, else default" merge as a pure function
    (`Merge`), which fails with the name of a malformed attribute;
  - the mutable record `FlockerAttributes`. Its `Set` and `Update` methods
    are proved to store exactly what `Merge` computes.
- `Steering`:
  - the admission predicates (`isTarget*`);
  - each generator's force as a pure function over the percept list
    (`ClearanceForce`, `SeparationForce`, `AlignmentForce`,
    `CenteringForce`, `LightForce`, `GreenForce`);
  - the resultant that `deliberate` turns toward (`Resultant`);
  - the lemmas that give these functions their meaning.
- `Flocking`: the agent class `Flocker`. It has one method per generator, each
  with the source's loop, proved equal to its function in `Steering`. It also
  has `Deliberate`, which is proved to:
  - update exactly the snapshot fields of the enabled behaviours;
  - never assign `total`;
  - plan exactly `[Turn toward Resultant, ChangeSpeed by maxSpeedForward - forwardV]`.

Points where the code's behaviour is easy to misread:

- **Clearance weight compounds.** The comment above the clearance loop
  (`Skeleton/Flocker.java:536`) says the agent moves toward the cone edge
  "inversely proportional to distance", which reads as each admitted obstacle
  weighted obstacleWeight × clearance/distance. In the code, the running weight is
  multiplied at every admitted percept and never reset (line 541). So the
  k-th admitted obstacle's weight carries the ratios of all earlier ones.
  - `ClearanceIsCompoundedSum` states this.
  - `ClearanceTwoObstacles` gives the force for two obstacles, and
    `ClearanceOrderMatters` proves the consequence: two obstacles on the same
    side at different distances give a different force when sensed in the
    other order.
- **Clearance side.** The force points to the cone edge on the side away from
  the percept: +cone for a bearing ≤ 0, −cone otherwise (lines 537-540).
- **Malformed attributes.** `set` stops with an exception at the first
  malformed attribute, leaving every field it read before that one already
  overwritten. The model keeps that error path and that partial state
  (`FirstMalformed`, `Assigned`).

## Model

| member | source | states |
|---|---|---|
| Forces.WeightedForce.constructor | Skeleton/Flocker.java:322-325 | the new force is weight·(cos angle, sin angle) |
| Forces.WeightedForce.Zero | Skeleton/Flocker.java:329-331 | the default force is the zero force |
| Forces.WeightedForce.AddIn | Skeleton/Flocker.java:350-352 | the force becomes the component-wise sum of its old value and the argument's old value, also when the argument is the same object |
| Forces.WeightedForce.Reweight | Skeleton/Flocker.java:357-359 | both components are multiplied by the factor |
| Forces.AddZero | Skeleton/Flocker.java:350-352 | adding in the zero force, on either side, changes nothing |
| Forces.AddCommutes | Skeleton/Flocker.java:350-352 | adding in is commutative |
| Forces.AddAssociates | Skeleton/Flocker.java:350-352 | adding in is associative |
| Forces.SumAppend | Skeleton/Flocker.java:350-352 | accumulating a concatenation adds the two partial accumulations |
| Forces.SumRemove | Skeleton/Flocker.java:350-352 | taking any one force out of an accumulation and adding it in last gives the same total |
| Forces.SumSwapOne | Skeleton/Flocker.java:857-866 | two accumulations that differ only in one place, where one adds f and the other the zero force, differ by exactly f |
| Forces.SumPermutation | Skeleton/Flocker.java:350-352 | any reordering of the same forces accumulates to the same total |
| Forces.PolarScale | Skeleton/Flocker.java:322-325 | reweighting a force built from (w, angle) gives the force built from (k·w, angle) |
| Forces.ScaleAdd | Skeleton/Flocker.java:357-359 | reweighting distributes over adding in |
| Forces.ScalePolarSum | Skeleton/Flocker.java:357-359 | reweighting an accumulation of equal-weight forces is the accumulation of the reweighted forces |
| Forces.SumPolarAllSnoc | Skeleton/Flocker.java:645-646 | adding in one more equal-weight force grows the accumulation by exactly that force |
| Forces.PolarMagnitude | Skeleton/Flocker.java:335-337 | where cos²+sin² = 1 at the angle and sqrt is exact on w², the strength of the force built from (w, angle) is abs(w) |
| Forces.PolarDirection | Skeleton/Flocker.java:342-344 | where atan2 recovers the angle and displacementOnCircle leaves it unchanged, the direction of the force built from (w > 0, angle) is that angle |
| Forces.Magnitude | Skeleton/Flocker.java:335-337 | getWeight: the square root of fx² + fy² (no ensures; its property is `PolarMagnitude`) |
| Forces.Direction | Skeleton/Flocker.java:342-344 | getAngle: atan2(fy, fx) passed through World.displacementOnCircle(0, ·, 2π), which is uninterpreted (no ensures; its property is `PolarDirection`) |
| Forces.WeightedForce.Weight | Skeleton/Flocker.java:335-337 | getWeight of the held force, as `Magnitude` |
| Forces.WeightedForce.Angle | Skeleton/Flocker.java:342-344 | getAngle of the held force, as `Direction` |
| Forces.MeanOfEqualWeights | Skeleton/Flocker.java:652-653 | dividing n ≥ 1 equal-weight forces by n is the same as weighting each by w/n; with none the result is the zero force |
| FlockerSettings.DefaultConeDegrees | Skeleton/Flocker.java:257-258 | with inverse conversion constants the default clearance cone is 60 degrees |
| FlockerSettings.DefaultParams | Skeleton/Flocker.java:233-285 | the built-in defaults: all five behaviours on; clearance 140, cone 60° in radians, separation distance 50, detection distance 250; obstacle, separation, alignment, centering and light weights 2, 2, 5, 10, 5 (no ensures; `DefaultConeDegrees` checks the cone) |
| FlockerSettings.XmlNamesDistinct | Skeleton/Flocker.java:29-69 | two parameters have the same XML attribute name iff they are the same parameter |
| FlockerSettings.ParamName.XmlName | Skeleton/Flocker.java:29-69 | the fourteen attribute names `clear`, `evade`, `align`, `center`, `follow`, `clearance`, `cone`, `separation`, `detection`, `ow`, `sw`, `aw`, `cw`, `lw` (no ensures; `XmlNamesDistinct` states they are distinct) |
| FlockerSettings.FirstMalformed | Skeleton/Flocker.java:158-175 | none iff every attribute from the given position on is well formed; otherwise a malformed attribute such that every attribute `set` reads before it, from that position, is well formed |
| FlockerSettings.StopRank | Skeleton/Flocker.java:158-175 | the position at which `set` stops is before the end iff some attribute is malformed |
| FlockerSettings.FirstMalformedSkip | Skeleton/Flocker.java:158-175 | skipping a run of well-formed attributes does not change the first malformed one |
| FlockerSettings.GetBoolParam | Skeleton/Flocker.java:160-164 | an absent flag gives the default, a supplied flag is taken as given, and a number in its place is the error with that attribute's name |
| FlockerSettings.GetDoubleParam | Skeleton/Flocker.java:165-174 | an absent number gives the default, a supplied number is taken as given, and a flag in its place is the error with that attribute's name |
| FlockerSettings.MergeAvoidance | Skeleton/Flocker.java:160-161 | succeeds iff the obstacle and collision flags are well formed, and then exactly those two are assigned; otherwise the error is the first malformed one |
| FlockerSettings.MergeFlocking | Skeleton/Flocker.java:162-164 | succeeds iff the alignment, centering and light flags are well formed, and then exactly those three are assigned; otherwise the error is the first malformed one from the alignment flag on |
| FlockerSettings.MergeSwitches | Skeleton/Flocker.java:160-164 | succeeds iff every flag attribute is well formed; each flag is then the supplied value, or the default when absent; otherwise the error is the first malformed flag in `set`'s order |
| FlockerSettings.MergeThresholds | Skeleton/Flocker.java:165-169 | succeeds iff the four threshold attributes are well formed, and then exactly those four are assigned, the cone through degrees and clamped radians; otherwise the error is the first malformed one |
| FlockerSettings.MergeWeights | Skeleton/Flocker.java:170-174 | succeeds iff the five weight attributes are well formed, and then exactly those five are assigned; otherwise the error is the first malformed one from the obstacle weight on |
| FlockerSettings.MergeTuning | Skeleton/Flocker.java:165-174 | succeeds iff every numeric attribute is well formed; each number is then the supplied value or the default; the cone is read in degrees (default: the default cone converted to degrees) and stored as clamped radians; otherwise the error is the first malformed number in `set`'s order |
| FlockerSettings.Merge | Skeleton/Flocker.java:158-175 | succeeds iff all fourteen attributes are well formed; every field is then overridden or defaulted as above; otherwise the error is the first malformed attribute in `set`'s order |
| FlockerSettings.AssignedAllIsMerge | Skeleton/Flocker.java:158-175 | when every attribute is well formed, the record `set` leaves, from any starting record, is the merged one |
| FlockerSettings.SetStages | Skeleton/Flocker.java:158-175 | the flag stage followed, unless it failed, by the number stage passes iff the merge succeeds, reports the first malformed attribute otherwise, and leaves the record `set` leaves |
| FlockerSettings.MergeDetermined | Skeleton/Flocker.java:158-175 | the override conditions determine the merged parameters uniquely |
| FlockerSettings.ConeRoundTrip | Skeleton/Flocker.java:166-167 | with inverse conversion constants, converting a cone on [0, 2π) to degrees and back gives it unchanged |
| FlockerSettings.UpdateKeepsAbsent | Skeleton/Flocker.java:184-187 | updating from the record's own values keeps every field whose attribute is absent; updating with no attributes gives back the parameters |
| FlockerSettings.UpdateIdempotent | Skeleton/Flocker.java:184-187 | updating twice with the same attributes gives the same parameters as updating once |
| FlockerSettings.FlockerAttributes.constructor | Skeleton/Flocker.java:129-148 | the record holds exactly the given fourteen values |
| FlockerSettings.FlockerAttributes.Set | Skeleton/Flocker.java:158-175 | passes iff Merge of the attributes with the defaults succeeds, and then holds exactly the merged parameters, also when the defaults are the record itself; on failure reports the first malformed attribute, and every field read before it holds its merged value while every later field keeps its old value |
| FlockerSettings.FlockerAttributes.SetSwitches | Skeleton/Flocker.java:160-164 | passes iff the flag attributes are well formed and then holds the overridden-or-default flags; on failure reports the first malformed flag, with the flags before it assigned and the rest kept; the numbers are untouched |
| FlockerSettings.FlockerAttributes.SetAvoidanceSwitches | Skeleton/Flocker.java:160-161 | passes iff the obstacle and collision flags are well formed; assigns them up to the first malformed one, which it reports |
| FlockerSettings.FlockerAttributes.SetFlockingSwitches | Skeleton/Flocker.java:162-164 | passes iff the alignment, centering and light flags are well formed; assigns them up to the first malformed one, which it reports |
| FlockerSettings.FlockerAttributes.SetThresholds | Skeleton/Flocker.java:165-169 | passes iff the four threshold attributes are well formed and then holds the overridden-or-default thresholds, with the cone clamped to radians; on failure reports the first malformed threshold, with those before it assigned and the rest kept |
| FlockerSettings.FlockerAttributes.SetWeights | Skeleton/Flocker.java:170-174 | passes iff the five weight attributes are well formed and then holds the overridden-or-default weights; on failure reports the first malformed weight, with those before it assigned and the rest kept |
| FlockerSettings.FlockerAttributes.SetTuning | Skeleton/Flocker.java:165-174 | passes iff all nine numeric attributes are well formed and then holds the overridden-or-default tuning; on failure reports the first malformed number, with those before it assigned and the rest kept |
| FlockerSettings.FlockerAttributes.Update | Skeleton/Flocker.java:184-187 | `set` with the record's own old values as the defaults: passes iff the merge succeeds and then holds the merged parameters; on failure reports the first malformed attribute and is left half-updated, with the fields read before it merged |
| Steering.IsTargetClear | Skeleton/Flocker.java:506-526 | admits exactly an obstacle or predator nearer than the detection distance with bearing in the closed interval [−cone, cone] |
| Steering.IsTargetBoidSep | Skeleton/Flocker.java:567-577 | admits exactly the boids strictly nearer than the separation distance |
| Steering.IsTargetBoidAlign | Skeleton/Flocker.java:620-630 | admits only boids strictly between the separation and detection distances, none of which separation admits |
| Steering.IsTargetBoidCenter | Skeleton/Flocker.java:682-693 | admits exactly the boids alignment admits |
| Steering.IsTargetLight | Skeleton/Flocker.java:728-731 | admits exactly the lights nearer than the detection distance; no admitted light is one that clearance, separation or alignment reacts to |
| Steering.TargetCost | Skeleton/Flocker.java:732-734 | the cost of a light is its distance, so `BestTarget` picks the nearest (no ensures; see `BestTarget`) |
| Steering.IsTarget | Skeleton/Flocker.java:476-480 | the agent's targets are exactly the lights light following admits |
| Steering.BehaviorOnApproach | Skeleton/Flocker.java:488-494 | the agent attacks lights and coexists with every other category |
| Steering.BoidBands | Skeleton/Flocker.java:567-630 | the separation band and the neighbour band are disjoint, and a boid at exactly the separation distance is in neither |
| Steering.CompoundedTermAt | Skeleton/Flocker.java:534-544 | the k-th compounded term is weighted by obstacleWeight times the ratios clearance/distance of the first k+1 admitted percepts, at the cone edge away from the k-th |
| Steering.ClearanceWeightCompounds | Skeleton/Flocker.java:531-541 | the running clearance weight is obstacleWeight times the product of the ratios of every percept admitted so far |
| Steering.ClearanceIsCompoundedSum | Skeleton/Flocker.java:527-549 | the clearance force is the accumulation, in order, of the compounded terms of the admitted percepts |
| Steering.ClearanceTwoObstacles | Skeleton/Flocker.java:534-544 | with two admitted obstacles the second one's weight carries the first one's ratio too |
| Steering.ClearanceTwoObstaclesFx | Skeleton/Flocker.java:534-544 | the forward component of the two-obstacle force is the sum of the two terms' forward components |
| Steering.ClearancePairFx | Skeleton/Flocker.java:534-544 | for two obstacles on the same side, the forward component is w·r₁·cos + w·r₁·r₂·cos, with r the ratios clearance/distance in sensing order |
| Steering.ClearanceOrderMatters | Skeleton/Flocker.java:534-544 | two admitted obstacles on the same side at different positive distances give different clearance forces in the two sensing orders (given nonzero obstacle weight, clearance and cosine of the cone) |
| Steering.SeparationForceAppend | Skeleton/Flocker.java:579-600 | separating from two lists in turn adds their two forces |
| Steering.SeparationRemove | Skeleton/Flocker.java:579-600 | taking any percept out of the list and sensing it last leaves the separation force unchanged |
| Steering.SeparationForceSnoc | Skeleton/Flocker.java:585-594 | an admitted boid adds separationWeight·separationDistance/distance pointing directly away from it; any other percept adds nothing; the weight does not carry over |
| Steering.SeparationOrderIrrelevant | Skeleton/Flocker.java:579-600 | any rearrangement of the percepts gives the same separation force |
| Steering.NoAlignmentNeighbours | Skeleton/Flocker.java:639-653 | the neighbour count is zero iff no percept is an alignment neighbour |
| Steering.SameNeighbourCount | Skeleton/Flocker.java:682-693 | alignment and centering count the same neighbours |
| Steering.AlignmentIsAverage | Skeleton/Flocker.java:633-656 | alignment is the zero force with no neighbour, and with n ≥ 1 the sum of the neighbours' headings each weighted alignmentWeight/n |
| Steering.CenteringIsAverage | Skeleton/Flocker.java:695-715 | centering is the zero force with no neighbour, and with n ≥ 1 the sum of the bearings to the neighbours each weighted centeringWeight/n |
| Steering.BestIndex | Skeleton/Flocker.java:735-754 | none iff no light is admitted; otherwise an admitted light of least cost, cheaper than every admitted light before it (the first wins a tie) |
| Steering.FirstNearestUnique | Skeleton/Flocker.java:735-754 | the first nearest admitted light is unique |
| Steering.NearestBy | Skeleton/Flocker.java:735-754 | null iff no light is admitted; otherwise a member of the list that is an admitted light costing no more than any admitted light |
| Steering.NearestByIsFirstNearest | Skeleton/Flocker.java:735-754 | the light chosen is the first nearest admitted light: when index k is the first of least cost, the choice is the percept at k |
| Steering.NearestBySnoc | Skeleton/Flocker.java:739-752 | a non-light changes nothing; an admitted light is taken when none is held, or when it costs strictly less than the one held |
| Steering.LightForceOfNearest | Skeleton/Flocker.java:767-784 | the light force toward the chosen light is followWeight·detection/distance along its bearing, and that distance is positive |
| Steering.LightForceCases | Skeleton/Flocker.java:767-784 | the light force is zero when no light is admitted, and otherwise the pull toward the first nearest admitted light |
| Steering.GreenForceSnoc | Skeleton/Flocker.java:789-795 | a percept of green channel 254 adds 5·obstacleWeight·detection/distance along its bearing; any other adds nothing |
| Steering.GreenIgnoresCategory | Skeleton/Flocker.java:787-797 | colour affinity ignores categories: relabelling any percepts leaves the force unchanged |
| Steering.WithFlag | Skeleton/Flocker.java:807-846 | changes the one behaviour's flag and no other |
| Steering.ResultantIsSum | Skeleton/Flocker.java:857-866 | the resultant is the in-order accumulation of inertia, the five switched contributions and the colour affinity |
| Steering.ContributionSwitched | Skeleton/Flocker.java:807-846 | setting one flag turns that behaviour's contribution on (its force) or off (zero) and leaves the other contributions alone |
| Steering.ContributionsDiffer | Skeleton/Flocker.java:807-866 | with one flag switched on or off, the contribution lists differ only in that behaviour's slot |
| Steering.DisablingRemovesContribution | Skeleton/Flocker.java:807-866 | the resultant with a behaviour on is the resultant with it off plus exactly that behaviour's standalone force |
| Steering.NoPerceptsMeansInertia | Skeleton/Flocker.java:803-866 | with nothing sensed, whatever the flags, the resultant is inertia alone |
| Steering.SingleLightScenario | Skeleton/Flocker.java:767-784 | one light at half the detection distance, only light following on: inertia plus a pull of twice the follow weight toward it |
| Steering.SingleCloseBoidScenario | Skeleton/Flocker.java:579-600 | one boid inside the separation distance: a push directly away from it, and no alignment or centering |
| Flocking.Flocker.constructor | Skeleton/Flocker.java:410-416 | for well-formed attributes the agent's parameters are the merge of the attributes with the current value of the flocker defaults record, every snapshot field is null, and the speeds are the given ones |
| Flocking.Flocker.MaintainClearance | Skeleton/Flocker.java:527-549 | returns a new force equal to the clearance force of the percepts |
| Flocking.Flocker.SeparateFromNeighbors | Skeleton/Flocker.java:579-600 | returns a new force equal to the separation force of the percepts |
| Flocking.Flocker.AlignWithNeighbors | Skeleton/Flocker.java:633-656 | returns a new force equal to the alignment force of the percepts |
| Flocking.Flocker.CenterOnNeighbors | Skeleton/Flocker.java:695-715 | returns a new force equal to the centering force of the percepts |
| Flocking.Flocker.BestTargetBy | Skeleton/Flocker.java:735-754 | returns the first nearest admitted light under the given cost, or none |
| Flocking.Flocker.BestTarget | Skeleton/Flocker.java:755-762 | returns the first nearest admitted light by distance, or none |
| Flocking.Flocker.FollowLight | Skeleton/Flocker.java:767-784 | returns a new force equal to the light force of the percepts |
| Flocking.Flocker.AffinityForGreen | Skeleton/Flocker.java:787-797 | returns a new force equal to the colour affinity of the percepts |
| Flocking.Flocker.SafetyBlock | Skeleton/Flocker.java:809-814 | with obstacle avoidance on, the clearance force is returned and recorded in `safety`; otherwise the zero force is returned and `safety` is kept |
| Flocking.Flocker.CollisionBlock | Skeleton/Flocker.java:816-822 | with collision avoidance on, the separation force is returned and recorded in `collision`; otherwise the zero force is returned and `collision` is kept |
| Flocking.Flocker.AlignmentBlock | Skeleton/Flocker.java:824-830 | with alignment on, the alignment force is returned and recorded in `alignment`; otherwise the zero force is returned and `alignment` is kept |
| Flocking.Flocker.CenteringBlock | Skeleton/Flocker.java:832-838 | with centering on, the centering force is returned and recorded in `centering`; otherwise the zero force is returned and `centering` is kept |
| Flocking.Flocker.LightBlock | Skeleton/Flocker.java:840-846 | with light following on, the light force is returned and recorded in `light`; otherwise the zero force is returned and `light` is kept |
| Flocking.Flocker.Behaviours | Skeleton/Flocker.java:809-846 | every enabled behaviour's force is computed and recorded; each disabled one is the zero force with its field kept |
| Flocking.Flocker.Combine | Skeleton/Flocker.java:857-866 | a new force holding the seven forces added in, in the given order |
| Flocking.Flocker.Deliberate | Skeleton/Flocker.java:803-872 | the snapshot field of each enabled behaviour holds a new force equal to that behaviour's force, and disabled ones keep theirs; `total`, the parameters and the speeds are unchanged; the plan is a turn toward the resultant followed by a speed change of maxSpeedForward − forwardV |

## Left out

- Drawing (`draw` of the agent and of `WeightedForce`, lines 369-387 and 440-468) and XML output (`log`): they are pure output and feed nothing back into the decision.
- XML input: the SAX attributes arrive already typed, as a map from parameter to a flag or a number. `FlockingReader` is not part of this model. Its `getBoolParam` and `getDoubleParam` are modelled as: default when absent, the value when present, an error for a value of the wrong kind. The SAX `Locator` and the message text are left out.
- The XML-reading constructor `FlockerAttributes(atts, defaults, loc)` (lines 227-230) is modelled as the value constructor followed by `Set`.
- Flocking.Flocker.constructor: requires well-formed attributes, because a Dafny constructor cannot end with the `SAXException` the source throws on a malformed one; the error path itself is modelled by `Set`. The base-class constructor and the `form` and `status` records (lines 412-414) are reduced to the two speeds `deliberate` reads, which are passed in. The static defaults record `defaultFlockerAttributes` (lines 275-285) is passed in as `defaults`: the model does not track its value across XML files, only that it starts out as `DefaultParams`.
- Floating point: every quantity is a mathematical real, so IEEE rounding, infinities and NaN are not modelled. Division by a percept distance is `Quotient`, which gives 0 both where the source gives an infinity or NaN (a distance of zero) and where it gives a finite negative ratio (a negative distance). The division by `neighborCount` (lines 653 and 711) happens only when the count is at least 1, and is modelled exactly. The force functions (`ClearanceForce`, `SeparationForce`, `LightForce`, `GreenForce`, `Resultant`) and the lemmas that relate them (`ClearanceIsCompoundedSum`, `SeparationOrderIrrelevant`, `GreenIgnoresCategory`, `DisablingRemovesContribution` and others) are total and hold for that 0, so they agree with the source only where the divisors are positive. The `Flocker` methods require exactly those divisors to be positive: every admitted obstacle's and close boid's distance, every green percept's distance, and the distance of the one light `bestTarget` chooses. So do the lemmas that state a force with `/` (`ClearanceTwoObstacles`, `ClearanceOrderMatters`, `LightForceOfNearest`, `LightForceCases` and the scenarios).
- `Math.cos`, `Math.sin`, `Math.sqrt`, `Math.atan2`, `World.displacementOnCircle`, `World.clampToCircle` and the degree/radian constants are parameters (`Numerics.Trig`) and are not interpreted. Lemmas that need their laws, such as `PolarMagnitude` and `ConeRoundTrip`, take those laws as hypotheses. Two magnitude properties need further laws of these functions and are not stated: the separation push grows strictly as the distance shrinks, and the alignment force is no stronger than one neighbour's alignment weight.
- Forces.WeightedForce.Angle: `getAngle` is the uninterpreted direction of the held force; `PolarDirection` recovers the angle of a polar force only under hypotheses on atan2 and displacementOnCircle.
- `Percept.java` and the `Percept.Measure` interface are not part of this model. A percept is a value with the accessors as fields, and a measure is a function `Percept -> real`.
- Flocking.Flocker.Deliberate: the source's single method is split into the helpers `Behaviours`, the five `*Block` methods and `Combine`, in the source's order. This keeps each proof small.
- Concurrency and the simulation loop that calls `deliberate` are outside the core.
