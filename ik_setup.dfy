/** The start-up half of the inverse-kinematics controller of osim_model-ik.cpp: the reference
    markers and their axis names, the joint actuators taken from the coordinates they are attached
    to, the initialized state with every joint coordinate at 0.0, and the markers' initial
    locations. */
module IkSetup {
  import opened ControlCommon
  import opened Strings

  datatype Vec3 = Vec3(x: real, y: real, z: real)

  /** Component a (0, 1 or 2) of a SimTK::Vec3. */
  function Component(v: Vec3, a: nat): real
    requires a < 3
  {
    if a == 0 then v.x else if a == 1 then v.y else v.z
  }

  function Add(u: Vec3, v: Vec3): Vec3 {
    Vec3(u.x + v.x, u.y + v.y, u.z + v.z)
  }

  /** Location, velocity and acceleration of a marker in ground. */
  datatype MarkerMotion = MarkerMotion(location: Vec3, velocity: Vec3, acceleration: Vec3)

  /** Value, speed and acceleration of a coordinate. */
  datatype CoordinateMotion = CoordinateMotion(value: real, speed: real, acceleration: real)

  /** One entry of the marker weight set handed to the markers reference. */
  datatype MarkerWeight = MarkerWeight(name: string, weight: real)

  const ReferenceWeight: real := 1.0
  /** REFERENCE_AXIS_NAMES. */
  const ReferenceAxisNames: seq<string> := ["_x", "_y", "_z"]

  /** What InitController obtains from the .osim file, buildSystem and initializeState: the names
      of the marker set, the actuator set, the names of the coordinate set, whether each force
      applies, and the initialized state. */
  datatype IkModelDescription = IkModelDescription(markerNames: seq<string>, actuators: seq<Actuator>,
                                                   coordinateNames: seq<string>, forcesApply: seq<bool>,
                                                   initialState: EngineState)

  /** The coordinate a joint actuator is attached to belongs to the model's coordinate set. */
  predicate AttachedCoordinatesListed(d: IkModelDescription) {
    forall a | a in d.actuators && IsJointActuator(a) :: a.coordinateIndex < |d.coordinateNames|
  }

  /** How far InitController's try block gets: a throw from loading the .osim file (before
      anything is read), from buildSystem (after the marker loop) or from initializeState (after
      the actuator loop as well), or to the end. */
  datatype IkStage = LoadThrows | BuildSystemThrows | InitializeStateThrows | Completes

  // ---------------------------------------------------------------------------------------
  // Reference markers
  // ---------------------------------------------------------------------------------------

  /** Indexes, in the marker set, of the markers whose name contains "_ref", in order. */
  function ReferenceIndexes(names: seq<string>): seq<nat>
    decreases |names|
  {
    if names == [] then []
    else ReferenceIndexes(names[..|names| - 1]) + (if IsReferenceMarker(names[|names| - 1]) then [|names| - 1] else [])
  }

  /** The reference markers are exactly the markers whose name contains "_ref", each once, in
      the order of the marker set. */
  lemma {:induction false} ReferenceIndexesExact(names: seq<string>)
    ensures var r := ReferenceIndexes(names);
            && (forall m | 0 <= m < |r| :: r[m] < |names| && Contains(names[r[m]], ReferenceTag))
            && (forall m, m' | 0 <= m < m' < |r| :: r[m] < r[m'])
            && (forall k | 0 <= k < |names| && Contains(names[k], ReferenceTag) :: k in r)
    decreases |names|
  {
    if names != [] {
      var init := names[..|names| - 1];
      ReferenceIndexesExact(init);
      FindDecidesContains(names[|names| - 1], ReferenceTag);
      forall k | 0 <= k < |init|
        ensures names[k] == init[k]
      {
      }
      forall k | 0 <= k < |names|
        ensures IsReferenceMarker(names[k]) <==> Contains(names[k], ReferenceTag)
      {
        FindDecidesContains(names[k], ReferenceTag);
      }
    }
  }

  /** The names of the reference markers, in marker-set order. */
  function ReferenceLabels(names: seq<string>): (r: seq<string>)
    ensures |r| == |ReferenceIndexes(names)|
    decreases |names|
  {
    if names == [] then []
    else ReferenceLabels(names[..|names| - 1]) + (if IsReferenceMarker(names[|names| - 1]) then [names[|names| - 1]] else [])
  }

  /** Label m is the name of reference marker m, the marker at index m of ReferenceIndexes. */
  lemma {:induction false} ReferenceLabelsExact(names: seq<string>)
    ensures forall m | 0 <= m < |ReferenceIndexes(names)| ::
              ReferenceIndexes(names)[m] < |names| && ReferenceLabels(names)[m] == names[ReferenceIndexes(names)[m]]
    decreases |names|
  {
    if names != [] {
      var init := names[..|names| - 1];
      ReferenceLabelsExact(init);
      forall k | 0 <= k < |init|
        ensures names[k] == init[k]
      {
      }
    }
  }

  /** A weight of 1.0 under each label. */
  function ReferenceWeights(labels: seq<string>): (r: seq<MarkerWeight>)
    ensures |r| == |labels| && forall m | 0 <= m < |labels| :: r[m] == MarkerWeight(labels[m], ReferenceWeight)
    decreases |labels|
  {
    if labels == [] then [] else ReferenceWeights(labels[..|labels| - 1]) + [MarkerWeight(labels[|labels| - 1], ReferenceWeight)]
  }

  /** The three axis names of one reference marker. */
  function MarkerAxisNames(name: string): (r: seq<string>)
    ensures |r| == 3 && forall a | 0 <= a < 3 :: r[a] == name + ReferenceAxisNames[a]
  {
    [name + ReferenceAxisNames[0], name + ReferenceAxisNames[1], name + ReferenceAxisNames[2]]
  }

  /** The axis names of a list of reference markers, three per marker in marker order. */
  function AxisNames(labels: seq<string>): (r: seq<string>)
    ensures |r| == 3 * |labels|
    decreases |labels|
  {
    if labels == [] then [] else AxisNames(labels[..|labels| - 1]) + MarkerAxisNames(labels[|labels| - 1])
  }

  /** Axis name 3 * m + a is the name of marker m followed by "_x", "_y" or "_z" after a, so there
      are three times as many axis names as reference markers. */
  lemma {:induction false} AxisNamesLayout(labels: seq<string>)
    ensures forall m, a | 0 <= m < |labels| && 0 <= a < 3 :: AxisNames(labels)[3 * m + a] == labels[m] + ReferenceAxisNames[a]
    decreases |labels|
  {
    if labels != [] {
      var init := labels[..|labels| - 1];
      var last := |labels| - 1;
      AxisNamesLayout(init);
      forall m, a | 0 <= m < |labels| && 0 <= a < 3
        ensures AxisNames(labels)[3 * m + a] == labels[m] + ReferenceAxisNames[a]
      {
        if m < last {
          assert labels[m] == init[m];
          assert AxisNames(labels)[3 * m + a] == AxisNames(init)[3 * m + a];
        } else {
          assert AxisNames(labels)[3 * m + a] == MarkerAxisNames(labels[last])[a];
        }
      }
    }
  }

  /** Flat axis index 3 * m + a belongs to marker m, axis a. */
  lemma MarkerAxisSlot(m: nat, a: nat)
    requires a < 3
    ensures (3 * m + a) / 3 == m && (3 * m + a) % 3 == a
  {
  }

  /** The marker loop of InitController: for every marker whose name contains "_ref", a weight of
      1.0 under its name, the marker itself (by its index), its label and its three axis names. */
  method SelectReferenceMarkers(markerNames: seq<string>)
    returns (markerIndexes: seq<nat>, labels: seq<string>, weights: seq<MarkerWeight>, axisNames: seq<string>)
    ensures markerIndexes == ReferenceIndexes(markerNames) && labels == ReferenceLabels(markerNames)
    ensures weights == ReferenceWeights(labels) && axisNames == AxisNames(labels)
  {
    markerIndexes, labels, weights, axisNames := [], [], [], [];
    for markerIndex := 0 to |markerNames|
      invariant markerIndexes == ReferenceIndexes(markerNames[..markerIndex])
      invariant labels == ReferenceLabels(markerNames[..markerIndex])
      invariant weights == ReferenceWeights(labels) && axisNames == AxisNames(labels)
    {
      assert markerNames[..markerIndex + 1][..markerIndex] == markerNames[..markerIndex];
      var markerName := markerNames[markerIndex];
      if Find(markerName, ReferenceTag).Some? {
        weights := weights + [MarkerWeight(markerName, ReferenceWeight)];
        markerIndexes := markerIndexes + [markerIndex];
        labels := labels + [markerName];
        ghost var before := axisNames;
        for referenceAxisIndex := 0 to 3
          invariant axisNames == before + MarkerAxisNames(markerName)[..referenceAxisIndex]
        {
          var markerAxisName := markerName + ReferenceAxisNames[referenceAxisIndex];
          axisNames := axisNames + [markerAxisName];
          assert MarkerAxisNames(markerName)[..referenceAxisIndex + 1]
              == MarkerAxisNames(markerName)[..referenceAxisIndex] + [markerAxisName];
        }
        assert MarkerAxisNames(markerName)[..3] == MarkerAxisNames(markerName);
      }
    }
    assert markerNames[..|markerNames|] == markerNames;
  }

  // ---------------------------------------------------------------------------------------
  // Joint actuators
  // ---------------------------------------------------------------------------------------

  /** The names of the coordinates the actuators are attached to. */
  function AttachedNames(kept: seq<Actuator>): seq<string> {
    seq(|kept|, j requires 0 <= j < |kept| => kept[j].coordinateName)
  }

  /** The coordinate-set indexes of the coordinates the actuators are attached to. */
  function AttachedIndexes(kept: seq<Actuator>): seq<nat> {
    seq(|kept|, j requires 0 <= j < |kept| => kept[j].coordinateIndex)
  }

  /** The actuator loop of InitController: every actuator that is not a muscle and is a
      coordinate actuator is kept, with the name and the coordinate-set index of the coordinate it
      is attached to. */
  method CollectJointActuators(actuators: seq<Actuator>) returns (kept: seq<Actuator>, names: seq<string>, indexes: seq<nat>)
    ensures kept == JointActuators(actuators) && names == AttachedNames(kept) && indexes == AttachedIndexes(kept)
  {
    kept, names, indexes := [], [], [];
    for actuatorIndex := 0 to |actuators|
      invariant kept == JointActuators(actuators[..actuatorIndex])
      invariant |names| == |kept| && |indexes| == |kept|
      invariant forall j | 0 <= j < |kept| :: names[j] == kept[j].coordinateName && indexes[j] == kept[j].coordinateIndex
    {
      JointActuatorsStep(actuators, actuatorIndex);
      var actuator := actuators[actuatorIndex];
      if !actuator.isMuscle && actuator.isCoordinateActuator {
        kept := kept + [actuator];
        names := names + [actuator.coordinateName];
        indexes := indexes + [actuator.coordinateIndex];
      }
    }
    assert actuators[..|actuators|] == actuators;
    assert names == AttachedNames(kept);
    assert indexes == AttachedIndexes(kept);
  }

  /** The loop of InitController that sets the coordinate of every joint to 0.0: the coordinates
      listed get value zero, every other value, the speeds, the actuations and the time stay. */
  method ZeroJointCoordinates(engine: EngineState, coords: seq<nat>) returns (zeroed: EngineState)
    ensures zeroed.time == engine.time && zeroed.speeds == engine.speeds && zeroed.actuation == engine.actuation
    ensures forall c :: c in zeroed.values <==> c in engine.values || c in coords
    ensures forall c | c in zeroed.values :: zeroed.values[c] == if c in coords then 0.0 else engine.values[c]
  {
    zeroed := engine;
    for jointIndex := 0 to |coords|
      invariant zeroed.time == engine.time && zeroed.speeds == engine.speeds && zeroed.actuation == engine.actuation
      invariant forall c :: c in zeroed.values <==> c in engine.values || c in coords[..jointIndex]
      invariant forall c | c in zeroed.values :: zeroed.values[c] == if c in coords[..jointIndex] then 0.0 else engine.values[c]
    {
      assert coords[..jointIndex + 1] == coords[..jointIndex] + [coords[jointIndex]];
      zeroed := zeroed.(values := zeroed.values[coords[jointIndex] := 0.0]);
    }
    assert coords[..|coords|] == coords;
  }

  /** The last loop of InitController: the location in ground of every reference marker at the
      state. */
  method InitialMarkerLocations(motion: (EngineState, nat) -> MarkerMotion, st: EngineState, markerIndexes: seq<nat>)
    returns (locations: seq<Vec3>)
    ensures |locations| == |markerIndexes|
    ensures forall m | 0 <= m < |markerIndexes| :: locations[m] == motion(st, markerIndexes[m]).location
  {
    locations := seq(|markerIndexes|, _ => Vec3(0.0, 0.0, 0.0));
    for markerIndex := 0 to |markerIndexes|
      invariant |locations| == |markerIndexes|
      invariant forall m | 0 <= m < markerIndex :: locations[m] == motion(st, markerIndexes[m]).location
    {
      locations := locations[markerIndex := motion(st, markerIndexes[markerIndex]).location];
    }
  }

  /** The initialized state with the coordinates of every joint set to 0.0. */
  ghost predicate CoordinatesZeroed(initial: EngineState, coords: seq<nat>, engine: EngineState)
  {
    && engine.time == initial.time && engine.speeds == initial.speeds && engine.actuation == initial.actuation
    && (forall c :: c in engine.values <==> c in initial.values || c in coords)
    && (forall c | c in engine.values :: engine.values[c] == if c in coords then 0.0 else initial.values[c])
  }
}
